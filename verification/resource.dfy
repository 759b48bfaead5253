/**
 * `otbr::rest::Resource`: URL dispatch and the network-diagnostic aggregation engine that
 * issues a diagnostic query, collects the replies into `mDiagSet`, and completes the pending
 * response once the collection deadline has passed.
 */
module RestResource {
  import opened Types
  import opened DiagTlvs
  import opened DiagStore
  import opened HttpStatus

  // Resource paths (OT_REST_RESOURCE_PATH_*)
  const PathDiagnostics: string := "/diagnostics"
  const PathNode: string := "/node"
  const PathNodeBaId: string := "/node/ba-id"
  const PathNodeRloc: string := "/node/rloc"
  const PathNodeRloc16: string := "/node/rloc16"
  const PathNodeExtAddress: string := "/node/ext-address"
  const PathNodeState: string := "/node/state"
  const PathNodeNetworkName: string := "/node/network-name"
  const PathNodeLeaderData: string := "/node/leader-data"
  const PathNodeNumOfRouter: string := "/node/num-of-router"
  const PathNodeExtPanId: string := "/node/ext-panid"
  const PathNodeDatasetActive: string := "/node/dataset/active"
  const PathNodeDatasetPending: string := "/node/dataset/pending"
  const PathNodeIpaddrMleid: string := "/node/ipaddr/mleid"
  const PathNodeCommissionerState: string := "/node/commissioner/state"
  const PathNodeCommissionerJoiner: string := "/node/commissioner/joiner"
  const PathNodeSrpServerState: string := "/node/srp/server/state"
  const PathNodeSrpClientState: string := "/node/srp/client/state"
  const PathNodeSrpClientHost: string := "/node/srp/client/host"
  const PathNodeSrpClientService: string := "/node/srp/client/service"

  /** The member functions `mResourceMap` can point at. */
  datatype Handler =
    | Diagnostic | NodeInfo | BaId | State | ExtendedAddr | NetworkName | Rloc16 | LeaderData
    | NumOfRoute | ExtendedPanId | Rloc | DatasetActive | DatasetPending | IpaddrMleid
    | CommissionerState | CommissionerJoiner | SrpServerState | SrpClientState | SrpClientHost
    | SrpClientService

  /** The member functions `mResourceCallbackMap` can point at: `DiagnosticCallback` is `HandleDiagnosticCallback`. */
  datatype CallbackHandler = DiagnosticCallback

  /** The `mResourceMap.emplace` calls of the constructor, in order; one is compiled in only with the SRP advertising proxy. */
  function ResourceRegistrations(srpAdvertisingProxy: bool): seq<(string, Handler)> {
    [(PathDiagnostics, Handler.Diagnostic), (PathNode, NodeInfo), (PathNodeBaId, BaId),
     (PathNodeState, State), (PathNodeExtAddress, ExtendedAddr), (PathNodeNetworkName, NetworkName),
     (PathNodeRloc16, Rloc16), (PathNodeLeaderData, LeaderData), (PathNodeNumOfRouter, NumOfRoute),
     (PathNodeExtPanId, ExtendedPanId), (PathNodeRloc, Rloc), (PathNodeDatasetActive, DatasetActive),
     (PathNodeDatasetPending, DatasetPending), (PathNodeIpaddrMleid, IpaddrMleid),
     (PathNodeCommissionerState, CommissionerState), (PathNodeCommissionerJoiner, CommissionerJoiner),
     (PathNodeCommissionerState, CommissionerState)]
    + (if srpAdvertisingProxy then [(PathNodeSrpServerState, SrpServerState)] else [])
    + [(PathNodeSrpClientState, SrpClientState), (PathNodeSrpClientHost, SrpClientHost),
       (PathNodeSrpClientService, SrpClientService)]
  }

  /** `emplace` inserts only when the key is absent. */
  function Emplace<V>(m: map<string, V>, key: string, value: V): map<string, V> {
    if key in m then m else m[key := value]
  }

  /** No earlier registration uses the path of registration `i`. */
  ghost predicate FirstRegistration<V>(regs: seq<(string, V)>, i: int)
    requires 0 <= i < |regs|
  {
    forall j :: 0 <= j < i ==> regs[j].0 != regs[i].0
  }

  /**
   * The map left by emplacing `regs` in order: exactly the registered paths, each bound to the
   * handler of its first registration.
   */
  function Registered<V>(regs: seq<(string, V)>): (m: map<string, V>)
    ensures forall k :: k in m <==> exists i :: 0 <= i < |regs| && regs[i].0 == k
    ensures forall i :: 0 <= i < |regs| && FirstRegistration(regs, i) ==> regs[i].0 in m && m[regs[i].0] == regs[i].1
  {
    if regs == [] then map[]
    else
      var init := regs[..|regs| - 1];
      var last := regs[|regs| - 1];
      assert forall i :: 0 <= i < |init| ==> init[i] == regs[i];
      Emplace(Registered(init), last.0, last.1)
  }

  /** What `Response::SetResponsCode`, `SetBody`, `SetComplete`, `SetStartTime` and `SetCallback` record. */
  datatype Body =
    | NoBody
      /** `Json::Diag2JsonString` applied to the per-node TLV lists */
    | DiagBody(contents: seq<seq<DiagTlv>>)
      /** `Json::Error2JsonString` applied to a status code and its status line */
    | ErrorBody(status: HttpStatusCode, message: string)

  datatype ResponseState = ResponseState(code: string, body: Body, complete: bool, startTime: int, callback: bool)

  /** `Resource::ErrorHandler`: the error's status line and JSON error body, and the response is complete. */
  function WithError(s: ResponseState, status: HttpStatusCode): (r: ResponseState)
    ensures r.code == GetHttpStatus(status) && r.body == ErrorBody(status, r.code) && r.complete
    ensures r.startTime == s.startTime && r.callback == s.callback
  {
    s.(code := GetHttpStatus(status), body := ErrorBody(status, GetHttpStatus(status)), complete := true)
  }

  /** The multicast group of all routers in the mesh (`kMulticastAddrAllRouters`). */
  const MulticastAddrAllRouters: string := "ff03::2"

  /** `kAllTlvTypes`: the diagnostic TLV types requested from every node. */
  const AllTlvTypes: seq<Byte> := [0, 1, 2, 3, 4, 5, 6, 7, 8, 9, 14, 15, 16, 17, 19]

  datatype Destination = OwnRloc | MulticastGroup(address: string)

  /** One call of `otThreadSendDiagnosticGet`: where it goes and which TLV types it asks for. */
  datatype DiagGetRequest = DiagGetRequest(destination: Destination, tlvTypes: seq<Byte>)

  const UnicastQuery: DiagGetRequest := DiagGetRequest(OwnRloc, AllTlvTypes)
  const MulticastQuery: DiagGetRequest := DiagGetRequest(MulticastGroup(MulticastAddrAllRouters), AllTlvTypes)

  /** The three steps of `Diagnostic` all returned `OT_ERROR_NONE`. */
  predicate IssueSucceeded(unicastResult: OtError, addressResult: OtError, multicastResult: OtError) {
    unicastResult == ErrorNone && addressResult == ErrorNone && multicastResult == ErrorNone
  }

  /**
   * The sends `Diagnostic` attempts: the unicast always, the multicast only when the unicast
   * was accepted and the group address parsed.
   */
  function AttemptedQueries(unicastResult: OtError, addressResult: OtError): (qs: seq<DiagGetRequest>)
    ensures 1 <= |qs| <= 2 && qs[0] == UnicastQuery
    ensures |qs| == 2 <==> unicastResult == ErrorNone && addressResult == ErrorNone
    ensures |qs| == 2 ==> qs[1] == MulticastQuery
  {
    if unicastResult != ErrorNone || addressResult != ErrorNone then [UnicastQuery]
    else [UnicastQuery, MulticastQuery]
  }

  /**
   * The response after `Diagnostic`: on success it is stamped and marked as waiting for its
   * callback, not completed; on failure it is completed with 500 and neither stamped nor marked.
   */
  function AfterIssue(s: ResponseState, unicastResult: OtError, addressResult: OtError, multicastResult: OtError, now: int): (r: ResponseState)
    ensures IssueSucceeded(unicastResult, addressResult, multicastResult) ==>
      r.startTime == now && r.callback && r.complete == s.complete && r.code == s.code && r.body == s.body
    ensures !IssueSucceeded(unicastResult, addressResult, multicastResult) ==>
      r.code == "500 Internal Server Error" && r.complete && r.startTime == s.startTime && r.callback == s.callback
  {
    if IssueSucceeded(unicastResult, addressResult, multicastResult) then s.(startTime := now, callback := true)
    else WithError(s, StatusInternalServerError)
  }

  /** The response completed with the snapshot: "200 OK" and the TLV lists as body. */
  function WithSnapshot(s: ResponseState, contents: seq<seq<DiagTlv>>): (r: ResponseState)
    ensures r.code == "200 OK" && r.body == DiagBody(contents) && r.complete
    ensures r.startTime == s.startTime && r.callback == s.callback
  {
    s.(code := GetHttpStatus(StatusOk), body := DiagBody(contents), complete := true)
  }

  /** The part of `Response` that the resource handlers read and write. */
  class Response {
    var code: string
    var body: Body
    var complete: bool
    var startTime: int
    var callback: bool

    constructor ()
      ensures State() == ResponseState("", NoBody, false, 0, false)
    {
      code, body, complete, startTime, callback := "", NoBody, false, 0, false;
    }

    function State(): ResponseState
      reads this
    {
      ResponseState(code, body, complete, startTime, callback)
    }

    method SetState(s: ResponseState)
      modifies this
      ensures State() == s
    {
      code, body, complete, startTime, callback := s.code, s.body, s.complete, s.startTime, s.callback;
    }
  }

  class Resource {
    /** `mResourceMap`: URL to request handler. */
    const resourceMap: map<string, Handler>
    /** `mResourceCallbackMap`: URL to the handler polled until the response completes. */
    const callbackMap: map<string, CallbackHandler>
    /** `mDiagSet`: correlation key to the latest diagnostic reply, shared by all requests. */
    var diagSet: DiagMap

    constructor (srpAdvertisingProxy: bool)
      ensures resourceMap == Registered(ResourceRegistrations(srpAdvertisingProxy))
      ensures callbackMap == Registered([(PathDiagnostics, DiagnosticCallback)])
      ensures diagSet == map[]
    {
      resourceMap := Registered(ResourceRegistrations(srpAdvertisingProxy));
      callbackMap := Registered([(PathDiagnostics, DiagnosticCallback)]);
      diagSet := map[];
    }

    /** `UpdateDiag`: the reply replaces whatever was stored under its key, stamped `now`. */
    method UpdateDiag(key: string, diag: seq<DiagTlv>, now: int)
      modifies this`diagSet
      ensures diagSet == Stored(old(diagSet), key, diag, now)
    {
      diagSet := diagSet[key := DiagInfo(now, diag)];
    }

    /** `DeleteOutDatedDiagnostic`: erases, entry by entry, every entry aged `DiagResetTimeout` or more. */
    method DeleteOutDatedDiagnostic(now: int)
      modifies this`diagSet
      ensures diagSet == Swept(old(diagSet), now)
    {
      ghost var original := diagSet;
      var pending := diagSet.Keys;
      while pending != {}
        invariant pending <= original.Keys
        invariant diagSet == map k | k in original && (k in pending || !Outdated(original[k], now)) :: original[k]
        decreases pending
      {
        var k :| k in pending;
        if Outdated(diagSet[k], now) {
          diagSet := diagSet - {k};
        }
        pending := pending - {k};
      }
    }

    /** The loop that copies every entry's TLV list out of `mDiagSet`, in the table's iteration order. */
    method CollectContents() returns (contents: seq<seq<DiagTlv>>, ghost order: seq<string>)
      ensures Enumerates(diagSet, order)
      ensures |contents| == |order| == |diagSet|
      ensures forall i :: 0 <= i < |order| ==> contents[i] == diagSet[order[i]].content
      ensures forall k :: k in diagSet ==> diagSet[k].content in contents
      ensures forall i :: 0 <= i < |contents| ==> exists k :: k in diagSet && contents[i] == diagSet[k].content
    {
      var pending := diagSet.Keys;
      contents, order := [], [];
      while pending != {}
        invariant pending <= diagSet.Keys
        invariant forall k :: k in diagSet ==> k in pending || k in order
        invariant forall i :: 0 <= i < |order| ==> order[i] in diagSet && order[i] !in pending
        invariant forall i, j :: 0 <= i < j < |order| ==> order[i] != order[j]
        invariant |contents| == |order|
        invariant forall i :: 0 <= i < |order| ==> contents[i] == diagSet[order[i]].content
        decreases pending
      {
        var k :| k in pending;
        contents, order := contents + [diagSet[k].content], order + [k];
        pending := pending - {k};
      }
      EnumerationSize(diagSet, order);
      forall k | k in diagSet ensures diagSet[k].content in contents {
        var i :| 0 <= i < |order| && order[i] == k;
        assert contents[i] == diagSet[k].content;
      }
    }

    /**
     * `HandleDiagnosticCallback`: before the collection deadline nothing changes; from then on
     * the store is swept, every surviving entry's TLV list goes into the body once, and the
     * response completes with "200 OK".
     */
    method HandleDiagnosticCallback(response: Response, now: int)
      modifies this`diagSet, response
      ensures now - old(response.startTime) < DiagCollectTimeout ==>
        diagSet == old(diagSet) && response.State() == old(response.State())
      ensures now - old(response.startTime) >= DiagCollectTimeout ==>
        && diagSet == Swept(old(diagSet), now)
        && response.body.DiagBody?
        && response.State() == WithSnapshot(old(response.State()), response.body.contents)
        && exists order :: Enumerates(diagSet, order) && response.body.contents == ContentsAlong(diagSet, order)
    {
      var duration := now - response.startTime;
      if duration >= DiagCollectTimeout {
        DeleteOutDatedDiagnostic(now);
        var contents, order := CollectContents();
        response.SetState(WithSnapshot(response.State(), contents));
        assert Enumerates(diagSet, order) && contents == ContentsAlong(diagSet, order);
      }
    }

    /** `ErrorHandler`: completes the response with the error's status line and JSON error body. */
    method ErrorHandler(response: Response, status: HttpStatusCode)
      modifies response
      ensures response.State() == WithError(old(response.State()), status)
    {
      response.SetState(WithError(response.State(), status));
    }

    /**
     * `Diagnostic`: sends the query to the node's own RLOC, then to all routers; it never
     * touches the store. The results of the OpenThread calls are its inputs, and the sends it
     * attempted are its output.
     */
    method Diagnostic(response: Response, unicastResult: OtError, addressResult: OtError, multicastResult: OtError, now: int)
      returns (attempted: seq<DiagGetRequest>)
      modifies response
      ensures attempted == AttemptedQueries(unicastResult, addressResult)
      ensures response.State() == AfterIssue(old(response.State()), unicastResult, addressResult, multicastResult, now)
    {
      var error := false;
      attempted := [UnicastQuery];
      if unicastResult != ErrorNone {
        error := true;
      } else if addressResult != ErrorNone {
        error := true;
      } else {
        attempted := attempted + [MulticastQuery];
        if multicastResult != ErrorNone {
          error := true;
        }
      }
      if !error {
        response.SetState(response.State().(startTime := now, callback := true));
      } else {
        ErrorHandler(response, StatusInternalServerError);
      }
    }

    /**
     * The handler's loop: reads TLVs until the iterator stops succeeding, keeping each one in
     * order and tracking the correlation key.
     */
    method ReadReply(steps: seq<IterStep>, toJson: string -> string) returns (diag: seq<DiagTlv>, key: string)
      requires DecodedSteps(steps)
      ensures AllDecoded(diag)
      ensures diag == Yielded(steps)
      ensures key == KeyOf(diag, toJson)
    {
      diag, key := [], SentinelKey;
      var i := 0;
      while i < |steps| && steps[i].Yield?
        invariant 0 <= i <= |steps| && |diag| == i
        invariant forall k :: 0 <= k < i ==> steps[k] == Yield(diag[k])
        invariant AllDecoded(diag)
        invariant key == KeyOf(diag, toJson)
        decreases |steps| - i
      {
        var tlv := steps[i].tlv;
        KeyOfAppend(diag, tlv, toJson);
        if tlv.tlvType == ShortAddressTlv {
          key := toJson(FormatRloc16(tlv.data.addr16));
        }
        diag := diag + [tlv];
        i := i + 1;
      }
      YieldedUnique(steps, diag);
    }

    /**
     * `DiagnosticResponseHandler`: on success, stores every TLV read before the first
     * non-success iterator result under the key of the last short-address TLV (or the sentinel);
     * on failure it only logs (`warned`).
     */
    method DiagnosticResponseHandler(error: OtError, steps: seq<IterStep>, toJson: string -> string, now: int)
      returns (warned: bool)
      requires DecodedSteps(steps)
      modifies this`diagSet
      ensures AllDecoded(Yielded(steps))
      ensures warned <==> error != ErrorNone
      ensures error != ErrorNone ==> diagSet == old(diagSet)
      ensures error == ErrorNone ==>
        diagSet == Stored(old(diagSet), KeyOf(Yielded(steps), toJson), Yielded(steps), now)
    {
      warned := error != ErrorNone;
      if error == ErrorNone {
        var diag, key := ReadReply(steps, toJson);
        UpdateDiag(key, diag, now);
      }
    }

    /** `Handle`: dispatches on the URL; an unknown URL is answered 404. */
    method Handle(url: string, response: Response, unicastResult: OtError, addressResult: OtError, multicastResult: OtError, now: int)
      returns (handler: Option<Handler>)
      modifies response
      ensures handler == if url in resourceMap then Some(resourceMap[url]) else None
      ensures handler == None ==> response.State() == WithError(old(response.State()), StatusResourceNotFound)
      ensures handler == Some(Handler.Diagnostic) ==>
        response.State() == AfterIssue(old(response.State()), unicastResult, addressResult, multicastResult, now)
    {
      if url in resourceMap {
        handler := Some(resourceMap[url]);
        if resourceMap[url] == Handler.Diagnostic {
          var _ := Diagnostic(response, unicastResult, addressResult, multicastResult, now);
        }
      } else {
        handler := None;
        ErrorHandler(response, StatusResourceNotFound);
      }
    }

    /** `HandleCallback`: polls the callback registered for the URL; for any other URL it does nothing. */
    method HandleCallback(url: string, response: Response, now: int)
      modifies this`diagSet, response
      ensures url !in callbackMap ==> diagSet == old(diagSet) && response.State() == old(response.State())
      ensures url in callbackMap && now - old(response.startTime) < DiagCollectTimeout ==>
        diagSet == old(diagSet) && response.State() == old(response.State())
      ensures url in callbackMap && now - old(response.startTime) >= DiagCollectTimeout ==>
        && diagSet == Swept(old(diagSet), now)
        && response.body.DiagBody?
        && response.State() == WithSnapshot(old(response.State()), response.body.contents)
        && exists order :: Enumerates(diagSet, order) && response.body.contents == ContentsAlong(diagSet, order)
    {
      if url in callbackMap {
        match callbackMap[url]
        case DiagnosticCallback =>
          HandleDiagnosticCallback(response, now);
      }
    }
  }
}
