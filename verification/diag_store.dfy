/**
 * The aggregation table `Resource::mDiagSet` as a value: correlation key to the capture time
 * and TLV list of the most recent reply, with the two timing constants that bound it.
 */
module DiagStore {
  import opened DiagTlvs

  /** `kDiagResetTimeout`: entries this old (in microseconds) are erased by the sweep. */
  const DiagResetTimeout: int := 3000000

  /** `kDiagCollectTimeout`: a pending diagnostic request completes once this much time has passed. */
  const DiagCollectTimeout: int := 2000000

  /** `DiagInfo`: when the reply was stored (`mStartTime`) and its TLVs (`mDiagContent`). */
  datatype DiagInfo = DiagInfo(startTime: int, content: seq<DiagTlv>)

  type DiagMap = map<string, DiagInfo>

  /** The sweep's test: the entry has reached the retention horizon at time `now`. */
  predicate Outdated(info: DiagInfo, now: int) {
    now - info.startTime >= DiagResetTimeout
  }

  /** The table that `DeleteOutDatedDiagnostic` leaves behind at time `now`. */
  function Swept(store: DiagMap, now: int): DiagMap {
    map k | k in store && !Outdated(store[k], now) :: store[k]
  }

  /** After the sweep no entry has reached the retention horizon. */
  lemma SweptHasNoOutdated(store: DiagMap, now: int)
    ensures forall k :: k in Swept(store, now) ==> now - Swept(store, now)[k].startTime < DiagResetTimeout
  {
  }

  /** The sweep keeps every younger entry with its content and timestamp, and adds nothing. */
  lemma SweptKeepsCurrent(store: DiagMap, now: int)
    ensures Swept(store, now).Keys <= store.Keys
    ensures forall k :: k in store && now - store[k].startTime < DiagResetTimeout ==>
      k in Swept(store, now) && Swept(store, now)[k] == store[k]
    ensures forall k :: k in Swept(store, now) ==> Swept(store, now)[k] == store[k]
  {
  }

  /** A second sweep at a later time removes exactly what one sweep at that time removes. */
  lemma SweptLater(store: DiagMap, earlier: int, later: int)
    requires earlier <= later
    ensures Swept(Swept(store, earlier), later) == Swept(store, later)
  {
  }

  /** The sweep never grows the table. */
  lemma SweptSize(store: DiagMap, now: int)
    ensures |Swept(store, now)| <= |store|
  {
    var r := Swept(store, now);
    assert r.Keys <= store.Keys;
    SubsetSize(r.Keys, store.Keys);
  }

  lemma {:induction false} SubsetSize<T>(a: set<T>, b: set<T>)
    requires a <= b
    ensures |a| <= |b|
  {
    if a != {} {
      var x :| x in a;
      SubsetSize(a - {x}, b - {x});
    }
  }

  /** What `mDiagSet[aKey] = value` in `UpdateDiag` leaves behind. */
  function Stored(store: DiagMap, key: string, diag: seq<DiagTlv>, now: int): DiagMap {
    store[key := DiagInfo(now, diag)]
  }

  /**
   * Last writer wins: the key now maps to exactly the new TLVs stamped `now`, no other key
   * changes, and at most one key is added.
   */
  lemma StoredReplaces(store: DiagMap, key: string, diag: seq<DiagTlv>, now: int)
    ensures key in Stored(store, key, diag, now) && Stored(store, key, diag, now)[key] == DiagInfo(now, diag)
    ensures Stored(store, key, diag, now).Keys == store.Keys + {key}
    ensures forall k :: k in store && k != key ==> Stored(store, key, diag, now)[k] == store[k]
    ensures |Stored(store, key, diag, now)| == if key in store then |store| else |store| + 1
  {
  }

  /** Two replies under the same key leave only the second one's TLVs. */
  lemma StoredTwice(store: DiagMap, key: string, first: seq<DiagTlv>, second: seq<DiagTlv>, t1: int, t2: int)
    ensures Stored(Stored(store, key, first, t1), key, second, t2) == Stored(store, key, second, t2)
  {
  }

  /** A fresh entry survives the next sweep as long as that sweep comes before its horizon. */
  lemma StoredSurvivesSweep(store: DiagMap, key: string, diag: seq<DiagTlv>, stored: int, now: int)
    requires now - stored < DiagResetTimeout
    ensures key in Swept(Stored(store, key, diag, stored), now)
    ensures Swept(Stored(store, key, diag, stored), now)[key].content == diag
  {
  }

  /**
   * A reply stored after a request started is still in the swept table, with its TLVs, at every
   * poll that completes the request before the retention horizon has passed since its start:
   * the collection deadline is shorter than the horizon, so the completing sweep keeps it.
   */
  lemma ReplyInWindowSurvives(store: DiagMap, key: string, diag: seq<DiagTlv>, requestStart: int, stored: int, now: int)
    requires requestStart <= stored
    requires DiagCollectTimeout <= now - requestStart < DiagResetTimeout
    ensures key in Swept(Stored(store, key, diag, stored), now)
    ensures Swept(Stored(store, key, diag, stored), now)[key].content == diag
  {
    StoredSurvivesSweep(store, key, diag, stored, now);
  }

  /** `order` lists every key of the table exactly once: one way to iterate over it. */
  ghost predicate Enumerates(store: DiagMap, order: seq<string>) {
    && (forall i, j :: 0 <= i < j < |order| ==> order[i] != order[j])
    && (forall i :: 0 <= i < |order| ==> order[i] in store)
    && (forall k :: k in store ==> k in order)
  }

  /** The TLV lists of the entries, visited in the order `order`. */
  function ContentsAlong(store: DiagMap, order: seq<string>): (r: seq<seq<DiagTlv>>)
    requires forall i :: 0 <= i < |order| ==> order[i] in store
    ensures |r| == |order|
    ensures forall i :: 0 <= i < |order| ==> r[i] == store[order[i]].content
  {
    seq(|order|, i requires 0 <= i < |order| => store[order[i]].content)
  }

  /** An enumeration visits as many keys as the table has entries. */
  lemma {:induction false} EnumerationSize(store: DiagMap, order: seq<string>)
    requires Enumerates(store, order)
    ensures |order| == |store|
  {
    if order == [] {
      assert store.Keys == {};
    } else {
      var k := order[|order| - 1];
      var rest := order[..|order| - 1];
      var smaller := store - {k};
      forall x | x in smaller ensures x in rest {
        assert x in order;
        var i :| 0 <= i < |order| && order[i] == x;
        assert i < |order| - 1;
        assert rest[i] == x;
      }
      EnumerationSize(smaller, rest);
      assert smaller.Keys == store.Keys - {k};
    }
  }

  /** Each entry of the table contributes its content exactly once to a snapshot. */
  lemma EnumerationVisitsOnce(store: DiagMap, order: seq<string>, k: string)
    requires Enumerates(store, order) && k in store
    ensures exists i :: 0 <= i < |order| && order[i] == k && ContentsAlong(store, order)[i] == store[k].content
    ensures forall i, j :: 0 <= i < |order| && 0 <= j < |order| && order[i] == k && order[j] == k ==> i == j
  {
    var i :| 0 <= i < |order| && order[i] == k;
    assert ContentsAlong(store, order)[i] == store[k].content;
  }

  /** The enumerations of a one-entry table and of the empty table. */
  lemma EnumerateSingleton(store: DiagMap, order: seq<string>, k: string)
    requires Enumerates(store, order) && store.Keys == {k}
    ensures order == [k]
  {
    EnumerationSize(store, order);
    assert order[0] in store;
  }

  lemma EnumerateEmpty(store: DiagMap, order: seq<string>)
    requires Enumerates(store, order) && store == map[]
    ensures order == []
  {
    EnumerationSize(store, order);
  }
}
