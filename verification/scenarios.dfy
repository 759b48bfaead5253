/**
 * Client methods that drive one `Resource` through complete collection cycles, using only the
 * contracts of its methods.
 */
module Scenarios {
  import opened Types
  import opened DiagTlvs
  import opened DiagStore
  import opened RestResource

  function Quote(s: string): string {
    "\"" + s + "\""
  }

  /** A node answers at time `now` with `tlvs`, which the iterator hands out in full. */
  method Answer(resource: Resource, tlvs: seq<DiagTlv>, now: int) returns (key: string)
    requires AllDecoded(tlvs)
    modifies resource`diagSet
    ensures key == KeyOf(tlvs, Quote)
    ensures resource.diagSet == old(resource.diagSet)[key := DiagInfo(now, tlvs)]
  {
    var steps := seq(|tlvs|, i requires 0 <= i < |tlvs| => Yield(tlvs[i])) + [Halt(23)];
    YieldedUnique(steps, tlvs);
    var warned := resource.DiagnosticResponseHandler(ErrorNone, steps, Quote, now);
    key := KeyOf(tlvs, Quote);
  }

  function Reply(rloc16: Word16): seq<DiagTlv> {
    [DiagTlv(ShortAddressTlv, Addr16(rloc16))]
  }

  function RouterKey(digit: int): string
    requires 0 <= digit < 16
  {
    "\"0x0" + [HexDigit(digit)] + "00\""
  }

  /** The key of a reply from an address whose only non-zero hex digit is the second one. */
  lemma KeyOfReply(digit: int)
    requires 0 <= digit < 16
    ensures AllDecoded(Reply(digit * 0x100))
    ensures KeyOf(Reply(digit * 0x100), Quote) == RouterKey(digit)
  {
    var v := digit * 0x100;
    assert v / 0x1000 == 0 && v / 0x100 % 0x10 == digit && v / 0x10 % 0x10 == 0 && v % 0x10 == 0;
    assert FormatRloc16(v) == "0x0" + [HexDigit(digit)] + "00";
    KeyFromLastShortAddress(Reply(v), 0, Quote);
  }

  lemma RouterKeysDistinct(d: int, e: int)
    requires 0 <= d < 16 && 0 <= e < 16 && d != e
    ensures RouterKey(d) != RouterKey(e)
  {
    assert RouterKey(d)[4] == HexDigit(d) && RouterKey(e)[4] == HexDigit(e);
    HexValueOfDigit(d);
    HexValueOfDigit(e);
  }

  /** The three entries of `ThreeReplies` are all young enough to survive the sweep at the deadline. */
  lemma ThreeRoutersKept(m: DiagMap)
    requires m == map[][RouterKey(4) := DiagInfo(300000, Reply(0x400))]
      [RouterKey(8) := DiagInfo(900000, Reply(0x800))][RouterKey(12) := DiagInfo(1900000, Reply(0xc00))]
    ensures |Swept(m, 2000000)| == 3
  {
    RouterKeysDistinct(4, 8);
    RouterKeysDistinct(4, 12);
    RouterKeysDistinct(8, 12);
    assert Swept(m, 2000000) == m;
    assert m.Keys == {RouterKey(4), RouterKey(8), RouterKey(12)};
  }

  /** Three nodes answer within the window; the snapshot at the deadline holds three TLV lists. */
  method ThreeReplies() {
    var resource := new Resource(false);
    var response := new Response();
    var _ := resource.Diagnostic(response, ErrorNone, ErrorNone, ErrorNone, 0);
    KeyOfReply(4);
    KeyOfReply(8);
    KeyOfReply(12);
    var _ := Answer(resource, Reply(0x400), 300000);
    var _ := Answer(resource, Reply(0x800), 900000);
    var _ := Answer(resource, Reply(0xc00), 1900000);
    ThreeRoutersKept(resource.diagSet);
    resource.HandleDiagnosticCallback(response, 2000000);
    ghost var order :| Enumerates(resource.diagSet, order) && response.body.contents == ContentsAlong(resource.diagSet, order);
    EnumerationSize(resource.diagSet, order);
    assert |response.body.contents| == 3;
  }

  /** Issue at 0 and one reply from 0x1234 at 500 ms: the poll just before the deadline changes nothing, the one at it completes with that reply. */
  method SingleReply() {
    var resource := new Resource(false);
    var response := new Response();
    var sent := resource.Diagnostic(response, ErrorNone, ErrorNone, ErrorNone, 0);
    assert sent == [UnicastQuery, MulticastQuery];
    assert response.callback && !response.complete && response.startTime == 0;

    var tlvs := [DiagTlv(ShortAddressTlv, Addr16(0x1234)), DiagTlv(0, Opaque([7, 7]))];
    var key := Answer(resource, tlvs, 500000);
    KeyFromLastShortAddress(tlvs, 0, Quote);
    assert key == Quote(FormatRloc16(0x1234));

    resource.HandleDiagnosticCallback(response, 1999999);
    assert !response.complete && resource.diagSet == map[key := DiagInfo(500000, tlvs)];

    resource.HandleDiagnosticCallback(response, 2000000);
    assert response.complete && response.code == "200 OK";
    assert resource.diagSet.Keys == {key};
    ghost var order :| Enumerates(resource.diagSet, order) && response.body.contents == ContentsAlong(resource.diagSet, order);
    EnumerateSingleton(resource.diagSet, order, key);
    assert response.body == Body.DiagBody([tlvs]);
  }

  /** An entry stored at 0 has aged past the horizon when a later request completes at 4.5 s. */
  method StaleEntryEvicted() {
    var resource := new Resource(true);
    var tlvs := [DiagTlv(5, Opaque([]))];
    KeyWithoutShortAddress(tlvs, Quote);
    var key := Answer(resource, tlvs, 0);
    assert resource.diagSet == map[SentinelKey := DiagInfo(0, tlvs)];

    var response := new Response();
    var _ := resource.Diagnostic(response, ErrorNone, ErrorNone, ErrorNone, 2500000);
    resource.HandleDiagnosticCallback(response, 4500000);
    assert resource.diagSet == map[];
    ghost var order :| Enumerates(resource.diagSet, order) && response.body.contents == ContentsAlong(resource.diagSet, order);
    EnumerateEmpty(resource.diagSet, order);
    assert response.body == Body.DiagBody([]);
  }

  /** Two replies without a short address collide under the sentinel key; the second one stays. */
  method SentinelCollision() {
    var resource := new Resource(false);
    var first := [DiagTlv(0, Opaque([1]))];
    var second := [DiagTlv(2, Opaque([2])), DiagTlv(3, Opaque([3]))];
    KeyWithoutShortAddress(first, Quote);
    KeyWithoutShortAddress(second, Quote);
    var _ := Answer(resource, first, 100);
    var _ := Answer(resource, second, 200);
    assert resource.diagSet == map[SentinelKey := DiagInfo(200, second)];
  }

  /** A failed reply and a failed issue leave the store alone; the failed issue answers 500. */
  method Failures() {
    var resource := new Resource(false);
    var warned := resource.DiagnosticResponseHandler(11, [Yield(DiagTlv(0, Opaque([])))], Quote, 10);
    assert warned && resource.diagSet == map[];

    var response := new Response();
    var sent := resource.Diagnostic(response, ErrorNone, ErrorNone, 3, 20);
    assert sent == [UnicastQuery, MulticastQuery];
    assert response.complete && response.code == "500 Internal Server Error" && !response.callback;
    assert resource.diagSet == map[];
  }
}
