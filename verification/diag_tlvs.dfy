/**
 * Network-diagnostic TLVs as they come out of OpenThread's reply iterator, and the
 * correlation key that `Resource::DiagnosticResponseHandler` derives from them.
 */
module DiagTlvs {
  import opened Types

  /** `OT_NETWORK_DIAGNOSTIC_TLV_SHORT_ADDRESS`: the TLV that carries the sender's RLOC16. */
  const ShortAddressTlv: Byte := 1

  /** The payload union `otNetworkDiagTlv::mData`; only the 16-bit address view is read by the core. */
  datatype TlvData = Addr16(addr16: Word16) | Opaque(bytes: seq<Byte>)

  /** One decoded `otNetworkDiagTlv`: its type code and its payload. */
  datatype DiagTlv = DiagTlv(tlvType: Byte, data: TlvData)

  /** What OpenThread's decoder guarantees: a short-address TLV carries a 16-bit address. */
  predicate Decoded(t: DiagTlv) {
    t.tlvType == ShortAddressTlv ==> t.data.Addr16?
  }

  predicate IsShortAddress(t: DiagTlv) {
    t.tlvType == ShortAddressTlv
  }

  /** One result of `otThreadGetNextDiagnosticTlv`: a TLV, or a status other than `OT_ERROR_NONE`. */
  datatype IterStep = Yield(tlv: DiagTlv) | Halt(error: OtError)

  /**
   * Every TLV the iterator can hand out satisfies the decoder's guarantee, and a step that stops
   * the loop carries a status other than `OT_ERROR_NONE` (that status continues it).
   */
  predicate DecodedSteps(steps: seq<IterStep>) {
    forall i :: 0 <= i < |steps| ==>
      && (steps[i].Yield? ==> Decoded(steps[i].tlv))
      && (steps[i].Halt? ==> steps[i].error != ErrorNone)
  }

  /** The TLVs read before the first non-success iterator result, in the order received. */
  function Yielded(steps: seq<IterStep>): (tlvs: seq<DiagTlv>)
    ensures |tlvs| <= |steps|
    ensures forall i :: 0 <= i < |tlvs| ==> steps[i] == Yield(tlvs[i])
    ensures |tlvs| < |steps| ==> steps[|tlvs|].Halt?
  {
    if steps == [] || steps[0].Halt? then [] else [steps[0].tlv] + Yielded(steps[1..])
  }

  predicate AllDecoded(tlvs: seq<DiagTlv>) {
    forall i :: 0 <= i < |tlvs| ==> Decoded(tlvs[i])
  }

  /** The contract of `Yielded` determines it: any list read up to the first non-success result is it. */
  lemma YieldedUnique(steps: seq<IterStep>, tlvs: seq<DiagTlv>)
    requires |tlvs| <= |steps|
    requires forall i :: 0 <= i < |tlvs| ==> steps[i] == Yield(tlvs[i])
    requires |tlvs| < |steps| ==> steps[|tlvs|].Halt?
    ensures tlvs == Yielded(steps)
  {
  }

  /** The sentinel key used when a reply carries no short-address TLV. */
  const SentinelKey: string := "0xffee"

  const LowerHexDigits: string := "0123456789abcdef"

  predicate IsLowerHexDigit(c: char) {
    '0' <= c <= '9' || 'a' <= c <= 'f'
  }

  function HexDigit(n: int): (c: char)
    requires 0 <= n < 16
    ensures IsLowerHexDigit(c)
  {
    LowerHexDigits[n]
  }

  /** The value of a lower-case hexadecimal digit, or None for any other character. */
  function HexValue(c: char): (v: Option<int>)
    ensures v.Some? <==> IsLowerHexDigit(c)
    ensures v.Some? ==> 0 <= v.value < 16
  {
    if '0' <= c <= '9' then Some(c as int - '0' as int)
    else if 'a' <= c <= 'f' then Some(c as int - 'a' as int + 10)
    else None
  }

  lemma HexValueOfDigit(n: int)
    requires 0 <= n < 16
    ensures HexValue(HexDigit(n)) == Some(n)
  {
    if n < 10 {
      assert HexDigit(n) == ('0' as int + n) as char;
    } else {
      assert HexDigit(n) == ('a' as int + n - 10) as char;
    }
  }

  /** `snprintf(rloc, 7, "0x%04x", addr16)`: the address as "0x" and four lower-case hex digits. */
  function FormatRloc16(v: Word16): (s: string)
    ensures |s| == 6 && s[..2] == "0x"
    ensures forall i :: 2 <= i < 6 ==> IsLowerHexDigit(s[i])
  {
    "0x" + [HexDigit(v / 0x1000), HexDigit(v / 0x100 % 0x10), HexDigit(v / 0x10 % 0x10), HexDigit(v % 0x10)]
  }

  /** Reads back a string of the form "0x" followed by four lower-case hex digits. */
  function ParseRloc16(s: string): (r: Option<Word16>)
  {
    if |s| != 6 || s[..2] != "0x" then None
    else
      match (HexValue(s[2]), HexValue(s[3]), HexValue(s[4]), HexValue(s[5]))
      case (Some(a), Some(b), Some(c), Some(d)) => Some(a * 0x1000 + b * 0x100 + c * 0x10 + d)
      case _ => None
  }

  lemma DigitsOfWord16(v: Word16)
    ensures v / 0x1000 * 0x1000 + v / 0x100 % 0x10 * 0x100 + v / 0x10 % 0x10 * 0x10 + v % 0x10 == v
  {
    var q1 := v / 0x10;
    assert v == q1 * 0x10 + v % 0x10;
    var q2 := q1 / 0x10;
    assert q1 == q2 * 0x10 + q1 % 0x10;
    assert v / 0x100 == q2;
    var q3 := q2 / 0x10;
    assert q2 == q3 * 0x10 + q2 % 0x10;
    assert v / 0x1000 == q3;
  }

  /** The key text loses nothing: the address can be read back from it. */
  lemma RoundTripRloc16(v: Word16)
    ensures ParseRloc16(FormatRloc16(v)) == Some(v)
  {
    var s := FormatRloc16(v);
    DigitsOfWord16(v);
    var a, b, c, d := v / 0x1000, v / 0x100 % 0x10, v / 0x10 % 0x10, v % 0x10;
    HexValueOfDigit(a);
    HexValueOfDigit(b);
    HexValueOfDigit(c);
    HexValueOfDigit(d);
    assert s[2] == HexDigit(a) && s[3] == HexDigit(b) && s[4] == HexDigit(c) && s[5] == HexDigit(d);
    assert a * 0x1000 + b * 0x100 + c * 0x10 + d == v;
  }

  /** Distinct short addresses give distinct key texts. */
  lemma FormatRloc16Injective(v: Word16, w: Word16)
    requires FormatRloc16(v) == FormatRloc16(w)
    ensures v == w
  {
    RoundTripRloc16(v);
    RoundTripRloc16(w);
  }

  /**
   * The key left in `keyRloc` after the handler's loop has consumed `tlvs`: each short-address
   * TLV sets it to the JSON-string form (`toJson`, standing for `Json::CString2JsonString`) of its
   * formatted address, so the last one wins; with none the raw sentinel stays.
   */
  function KeyOf(tlvs: seq<DiagTlv>, toJson: string -> string): string
    requires AllDecoded(tlvs)
  {
    if tlvs == [] then SentinelKey
    else if IsShortAddress(tlvs[|tlvs| - 1]) then toJson(FormatRloc16(tlvs[|tlvs| - 1].data.addr16))
    else KeyOf(tlvs[..|tlvs| - 1], toJson)
  }

  /** One loop step of the handler: a short-address TLV resets the key, any other TLV keeps it. */
  lemma KeyOfAppend(tlvs: seq<DiagTlv>, t: DiagTlv, toJson: string -> string)
    requires AllDecoded(tlvs) && Decoded(t)
    ensures AllDecoded(tlvs + [t])
    ensures KeyOf(tlvs + [t], toJson) ==
      if IsShortAddress(t) then toJson(FormatRloc16(t.data.addr16)) else KeyOf(tlvs, toJson)
  {
    assert (tlvs + [t])[..|tlvs|] == tlvs;
  }

  /** A reply without a short-address TLV is filed under the sentinel key. */
  lemma {:induction false} KeyWithoutShortAddress(tlvs: seq<DiagTlv>, toJson: string -> string)
    requires AllDecoded(tlvs)
    requires forall i :: 0 <= i < |tlvs| ==> !IsShortAddress(tlvs[i])
    ensures KeyOf(tlvs, toJson) == SentinelKey
  {
    if tlvs != [] {
      KeyWithoutShortAddress(tlvs[..|tlvs| - 1], toJson);
    }
  }

  /** With short-address TLVs present, the key comes from the last of them. */
  lemma {:induction false} KeyFromLastShortAddress(tlvs: seq<DiagTlv>, j: nat, toJson: string -> string)
    requires AllDecoded(tlvs)
    requires j < |tlvs| && IsShortAddress(tlvs[j])
    requires forall k :: j < k < |tlvs| ==> !IsShortAddress(tlvs[k])
    ensures KeyOf(tlvs, toJson) == toJson(FormatRloc16(tlvs[j].data.addr16))
  {
    if j < |tlvs| - 1 {
      var init := tlvs[..|tlvs| - 1];
      assert forall k :: j < k < |init| ==> init[k] == tlvs[k];
      KeyFromLastShortAddress(init, j, toJson);
    }
  }

  /**
   * Replies from two different nodes do not collide when the JSON-string encoder is injective:
   * `j` and `k` are the positions of each reply's last short-address TLV, wherever it sits.
   */
  lemma DistinctSendersDistinctKeys(tlvs: seq<DiagTlv>, j: nat, others: seq<DiagTlv>, k: nat, toJson: string -> string)
    requires AllDecoded(tlvs)
    requires AllDecoded(others)
    requires j < |tlvs| && IsShortAddress(tlvs[j])
    requires forall i :: j < i < |tlvs| ==> !IsShortAddress(tlvs[i])
    requires k < |others| && IsShortAddress(others[k])
    requires forall i :: k < i < |others| ==> !IsShortAddress(others[i])
    requires tlvs[j].data.addr16 != others[k].data.addr16
    requires forall x, y :: toJson(x) == toJson(y) ==> x == y
    ensures KeyOf(tlvs, toJson) != KeyOf(others, toJson)
  {
    KeyFromLastShortAddress(tlvs, j, toJson);
    KeyFromLastShortAddress(others, k, toJson);
    var v, w := tlvs[j].data.addr16, others[k].data.addr16;
    if FormatRloc16(v) == FormatRloc16(w) {
      FormatRloc16Injective(v, w);
    }
  }
}
