/** Time slots, tokens and the hexadecimal fields of a broadcast
    (`generate_token`, `ota_fields` and `hex_encode` of key_management.rs). */
module BroadcastTokens {
  import opened Common

  /** `HMAC-SHA256(material, slot)[0..4]`, left uninterpreted. */
  type Mac = (seq<byte>, nat) -> seq<byte>

  function SlotLength(rotation: nat): (n: nat)
    ensures n >= 1
  {
    if rotation < 1 then 1 else rotation
  }

  function Slot(now: nat, rotation: nat): nat {
    now / SlotLength(rotation)
  }

  function Token(mac: Mac, material: seq<byte>, now: nat, rotation: nat): seq<byte> {
    mac(material, Slot(now, rotation))
  }

  /** The clock reading `at` lies in slot `k` of slots `n` seconds long. */
  predicate LiesIn(at: nat, k: nat, n: nat) {
    k * n <= at < (k + 1) * n
  }

  /** A beacon's check as documented: the token of the slot that its own clock lies
      in, of slots as long as the rotation interval but at least a second, or of one
      of the two next to it. */
  ghost predicate Accepts(mac: Mac, material: seq<byte>, clock: nat, rotation: nat, token: seq<byte>) {
    var n := if rotation < 1 then 1 else rotation;
    exists k: nat :: LiesIn(clock, k, n)
      && (token == mac(material, k) || token == mac(material, k + 1) || (k >= 1 && token == mac(material, k - 1)))
  }

  /** The slot is the one the clock lies in, and there is no other. */
  lemma SlotOfClock(now: nat, rotation: nat, k: nat)
    ensures LiesIn(now, k, if rotation < 1 then 1 else rotation) <==> k == Slot(now, rotation)
  {
    var n := if rotation < 1 then 1 else rotation;
    var q := Slot(now, rotation);
    assert q == now / n;
    assert q * n <= now < (q + 1) * n;
    MulMonotone(q + 1, k, n);
    MulMonotone(k + 1, q, n);
  }

  /** Every token is that of the slot its clock lies in. */
  lemma TokenOfSlot(mac: Mac, material: seq<byte>, now: nat, rotation: nat, k: nat)
    requires LiesIn(now, k, if rotation < 1 then 1 else rotation)
    ensures Token(mac, material, now, rotation) == mac(material, k)
  {
    SlotOfClock(now, rotation, k);
  }

  /** A slot number is determined by where its multiples of the length fall. */
  lemma SlotBelow(a: nat, b: nat, n: nat, k: nat)
    requires n >= 1 && a <= b + k * n
    ensures a / n <= b / n + k
  {
    var p, q := a / n, b / n;
    assert p * n <= a && b < q * n + n;
    assert (q + k + 1) * n == q * n + k * n + n;
    assert p * n < (q + k + 1) * n;
    MulMonotone(q + k + 1, p, n);
  }

  /** Drift of at most `d` seconds always keeps two clocks within one slot of each
      other exactly when `d` is no longer than the rotation interval, or than the
      one second that an interval of zero counts for. */
  lemma DriftTolerance(rotation: nat, d: nat)
    ensures (forall a: nat, b: nat :: a <= b <= a + d ==> Slot(b, rotation) <= Slot(a, rotation) + 1)
       <==> d <= if rotation < 1 then 1 else rotation
  {
    var n := if rotation < 1 then 1 else rotation;
    if d <= n {
      forall a: nat, b: nat | a <= b <= a + d ensures Slot(b, rotation) <= Slot(a, rotation) + 1 {
        SlotBelow(b, a, n, 1);
      }
    } else {
      assert Slot(n - 1, rotation) == 0;
      assert 2 * n / n == 2;
      assert Slot(2 * n, rotation) == 2;
      assert n - 1 <= 2 * n <= n - 1 + d;
    }
  }

  /** A beacon whose clock is off by at most one rotation interval, either way,
      accepts every token it is sent. */
  lemma DriftingBeaconAccepts(mac: Mac, material: seq<byte>, rotation: nat, now: nat, clock: nat)
    requires var n := if rotation < 1 then 1 else rotation; now <= clock + n && clock <= now + n
    ensures Accepts(mac, material, clock, rotation, Token(mac, material, now, rotation))
  {
    var n, k, j := SlotLength(rotation), Slot(clock, rotation), Slot(now, rotation);
    SlotBelow(now, clock, n, 1);
    SlotBelow(clock, now, n, 1);
    SlotOfClock(clock, rotation, k);
    assert LiesIn(clock, k, if rotation < 1 then 1 else rotation);
    assert Token(mac, material, now, rotation) == mac(material, j);
  }

  /** Tokens generated in a key's window fall into at most two slots, next to each other. */
  lemma WindowUsesTwoSlots(rotation: nat, created: nat, now: nat)
    requires created <= now < created + rotation
    ensures Slot(created, rotation) <= Slot(now, rotation) <= Slot(created, rotation) + 1
    ensures LiesIn(now, Slot(now, rotation), rotation)
  {
    SlotBelow(created, now, SlotLength(rotation), 0);
    SlotBelow(now, created, SlotLength(rotation), 1);
    SlotOfClock(now, rotation, Slot(now, rotation));
  }

  // ── Hexadecimal fields ────────────────────────────────────────────────────

  const DIGITS := "0123456789abcdef"

  function HexDigit(n: int): char
    requires 0 <= n < 16
  {
    DIGITS[n]
  }

  function HexEncode(bytes: seq<byte>): string {
    if bytes == [] then "" else [HexDigit(bytes[0] / 16), HexDigit(bytes[0] % 16)] + HexEncode(bytes[1..])
  }

  /** The value of a lowercase hexadecimal digit. */
  function DigitValue(c: char): Option<int> {
    if '0' <= c <= '9' then Some(c as int - '0' as int)
    else if 'a' <= c <= 'f' then Some(c as int - 'a' as int + 10)
    else None
  }

  function HexDecode(s: string): Option<seq<byte>> {
    if s == "" then Some([])
    else if |s| == 1 then None
    else
      match (DigitValue(s[0]), DigitValue(s[1]), HexDecode(s[2..]))
      case (Some(h), Some(l), Some(rest)) =>
        if 0 <= h < 16 && 0 <= l < 16 then Some([(16 * h + l) as byte] + rest) else None
      case _ => None
  }

  lemma DigitRoundTrip(n: int)
    requires 0 <= n < 16
    ensures DigitValue(HexDigit(n)) == Some(n)
  {
    assert DIGITS[0] == '0' && DIGITS[9] == '9' && DIGITS[10] == 'a' && DIGITS[15] == 'f';
  }

  lemma HexOneByte(b: byte, rest: string)
    ensures
      var s := [HexDigit(b / 16), HexDigit(b % 16)] + rest;
      HexDecode(s) == match HexDecode(rest) case None => None case Some(bytes) => Some([b] + bytes)
  {
    DigitRoundTrip(b / 16);
    DigitRoundTrip(b % 16);
    var s := [HexDigit(b / 16), HexDigit(b % 16)] + rest;
    assert s[2..] == rest && s[0] == HexDigit(b / 16) && s[1] == HexDigit(b % 16);
    assert 16 * (b / 16) + b % 16 == b;
  }

  lemma {:induction false} HexDigitsOnly(bytes: seq<byte>)
    ensures |HexEncode(bytes)| == 2 * |bytes|
    ensures forall i :: 0 <= i < |HexEncode(bytes)| ==> HexEncode(bytes)[i] in DIGITS
  {
    if bytes == [] {
    } else {
      HexDigitsOnly(bytes[1..]);
    }
  }

  /** The `kid` and `tok` fields name their four bytes unambiguously: two lowercase
      digits a byte, and decoding gives the bytes back. */
  lemma {:induction false} HexRoundTrip(bytes: seq<byte>)
    ensures |HexEncode(bytes)| == 2 * |bytes|
    ensures HexDecode(HexEncode(bytes)) == Some(bytes)
    ensures forall i :: 0 <= i < |HexEncode(bytes)| ==> HexEncode(bytes)[i] in DIGITS
  {
    HexDigitsOnly(bytes);
    if bytes == [] {
    } else {
      HexRoundTrip(bytes[1..]);
      HexOneByte(bytes[0], HexEncode(bytes[1..]));
      assert [bytes[0]] + bytes[1..] == bytes;
    }
  }
}
