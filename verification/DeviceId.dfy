/** Device IDs: 128 bits, written as 32 lowercase hexadecimal characters. */
module DeviceId {
  predicate IsHex(c: char) { '0' <= c <= '9' || 'a' <= c <= 'f' }

  predicate Valid(id: string) { |id| == 32 && forall i | 0 <= i < |id| :: IsHex(id[i]) }

  method CheckValid(id: string) returns (ok: bool)
    ensures ok == Valid(id)
  {
    if |id| != 32 { return false; }
    for i := 0 to |id|
      invariant forall j | 0 <= j < i :: IsHex(id[j])
    {
      if !IsHex(id[i]) { return false; }
    }
    return true;
  }

  type Byte = b: int | 0 <= b < 256

  function HexDigit(n: int): char
    requires 0 <= n < 16
  {
    "0123456789abcdef"[n]
  }

  /** Two characters for each byte, the high half first. */
  function Hex(raw: seq<Byte>): string {
    if raw == [] then "" else [HexDigit(raw[0] / 16), HexDigit(raw[0] % 16)] + Hex(raw[1..])
  }

  function DigitValue(c: char): int
    requires IsHex(c)
  {
    if c <= '9' then c as int - '0' as int else c as int - 'a' as int + 10
  }

  lemma HexDigits(c: char, n: int)
    ensures 0 <= n < 16 ==> IsHex(HexDigit(n)) && DigitValue(HexDigit(n)) == n
    ensures IsHex(c) ==> 0 <= DigitValue(c) < 16 && HexDigit(DigitValue(c)) == c
  {
  }

  lemma {:induction false} HexShape(raw: seq<Byte>)
    ensures |Hex(raw)| == 2 * |raw| && forall i | 0 <= i < |Hex(raw)| :: IsHex(Hex(raw)[i])
  {
    if raw != [] {
      HexShape(raw[1..]);
      HexDigits('0', raw[0] / 16);
      HexDigits('0', raw[0] % 16);
    }
  }

  lemma HexPair(c: char, d: char) returns (b: Byte)
    requires IsHex(c) && IsHex(d)
    ensures HexDigit(b / 16) == c && HexDigit(b % 16) == d
  {
    HexDigits(c, 0);
    HexDigits(d, 0);
    var high, low := DigitValue(c), DigitValue(d);
    b := 16 * high + low;
    assert b / 16 == high && b % 16 == low;
  }

  lemma {:induction false} HexReads(id: string) returns (raw: seq<Byte>)
    requires |id| % 2 == 0 && forall i | 0 <= i < |id| :: IsHex(id[i])
    ensures 2 * |raw| == |id| && Hex(raw) == id
    decreases |id|
  {
    if id == "" {
      raw := [];
    } else {
      var rest := HexReads(id[2..]);
      var b := HexPair(id[0], id[1]);
      raw := [b] + rest;
      assert raw[1..] == rest && id == [id[0], id[1]] + id[2..];
    }
  }

  /** The valid IDs are those that 16 bytes are written as. */
  lemma ValidMeansSixteenBytes(id: string)
    ensures Valid(id) <==> exists raw: seq<Byte> :: |raw| == 16 && Hex(raw) == id
  {
    if Valid(id) {
      var raw := HexReads(id);
      assert |raw| == 16 && Hex(raw) == id;
    }
    if raw: seq<Byte> :| |raw| == 16 && Hex(raw) == id {
      HexShape(raw);
    }
  }
}
