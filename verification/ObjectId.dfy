/** MongoDB object IDs and their hexadecimal text. */
module ObjectId {
  import opened Options

  type Byte = n: nat | n < 256
  type Id = s: seq<Byte> | |s| == 12 witness ZERO_BYTES

  const ZERO_BYTES: seq<Byte> := [0, 0, 0, 0, 0, 0, 0, 0, 0, 0, 0, 0]
  const ZERO: Id := ZERO_BYTES

  function HexDigit(n: nat): char
    requires n < 16
  {
    if n < 10 then '0' + n as char else 'a' + (n - 10) as char
  }

  /** Decoding also accepts upper-case digits. */
  function DigitValue(c: char): Option<nat>
  {
    if '0' <= c <= '9' then Some(c as nat - '0' as nat)
    else if 'a' <= c <= 'f' then Some(c as nat - 'a' as nat + 10)
    else if 'A' <= c <= 'F' then Some(c as nat - 'A' as nat + 10)
    else None
  }

  function Encode(bytes: seq<Byte>): (s: string)
    ensures |s| == 2 * |bytes|
  {
    if bytes == [] then ""
    else [HexDigit(bytes[0] / 16), HexDigit(bytes[0] % 16)] + Encode(bytes[1..])
  }

  function Decode(s: string): (r: Option<seq<Byte>>)
    ensures r.Some? ==> 2 * |r.value| == |s|
  {
    if s == "" then Some([])
    else if |s| == 1 then None
    else
      var hi, lo, rest := DigitValue(s[0]), DigitValue(s[1]), Decode(s[2..]);
      if hi.None? || lo.None? || hi.value >= 16 || lo.value >= 16 || rest.None? then None
      else
        var b: Byte := 16 * hi.value + lo.value;
        Some([b] + rest.value)
  }

  function Hex(id: Id): string { Encode(id) }

  function FromHex(s: string): Option<Id>
  {
    if |s| != 24 then None
    else
      var bytes := Decode(s);
      if bytes.Some? then Some(bytes.value) else None
  }

  lemma DigitRoundTrip(n: nat)
    requires n < 16
    ensures DigitValue(HexDigit(n)) == Some(n)
  {
  }

  lemma {:induction false} DecodeEncode(bytes: seq<Byte>)
    ensures Decode(Encode(bytes)) == Some(bytes)
  {
    if bytes != [] {
      DecodeEncode(bytes[1..]);
      DigitRoundTrip(bytes[0] / 16);
      DigitRoundTrip(bytes[0] % 16);
      hide HexDigit, DigitValue;
      assert Encode(bytes)[2..] == Encode(bytes[1..]);
      assert bytes == [bytes[0]] + bytes[1..];
    }
  }

  /** Every ID is recovered from its text, so different IDs have different texts. */
  lemma HexRoundTrip(id: Id)
    ensures FromHex(Hex(id)) == Some(id) && Hex(id) != ""
  {
    DecodeEncode(id);
  }
}
