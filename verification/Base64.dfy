/** Base64, as in section 4 of RFC 4648, read as forgivingly as a browser reads it. */
module Base64 {
  import opened History

  type Byte = b: nat | b < 256

  type Six = v: nat | v < 64

  // ── bytes and sixes ────────────────────────────────────────────────

  /** The four sixes of three bytes. */
  function Sixes(a: Byte, b: Byte, c: Byte): (Six, Six, Six, Six) {
    (a / 4, a % 4 * 16 + b / 16, b % 16 * 4 + c / 64, c % 64)
  }

  function Bytes3(p: Six, q: Six, r: Six, s: Six): (Byte, Byte, Byte) {
    (p * 4 + q / 16, q % 16 * 16 + r / 4, r % 4 * 64 + s)
  }

  lemma FirstBack(a: Byte, b: Byte)
    ensures a / 4 * 4 + (a % 4 * 16 + b / 16) / 16 == a && (a % 4 * 16 + b / 16) % 16 == b / 16
  {}

  lemma SecondBack(b: Byte, c: Byte)
    ensures b / 16 * 16 + (b % 16 * 4 + c / 64) / 4 == b && (b % 16 * 4 + c / 64) % 4 == c / 64
  {}

  lemma SixesBack(a: Byte, b: Byte, c: Byte)
    ensures var x := Sixes(a, b, c); Bytes3(x.0, x.1, x.2, x.3) == (a, b, c)
    ensures c == 0 ==> Sixes(a, b, c).3 == 0
    ensures b == 0 && c == 0 ==> Sixes(a, b, c).2 == 0
  {
    FirstBack(a, b);
    SecondBack(b, c);
  }

  function Packed(bytes: seq<Byte>): (s: seq<Six>)
    ensures |s| == |bytes| / 3 * 4 + if |bytes| % 3 == 0 then 0 else |bytes| % 3 + 1
  {
    if bytes == [] then []
    else
      var x := Sixes(bytes[0], if |bytes| > 1 then bytes[1] else 0, if |bytes| > 2 then bytes[2] else 0);
      if |bytes| == 1 then [x.0, x.1]
      else if |bytes| == 2 then [x.0, x.1, x.2]
      else [x.0, x.1, x.2, x.3] + Packed(bytes[3..])
  }

  /** Whatever bits are left over are dropped; one six alone holds no byte. */
  function Unpacked(s: seq<Six>): Option<seq<Byte>> {
    if s == [] then Some([])
    else if |s| == 1 then None
    else
      var x := Bytes3(s[0], s[1], if |s| > 2 then s[2] else 0, if |s| > 3 then s[3] else 0);
      if |s| == 2 then Some([x.0])
      else if |s| == 3 then Some([x.0, x.1])
      else match Unpacked(s[4..])
        case Some(rest) => Some([x.0, x.1, x.2] + rest)
        case None => None
  }

  lemma {:induction false} UnpacksBack(bytes: seq<Byte>)
    ensures Unpacked(Packed(bytes)) == Some(bytes)
  {
    if bytes != [] {
      var b, c := if |bytes| > 1 then bytes[1] else 0, if |bytes| > 2 then bytes[2] else 0;
      SixesBack(bytes[0], b, c);
      if |bytes| == 1 {
        assert bytes == [bytes[0]];
      } else if |bytes| == 2 {
        assert bytes == [bytes[0], bytes[1]];
      } else {
        UnpacksBack(bytes[3..]);
        assert Packed(bytes)[4..] == Packed(bytes[3..]);
        assert bytes == [bytes[0], bytes[1], bytes[2]] + bytes[3..];
      }
    }
  }

  // ── sixes and characters ───────────────────────────────────────────

  function CharOf(x: Six): char {
    if x < 26 then (('A' as int) + x) as char
    else if x < 52 then (('a' as int) + (x - 26)) as char
    else if x < 62 then (('0' as int) + (x - 52)) as char
    else if x == 62 then '+' else '/'
  }

  function SixOf(c: char): Option<Six> {
    if 'A' <= c <= 'Z' then Some((c as int) - ('A' as int))
    else if 'a' <= c <= 'z' then Some((c as int) - ('a' as int) + 26)
    else if '0' <= c <= '9' then Some((c as int) - ('0' as int) + 52)
    else if c == '+' then Some(62) else if c == '/' then Some(63) else None
  }

  predicate Space(c: char) { c == ' ' || c == '\t' || c == '\n' || c == '\r' || (c as int) == 12 }

  /** A character an encoding holds besides its padding. */
  predicate Letter(c: char) { (c as int) < 128 && c != '=' && !Space(c) }

  lemma CharBack(x: Six)
    ensures SixOf(CharOf(x)) == Some(x) && Letter(CharOf(x))
  {}

  function Write(s: seq<Six>): (r: string)
    ensures |r| == |s|
  {
    if s == [] then "" else Write(s[..|s| - 1]) + [CharOf(s[|s| - 1])]
  }

  function Read(s: string): Option<seq<Six>> {
    if s == "" then Some([])
    else
      match (Read(s[..|s| - 1]), SixOf(s[|s| - 1]))
      case (Some(front), Some(x)) => Some(front + [x])
      case _ => None
  }

  lemma {:induction false} ReadsBack(s: seq<Six>)
    ensures Read(Write(s)) == Some(s) && forall c | c in Write(s) :: Letter(c)
  {
    if s != [] {
      ReadsBack(s[..|s| - 1]);
      CharBack(s[|s| - 1]);
      assert Write(s)[..|s| - 1] == Write(s[..|s| - 1]);
      assert s == s[..|s| - 1] + [s[|s| - 1]];
    }
  }

  // ── the codec ──────────────────────────────────────────────────────

  function Padding(n: nat): string { if n % 3 == 1 then "==" else if n % 3 == 2 then "=" else "" }

  function Encode(bytes: seq<Byte>): (s: string)
    ensures |s| == (|bytes| + 2) / 3 * 4
  {
    Write(Packed(bytes)) + Padding(|bytes|)
  }

  function Unspaced(s: string): string {
    if s == "" then "" else Unspaced(s[..|s| - 1]) + if Space(s[|s| - 1]) then "" else [s[|s| - 1]]
  }

  /** Padding goes only where it fills up the last four. */
  function Unpadded(s: string): string {
    if |s| % 4 != 0 || s == "" || s[|s| - 1] != '=' then s
    else if s[|s| - 2] == '=' then s[..|s| - 2] else s[..|s| - 1]
  }

  function Decode(s: string): Option<seq<Byte>> {
    match Read(Unpadded(Unspaced(s))) case Some(x) => Unpacked(x) case None => None
  }

  lemma {:induction false} NothingToStrip(s: string)
    requires forall c | c in s :: !Space(c)
    ensures Unspaced(s) == s
  {
    if s != "" {
      NothingToStrip(s[..|s| - 1]);
      assert s == s[..|s| - 1] + [s[|s| - 1]];
    }
  }

  lemma PaddingGoes(text: string, pad: string)
    requires (forall c | c in text :: Letter(c)) && (pad == "" || pad == "=" || pad == "==")
    requires |text + pad| % 4 == 0 && (pad != "" ==> text != "")
    ensures Unpadded(text + pad) == text
  {
    var s := text + pad;
    if pad == "" {
      assert s == text;
      if text != "" { assert text[|text| - 1] in text; }
    } else if pad == "=" {
      assert s[|s| - 2] == text[|text| - 1] && text[|text| - 1] in text;
      assert s[..|s| - 1] == text;
    } else {
      assert s[..|s| - 2] == text;
    }
  }

  lemma EncodingIs(text: string, pad: string)
    requires (forall c | c in text :: Letter(c)) && (pad == "" || pad == "=" || pad == "==")
    requires |text + pad| % 4 == 0 && (pad != "" ==> text != "")
    ensures Unpadded(Unspaced(text + pad)) == text && forall c | c in text + pad :: (c as int) < 128
  {
    NothingToStrip(text + pad);
    PaddingGoes(text, pad);
  }

  lemma Filled(n: nat, length: nat)
    requires length == n / 3 * 4 + if n % 3 == 0 then 0 else n % 3 + 1
    ensures (length + |Padding(n)|) % 4 == 0 && (n % 3 != 0 ==> length > 0)
  {}

  lemma DecodeIs(s: string, text: string, x: seq<Six>, bytes: seq<Byte>)
    requires Unpadded(Unspaced(s)) == text && Read(text) == Some(x) && Unpacked(x) == Some(bytes)
    ensures Decode(s) == Some(bytes)
  {}

  /** Decoding takes encoding back, whatever the bytes; and an encoding is ASCII, a byte to a character. */
  lemma {:induction false} RoundTrip(bytes: seq<Byte>)
    ensures Decode(Encode(bytes)) == Some(bytes)
    ensures forall c | c in Encode(bytes) :: (c as int) < 128
  {
    var x := Packed(bytes);
    var text, pad := Write(x), Padding(|bytes|);
    UnpacksBack(bytes);
    ReadsBack(x);
    Filled(|bytes|, |x|);
    EncodingIs(text, pad);
    DecodeIs(text + pad, text, x, bytes);
  }
}
