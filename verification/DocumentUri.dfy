/** The URIs under which the language server knows documents (src/language_service.rs). */
module DocumentUri {
  import opened Common

  type Path = seq<byte>

  const HEX := "0123456789ABCDEF"

  predicate Unreserved(b: byte) {
    ('0' as int <= b <= '9' as int) || ('A' as int <= b <= 'Z' as int) || ('a' as int <= b <= 'z' as int)
    || b in {'-' as int, '.' as int, '_' as int, '~' as int, '/' as int}
  }

  /** One byte of a path: kept, or escaped in upper-case hexadecimal. */
  function EncodeByte(b: byte): string {
    if Unreserved(b) then [b as char] else ['%', HEX[b / 16], HEX[b % 16]]
  }

  function PercentEncode(bytes: Path): string {
    if bytes == [] then "" else PercentEncode(bytes[..|bytes| - 1]) + EncodeByte(bytes[|bytes| - 1])
  }

  /** Percent-encodes a path, keeping its slashes. */
  method Encode(bytes: Path) returns (result: string)
    ensures result == PercentEncode(bytes)
  {
    result := "";
    for i := 0 to |bytes|
      invariant result == PercentEncode(bytes[..i])
    {
      var b := bytes[i];
      if Unreserved(b) {
        result := result + [b as char];
      } else {
        result := result + ['%'] + [HEX[b / 16]] + [HEX[b % 16]];
      }
      assert bytes[..i + 1][..i] == bytes[..i];
    }
    assert bytes[..|bytes|] == bytes;
  }

  function Uri(root: string, path: Path): string {
    root + "/" + PercentEncode(path)
  }

  /** How many bytes of a path are escaped. */
  function Escaped(path: Path): nat {
    if path == [] then 0
    else Escaped(path[..|path| - 1]) + (if Unreserved(path[|path| - 1]) then 0 else 1)
  }

  /** Only bytes that are not unreserved take more than their one character, and a path without any is kept. */
  lemma {:induction false} EncodedLength(path: Path)
    ensures |PercentEncode(path)| == |path| + 2 * Escaped(path)
    ensures (forall i | 0 <= i < |path| :: Unreserved(path[i])) ==>
              PercentEncode(path) == seq(|path|, i requires 0 <= i < |path| => path[i] as char)
  {
    if path != [] {
      EncodedLength(path[..|path| - 1]);
    }
  }

  /** A character that may stand in a URI path: an unreserved one, or the sign of an escape. */
  predicate IsPlain(c: char) {
    c == '%' || (c as int < 256 && Unreserved(c as int))
  }

  /** Every character of an encoded path is unreserved or belongs to an escape. */
  lemma {:induction false} EncodedPlain(path: Path)
    ensures forall i | 0 <= i < |PercentEncode(path)| :: IsPlain(PercentEncode(path)[i])
  {
    if path != [] {
      EncodedPlain(path[..|path| - 1]);
      HexPlain(path[|path| - 1] / 16);
      HexPlain(path[|path| - 1] % 16);
    }
  }

  lemma {:induction false} HexPlain(n: nat)
    requires n < 16
    ensures IsPlain(HEX[n])
  {
  }

  // ----- Reading an encoded path -----

  function HexValue(c: char): Option<nat> {
    if '0' <= c <= '9' then Some(c as int - '0' as int)
    else if 'A' <= c <= 'F' then Some(c as int - 'A' as int + 10)
    else None
  }

  /** Reads one byte off the front, with the number of characters it took. */
  function DecodeByte(text: string): (r: Option<(byte, nat)>)
    requires text != []
    ensures r.Some? ==> 1 <= r.value.1 <= |text|
  {
    if text[0] != '%' then
      if text[0] as int < 256 then Some((text[0] as int, 1)) else None
    else if |text| < 3 || HexValue(text[1]).None? || HexValue(text[2]).None? then None
    else Some((16 * HexValue(text[1]).value + HexValue(text[2]).value, 3))
  }

  function Decode(text: string): (r: Option<Path>)
    decreases |text|
  {
    if text == [] then Some([])
    else match DecodeByte(text)
      case None => None
      case Some((b, used)) =>
        match Decode(text[used..])
        case None => None
        case Some(rest) => Some([b] + rest)
  }

  lemma {:induction false} HexDigit(n: nat)
    requires n < 16
    ensures HexValue(HEX[n]) == Some(n)
  {
  }

  lemma {:induction false} DecodesByte(b: byte, rest: string)
    ensures DecodeByte(EncodeByte(b) + rest) == Some((b, |EncodeByte(b)|))
    ensures (EncodeByte(b) + rest)[|EncodeByte(b)|..] == rest
  {
    HexDigit(b / 16);
    HexDigit(b % 16);
  }

  /** Reading on past an encoded path reads the next byte. */
  lemma {:induction false} DecodeSnoc(text: string, b: byte)
    requires Decode(text).Some?
    ensures Decode(text + EncodeByte(b)) == Some(Decode(text).value + [b])
    decreases |text|
  {
    if text == [] {
      DecodesByte(b, []);
      var e := EncodeByte(b);
      assert text + e == e && e + [] == e && e[|e|..] == [];
      assert Decode(e[|e|..]) == Some([]);
      assert Decode(text).value + [b] == [b] + [];
    } else {
      var (head, used) := DecodeByte(text).value;
      var rest := text[used..];
      DecodeSnoc(rest, b);
      DecodeByteStays(text, EncodeByte(b));
      assert [head] + (Decode(rest).value + [b]) == [head] + Decode(rest).value + [b];
    }
  }

  lemma {:induction false} DecodeByteStays(text: string, more: string)
    requires text != [] && DecodeByte(text).Some?
    ensures DecodeByte(text + more) == DecodeByte(text)
    ensures (text + more)[DecodeByte(text).value.1..] == text[DecodeByte(text).value.1..] + more
  {
    assert forall i | 0 <= i < |text| :: (text + more)[i] == text[i];
    var used := DecodeByte(text).value.1;
    assert (text + more)[used..] == text[used..] + more;
  }

  /** Reading an encoded path gives the path back. */
  lemma {:induction false} DecodeEncode(path: Path)
    ensures Decode(PercentEncode(path)) == Some(path)
  {
    if path != [] {
      DecodeEncode(path[..|path| - 1]);
      DecodeSnoc(PercentEncode(path[..|path| - 1]), path[|path| - 1]);
      assert path == path[..|path| - 1] + [path[|path| - 1]];
    }
  }

  /** Different paths have different URIs. */
  lemma {:induction false} UriInjective(root: string, a: Path, b: Path)
    requires Uri(root, a) == Uri(root, b)
    ensures a == b
  {
    assert Uri(root, a)[|root + "/"|..] == PercentEncode(a);
    assert Uri(root, b)[|root + "/"|..] == PercentEncode(b);
    DecodeEncode(a);
    DecodeEncode(b);
  }
}
