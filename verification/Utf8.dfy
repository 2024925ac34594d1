/** Well-formed UTF-8 byte sequences (table 3-7 of the Unicode Standard). */
module Utf8 {
  import opened Common

  predicate Continuation(b: byte) {
    0x80 <= b <= 0xBF
  }

  /** The bytes the first scalar of `s` takes, or 0 when `s` does not start with one. */
  function ScalarLength(s: seq<byte>): (n: nat)
    ensures n <= 4 && n <= |s|
  {
    if s == [] then 0
    else if s[0] <= 0x7F then 1
    else if 0xC2 <= s[0] <= 0xDF then
      if |s| >= 2 && Continuation(s[1]) then 2 else 0
    else if 0xE0 <= s[0] <= 0xEF then
      if |s| >= 3 && Continuation(s[1]) && Continuation(s[2])
         && (s[0] == 0xE0 ==> s[1] >= 0xA0) && (s[0] == 0xED ==> s[1] <= 0x9F)
      then 3 else 0
    else if 0xF0 <= s[0] <= 0xF4 then
      if |s| >= 4 && Continuation(s[1]) && Continuation(s[2]) && Continuation(s[3])
         && (s[0] == 0xF0 ==> s[1] >= 0x90) && (s[0] == 0xF4 ==> s[1] <= 0x8F)
      then 4 else 0
    else 0
  }

  predicate Valid(s: seq<byte>)
    decreases |s|
  {
    s == [] || (ScalarLength(s) > 0 && Valid(s[ScalarLength(s)..]))
  }

  // ----- What the valid sequences are -----

  /** A Unicode scalar value. */
  type Scalar = c: int | 0 <= c <= 0x10FFFF && !(0xD800 <= c <= 0xDFFF)

  /** The bytes of a scalar (table 3-6 of the Unicode Standard). */
  function EncodedScalar(c: Scalar): (s: seq<byte>)
    ensures s != []
  {
    if c < 0x80 then [c]
    else if c < 0x800 then [0xC0 + c / 64, 0x80 + c % 64]
    else if c < 0x1_0000 then [0xE0 + c / 4096, 0x80 + c / 64 % 64, 0x80 + c % 64]
    else [0xF0 + c / 262144, 0x80 + c / 4096 % 64, 0x80 + c / 64 % 64, 0x80 + c % 64]
  }

  function Encoded(scalars: seq<Scalar>): seq<byte> {
    if scalars == [] then [] else EncodedScalar(scalars[0]) + Encoded(scalars[1..])
  }

  lemma {:induction false} ScalarStarts(c: Scalar, first: seq<byte>)
    requires first == EncodedScalar(c)
    ensures ScalarLength(first) == |first|
  {
    if 0x800 <= c < 0x1_0000 {
      assert c / 64 / 64 == c / 4096;
    } else if 0x1_0000 <= c {
      assert c / 4096 / 64 == c / 262144;
    }
  }

  /** Only the bytes of the scalar matter. */
  lemma {:induction false} LengthOf(first: seq<byte>, s: seq<byte>)
    requires first != [] && ScalarLength(first) == |first| && first <= s
    ensures ScalarLength(s) == |first|
  {
    assert s[0] == first[0] && forall i | 0 <= i < |first| :: s[i] == first[i];
  }

  /** A sequence that starts with a scalar's bytes starts with exactly these. */
  lemma {:induction false} EncodedScalarStarts(c: Scalar, rest: seq<byte>)
    ensures ScalarLength(EncodedScalar(c) + rest) == |EncodedScalar(c)|
  {
    var first := EncodedScalar(c);
    ScalarStarts(c, first);
    LengthOf(first, first + rest);
  }

  lemma {:induction false} Joined(high: int, low: int)
    requires 0 <= high && 0 <= low < 64
    ensures (high * 64 + low) / 64 == high && (high * 64 + low) % 64 == low
  {
  }

  lemma {:induction false} Shifted(c: int)
    requires 0 <= c
    ensures c / 64 / 64 == c / 4096 && c / 4096 / 64 == c / 262144
  {
  }

  lemma {:induction false} TwoBytes(s: seq<byte>, lead: int, last: int) returns (c: Scalar)
    requires ScalarLength(s) == 2 && lead == s[0] - 0xC0 && last == s[1] - 0x80
    ensures EncodedScalar(c) == s[..2]
  {
    Joined(lead, last);
    c := lead * 64 + last;
  }

  lemma {:induction false} ThreeBytes(s: seq<byte>, lead: int, next: int, last: int) returns (c: Scalar)
    requires ScalarLength(s) == 3 && lead == s[0] - 0xE0 && next == s[1] - 0x80 && last == s[2] - 0x80
    ensures EncodedScalar(c) == s[..3]
  {
    var high := lead * 64 + next;
    Joined(lead, next);
    Joined(high, last);
    Shifted(high * 64 + last);
    c := high * 64 + last;
  }

  lemma {:induction false} FourBytes(s: seq<byte>, lead: int, next: int, third: int, last: int) returns (c: Scalar)
    requires ScalarLength(s) == 4 && lead == s[0] - 0xF0 && next == s[1] - 0x80
    requires third == s[2] - 0x80 && last == s[3] - 0x80
    ensures EncodedScalar(c) == s[..4]
  {
    var high := lead * 64 + next;
    var higher := high * 64 + third;
    Joined(lead, next);
    Joined(high, third);
    Joined(higher, last);
    Shifted(higher * 64 + last);
    c := higher * 64 + last;
  }

  /** The scalar whose bytes a sequence starts with. */
  lemma {:induction false} ScalarOf(s: seq<byte>) returns (c: Scalar)
    requires ScalarLength(s) > 0
    ensures EncodedScalar(c) == s[..ScalarLength(s)]
  {
    if ScalarLength(s) == 1 {
      c := s[0];
    } else if ScalarLength(s) == 2 {
      c := TwoBytes(s, s[0] - 0xC0, s[1] - 0x80);
    } else if ScalarLength(s) == 3 {
      c := ThreeBytes(s, s[0] - 0xE0, s[1] - 0x80, s[2] - 0x80);
    } else {
      c := FourBytes(s, s[0] - 0xF0, s[1] - 0x80, s[2] - 0x80, s[3] - 0x80);
    }
  }

  lemma {:induction false} EncodedValid(scalars: seq<Scalar>)
    ensures Valid(Encoded(scalars))
    decreases |scalars|
  {
    if scalars != [] {
      var rest := Encoded(scalars[1..]);
      EncodedScalarStarts(scalars[0], rest);
      EncodedValid(scalars[1..]);
      assert (EncodedScalar(scalars[0]) + rest)[|EncodedScalar(scalars[0])|..] == rest;
    }
  }

  lemma {:induction false} EncodedCons(first: Scalar, rest: seq<Scalar>)
    ensures Encoded([first] + rest) == EncodedScalar(first) + Encoded(rest)
  {
    assert ([first] + rest)[1..] == rest;
  }

  lemma {:induction false} ScalarsOf(s: seq<byte>) returns (scalars: seq<Scalar>)
    requires Valid(s)
    ensures Encoded(scalars) == s
    decreases |s|
  {
    scalars := [];
    if s != [] {
      var first := ScalarOf(s);
      var rest := ScalarsOf(s[ScalarLength(s)..]);
      scalars := [first] + rest;
      EncodedCons(first, rest);
    }
  }

  /** The valid sequences are exactly the encodings of scalars. */
  lemma {:induction false} ValidExactly(s: seq<byte>)
    ensures Valid(s) <==> exists scalars :: Encoded(scalars) == s
  {
    if Valid(s) {
      var scalars := ScalarsOf(s);
    }
    forall scalars | Encoded(scalars) == s
      ensures Valid(s)
    {
      EncodedValid(scalars);
    }
  }
}
