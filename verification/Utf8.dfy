/**
  The name validator of the component decoder (src/component_binary.c) accepts
  exactly the encodings of Unicode scalar values (section 3 of RFC 3629).
 */
module Utf8 {
  import opened Bytes

  predicate IsScalar(c: nat) {
    c <= 0x10ffff && !(0xd800 <= c <= 0xdfff)
  }

  type Scalar = c: nat | IsScalar(c)

  // ---------------------------------------------------------------- encoding

  function Encode(c: Scalar): (s: seq<Byte>)
    ensures 1 <= |s| <= 4
  {
    if c < 0x80 then [c]
    else if c < 0x800 then [0xc0 + c / 64, 0x80 + c % 64]
    else if c < 0x10000 then [0xe0 + c / 64 / 64, 0x80 + c / 64 % 64, 0x80 + c % 64]
    else
      assert IsScalar(c);
      var high: Byte := 0xf0 + c / 64 / 64 / 64;
      [high, 0x80 + c / 64 / 64 % 64, 0x80 + c / 64 % 64, 0x80 + c % 64]
  }

  function EncodeAll(cs: seq<Scalar>): (s: seq<Byte>) {
    if cs == [] then [] else Encode(cs[0]) + EncodeAll(cs[1..])
  }

  // ---------------------------------------------------------------- validation

  predicate Continuation(b: Byte) {
    0x80 <= b <= 0xbf
  }

  /** The length of the well-formed sequence that `s` starts with, or 0. */
  function Leading(s: seq<Byte>): (n: nat)
    requires s != []
    ensures n <= |s| && n <= 4
  {
    var a := s[0];
    if a < 0x80 then 1
    else if 0xc2 <= a <= 0xdf then (if |s| < 2 || !Continuation(s[1]) then 0 else 2)
    else if a == 0xe0 then (if |s| < 3 || s[1] < 0xa0 || s[1] > 0xbf || !Continuation(s[2]) then 0 else 3)
    else if 0xe1 <= a <= 0xec || 0xee <= a <= 0xef then
      (if |s| < 3 || !Continuation(s[1]) || !Continuation(s[2]) then 0 else 3)
    else if a == 0xed then (if |s| < 3 || s[1] < 0x80 || s[1] > 0x9f || !Continuation(s[2]) then 0 else 3)
    else if a == 0xf0 then
      (if |s| < 4 || s[1] < 0x90 || s[1] > 0xbf || !Continuation(s[2]) || !Continuation(s[3]) then 0 else 4)
    else if 0xf1 <= a <= 0xf3 then
      (if |s| < 4 || !Continuation(s[1]) || !Continuation(s[2]) || !Continuation(s[3]) then 0 else 4)
    else if a == 0xf4 then
      (if |s| < 4 || s[1] < 0x80 || s[1] > 0x8f || !Continuation(s[2]) || !Continuation(s[3]) then 0 else 4)
    else 0
  }

  predicate Accepts(s: seq<Byte>)
    decreases |s|
  {
    s == [] || (Leading(s) > 0 && Accepts(s[Leading(s)..]))
  }

  // ---------------------------------------------------------------- they agree

  /** The scalar value that a well-formed sequence encodes. */
  function Decode(s: seq<Byte>): (c: int)
    requires 1 <= |s| <= 4
  {
    var a: int := s[0];
    if |s| == 1 then a
    else
      var b: int := s[1];
      if |s| == 2 then (a - 0xc0) * 64 + (b - 0x80)
      else
        var d: int := s[2];
        if |s| == 3 then ((a - 0xe0) * 64 + (b - 0x80)) * 64 + (d - 0x80)
        else
          var e: int := s[3];
          (((a - 0xf0) * 64 + (b - 0x80)) * 64 + (d - 0x80)) * 64 + (e - 0x80)
  }

  predicate Decodes(s: seq<Byte>)
    requires 1 <= |s| <= 4
  {
    Decode(s) >= 0 && IsScalar(Decode(s)) && Encode(Decode(s)) == s
  }

  lemma {:induction false} DecodeOne(a: Byte)
    requires a < 0x80
    ensures Decodes([a])
  {
  }

  lemma {:induction false} DecodeTwo(a: Byte, b: Byte)
    requires 0xc2 <= a <= 0xdf && Continuation(b)
    ensures Decodes([a, b])
  {
    var c := Decode([a, b]);
    assert c / 64 == a - 0xc0 && c % 64 == b - 0x80;
  }

  lemma {:induction false} DecodeThree(a: Byte, b: Byte, d: Byte)
    requires 0xe0 <= a <= 0xef && Continuation(b) && Continuation(d) && (a == 0xe0 ==> b >= 0xa0)
    requires (a == 0xed ==> b <= 0x9f)
    ensures Decodes([a, b, d])
  {
    var c := Decode([a, b, d]);
    assert c / 64 == (a - 0xe0) * 64 + (b - 0x80) && c % 64 == d - 0x80;
    assert c / 64 / 64 == a - 0xe0 && c / 64 % 64 == b - 0x80;
  }

  lemma {:induction false} DecodeFour(a: Byte, b: Byte, d: Byte, e: Byte)
    requires 0xf0 <= a <= 0xf4 && Continuation(b) && Continuation(d) && Continuation(e) && (a == 0xf0 ==> b >= 0x90)
    requires (a == 0xf4 ==> b <= 0x8f)
    ensures Decodes([a, b, d, e])
  {
    var c := Decode([a, b, d, e]);
    assert c / 64 == ((a - 0xf0) * 64 + (b - 0x80)) * 64 + (d - 0x80) && c % 64 == e - 0x80;
    assert c / 64 / 64 == (a - 0xf0) * 64 + (b - 0x80) && c / 64 % 64 == d - 0x80;
    assert c / 64 / 64 / 64 == a - 0xf0 && c / 64 / 64 % 64 == b - 0x80;
  }

  /** What the validator steps over is the encoding of one scalar value. */
  lemma {:induction false} LeadingEncodes(s: seq<Byte>)
    requires s != [] && Leading(s) > 0
    ensures Decodes(s[..Leading(s)])
  {
    hide Decodes;
    var n := Leading(s);
    if n == 1 {
      assert s[..1] == [s[0]];
      DecodeOne(s[0]);
    } else if n == 2 {
      assert s[..2] == [s[0], s[1]];
      DecodeTwo(s[0], s[1]);
    } else if n == 3 {
      assert s[..3] == [s[0], s[1], s[2]];
      DecodeThree(s[0], s[1], s[2]);
    } else {
      assert s[..4] == [s[0], s[1], s[2], s[3]];
      DecodeFour(s[0], s[1], s[2], s[3]);
    }
  }

  /** The validator steps over every encoded scalar value, whatever follows. */
  lemma {:induction false} EncodedLeads(c: Scalar, rest: seq<Byte>)
    ensures Leading(Encode(c) + rest) == |Encode(c)|
  {
    hide Leading;
    assert IsScalar(c);
    if c < 0x80 {
      LeadingOne(Encode(c) + rest);
    } else if c < 0x800 {
      LeadingTwo(Encode(c) + rest);
    } else if c < 0x10000 {
      var r := c / 64;
      assert r == r / 64 * 64 + r % 64;
      LeadingThree(Encode(c) + rest);
    } else {
      var r := c / 64 / 64;
      assert r == r / 64 * 64 + r % 64;
      LeadingFour(Encode(c) + rest);
    }
  }

  lemma {:induction false} LeadingOne(s: seq<Byte>)
    requires |s| >= 1 && s[0] < 0x80
    ensures Leading(s) == 1
  {
  }

  lemma {:induction false} LeadingTwo(s: seq<Byte>)
    requires |s| >= 2 && 0xc2 <= s[0] <= 0xdf && Continuation(s[1])
    ensures Leading(s) == 2
  {
  }

  lemma {:induction false} LeadingThree(s: seq<Byte>)
    requires |s| >= 3 && 0xe0 <= s[0] <= 0xef && Continuation(s[1]) && Continuation(s[2])
    requires (s[0] == 0xe0 ==> s[1] >= 0xa0) && (s[0] == 0xed ==> s[1] <= 0x9f)
    ensures Leading(s) == 3
  {
  }

  lemma {:induction false} LeadingFour(s: seq<Byte>)
    requires |s| >= 4 && 0xf0 <= s[0] <= 0xf4 && Continuation(s[1]) && Continuation(s[2]) && Continuation(s[3])
    requires (s[0] == 0xf0 ==> s[1] >= 0x90) && (s[0] == 0xf4 ==> s[1] <= 0x8f)
    ensures Leading(s) == 4
  {
  }

  lemma {:induction false} EncodingAccepted(cs: seq<Scalar>)
    ensures Accepts(EncodeAll(cs))
  {
    hide Encode;
    if cs != [] {
      EncodingAccepted(cs[1..]);
      EncodedLeads(cs[0], EncodeAll(cs[1..]));
      var s := EncodeAll(cs);
      assert s[|Encode(cs[0])|..] == EncodeAll(cs[1..]);
    }
  }

  lemma {:induction false} AcceptedIsEncoding(s: seq<Byte>) returns (cs: seq<Scalar>)
    requires Accepts(s)
    ensures EncodeAll(cs) == s
    decreases |s|
  {
    if s == [] {
      cs := [];
    } else {
      var n := Leading(s);
      LeadingEncodes(s);
      var rest := AcceptedIsEncoding(s[n..]);
      cs := [Decode(s[..n])] + rest;
      assert s == s[..n] + s[n..];
      assert cs[1..] == rest;
    }
  }

  /** The accepted byte strings are exactly the encodings of scalar values. */
  lemma {:induction false} AcceptsExactly(s: seq<Byte>)
    ensures Accepts(s) <==> exists cs: seq<Scalar> :: EncodeAll(cs) == s
  {
    if Accepts(s) {
      var cs := AcceptedIsEncoding(s);
    }
    forall cs: seq<Scalar> | EncodeAll(cs) == s
      ensures Accepts(s)
    {
      EncodingAccepted(cs);
    }
  }

  // ---------------------------------------------------------------- the loop

  method Utf8Valid(bytes: seq<Byte>) returns (ok: bool)
    ensures ok <==> exists cs: seq<Scalar> :: EncodeAll(cs) == bytes
  {
    AcceptsExactly(bytes);
    var i := 0;
    while i < |bytes|
      invariant 0 <= i <= |bytes| && Accepts(bytes) == Accepts(bytes[i..])
    {
      ghost var s := bytes[i..];
      var n := 0;
      var a := bytes[i];
      if a < 0x80 {
        n := 1;
      } else if 0xc2 <= a <= 0xdf {
        if i + 1 < |bytes| && Continuation(bytes[i + 1]) {
          n := 2;
        }
      } else if 0xe0 <= a <= 0xef {
        var low, high := if a == 0xe0 then 0xa0 else 0x80, if a == 0xed then 0x9f else 0xbf;
        if i + 2 < |bytes| && low <= bytes[i + 1] <= high && Continuation(bytes[i + 2]) {
          n := 3;
        }
      } else if 0xf0 <= a <= 0xf4 {
        var low, high := if a == 0xf0 then 0x90 else 0x80, if a == 0xf4 then 0x8f else 0xbf;
        if i + 3 < |bytes| && low <= bytes[i + 1] <= high && Continuation(bytes[i + 2]) && Continuation(bytes[i + 3]) {
          n := 4;
        }
      }
      assert n == Leading(s);
      if n == 0 {
        return false;
      }
      assert s[n..] == bytes[i + n..];
      i := i + n;
    }
    return true;
  }
}
