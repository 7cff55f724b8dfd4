/**
 UTF-16 code units of a string. A Dafny `char` is a Unicode scalar value, so a
 string is a sequence of scalars and its UTF-16 form is computed here
 (section 2.1 of RFC 2781).
 */
module Utf16 {

  type CodeUnit = u: int | 0 <= u < 0x1_0000

  const REPLACEMENT: char := '\U{FFFD}'

  /** The number of code units one scalar takes. */
  function RuneLen(c: char): nat {
    if c as int < 0x1_0000 then 1 else 2
  }

  /** The length of a string in code units, scalar by scalar. */
  function Units(s: string): nat {
    if s == [] then 0 else RuneLen(s[0]) + Units(s[1..])
  }

  function EncodeRune(c: char): seq<CodeUnit> {
    var r := c as int;
    if r < 0x1_0000 then [r]
    else [0xD800 + (r - 0x1_0000) / 0x400, 0xDC00 + (r - 0x1_0000) % 0x400]
  }

  function Encode(s: string): seq<CodeUnit> {
    if s == [] then [] else EncodeRune(s[0]) + Encode(s[1..])
  }

  predicate High(u: CodeUnit) { 0xD800 <= u < 0xDC00 }

  predicate Low(u: CodeUnit) { 0xDC00 <= u < 0xE000 }

  function Join(high: CodeUnit, low: CodeUnit): char
    requires High(high) && Low(low)
  {
    (0x1_0000 + (high - 0xD800) * 0x400 + (low - 0xDC00)) as char
  }

  /** Decoding: an unpaired surrogate becomes the replacement character. */
  function Decode(u: seq<CodeUnit>): string {
    if u == [] then []
    else if High(u[0]) then
      if |u| > 1 && Low(u[1]) then [Join(u[0], u[1])] + Decode(u[2..])
      else [REPLACEMENT] + Decode(u[1..])
    else if Low(u[0]) then [REPLACEMENT] + Decode(u[1..])
    else [u[0] as char] + Decode(u[1..])
  }

  /** The loop of UTF16Len: it accumulates rune lengths from the front. */
  method UTF16Len(s: string) returns (n: nat)
    ensures n == |Encode(s)|
  {
    n := 0;
    for i := 0 to |s|
      invariant n == Units(s[..i])
    {
      assert s[..i + 1] == s[..i] + [s[i]];
      UnitsConcat(s[..i], [s[i]]);
      n := n + RuneLen(s[i]);
    }
    assert s[..|s|] == s;
    EncodeLength(s);
  }

  lemma {:induction false} UnitsConcat(a: string, b: string)
    ensures Units(a + b) == Units(a) + Units(b)
  {
    if a == [] {
      assert a + b == b;
    } else {
      assert (a + b)[1..] == a[1..] + b;
      UnitsConcat(a[1..], b);
    }
  }

  lemma {:induction false} EncodeLength(s: string)
    ensures |Encode(s)| == Units(s)
  {
    if s != [] {
      EncodeLength(s[1..]);
    }
  }

  lemma {:induction false} EncodeConcat(a: string, b: string)
    ensures Encode(a + b) == Encode(a) + Encode(b)
  {
    if a == [] {
      assert a + b == b;
    } else {
      assert (a + b)[1..] == a[1..] + b;
      EncodeConcat(a[1..], b);
    }
  }

  lemma DecodeRune(c: char, rest: seq<CodeUnit>)
    ensures Decode(EncodeRune(c) + rest) == [c] + Decode(rest)
  {
    var e := EncodeRune(c);
    var u := e + rest;
    if |e| == 1 {
      assert u[1..] == rest;
    } else {
      assert u[2..] == rest;
      assert Join(e[0], e[1]) == c;
    }
  }

  /** Decoding what was encoded gives the string back. */
  lemma {:induction false} DecodeEncode(s: string)
    ensures Decode(Encode(s)) == s
  {
    if s != [] {
      DecodeRune(s[0], Encode(s[1..]));
      DecodeEncode(s[1..]);
    }
  }

  /** Decoding keeps the length in code units, also of malformed input. */
  lemma {:induction false} UnitsDecode(u: seq<CodeUnit>)
    ensures Units(Decode(u)) == |u|
  {
    if u == [] {
    } else if High(u[0]) && |u| > 1 && Low(u[1]) {
      UnitsDecode(u[2..]);
      assert Decode(u)[1..] == Decode(u[2..]);
    } else {
      UnitsDecode(u[1..]);
      assert Decode(u)[1..] == Decode(u[1..]);
    }
  }

  /** The scalars of `s` that lie wholly before unit offset `k`. */
  function Whole(s: string, k: nat): (i: nat)
    ensures i <= |s| && Units(s[..i]) <= k
    ensures i < |s| ==> k < Units(s[..i + 1])
  {
    if s == [] || k < RuneLen(s[0]) then 0
    else
      var i := 1 + Whole(s[1..], k - RuneLen(s[0]));
      assert s[..i][1..] == s[1..][..i - 1];
      assert i < |s| ==> s[..i + 1][1..] == s[1..][..i];
      i
  }

  /** Whether offset `k` falls between two scalars of `s`. */
  predicate Aligned(s: string, k: nat) {
    Units(s[..Whole(s, k)]) == k
  }

  lemma EncodeSplit(s: string, i: nat)
    requires i <= |s|
    ensures Encode(s) == Encode(s[..i]) + Encode(s[i..])
    ensures |Encode(s[..i])| == Units(s[..i])
  {
    assert s == s[..i] + s[i..];
    EncodeConcat(s[..i], s[i..]);
    EncodeLength(s[..i]);
  }

  lemma UnitsStep(s: string, i: nat)
    requires i < |s|
    ensures Units(s[..i + 1]) == Units(s[..i]) + RuneLen(s[i])
  {
    assert s[..i + 1] == s[..i] + [s[i]];
    UnitsConcat(s[..i], [s[i]]);
  }

  /**
   What is left of a string cut at any unit offset: exactly its remaining scalars
   if and only if the offset does not split a surrogate pair; a split pair leaves
   a replacement character in its place.
   */
  lemma CutTail(s: string, k: nat)
    requires k <= |Encode(s)|
    ensures Aligned(s, k) ==> Decode(Encode(s)[k..]) == s[Whole(s, k)..]
    ensures !Aligned(s, k) ==>
              && Whole(s, k) < |s|
              && Decode(Encode(s)[k..]) == [REPLACEMENT] + s[Whole(s, k) + 1..]
  {
    var i := Whole(s, k);
    EncodeSplit(s, i);
    EncodeLength(s);
    assert s[..|s|] == s;
    if Aligned(s, k) {
      assert Encode(s)[k..] == Encode(s[i..]);
      DecodeEncode(s[i..]);
    } else {
      SplitPair(s, i, k);
    }
  }

  lemma SplitPair(s: string, i: nat, k: nat)
    requires i < |s| && Units(s[..i]) < k < Units(s[..i + 1])
    requires k <= |Encode(s)|
    ensures Decode(Encode(s)[k..]) == [REPLACEMENT] + s[i + 1..]
  {
    UnitsStep(s, i);
    EncodeSplit(s, i);
    var low := EncodeRune(s[i])[1];
    var tail := Encode(s[i + 1..]);
    assert s[i..][1..] == s[i + 1..];
    assert Encode(s)[k..] == [low] + tail;
    DecodeEncode(s[i + 1..]);
    assert ([low] + tail)[1..] == tail;
  }

  lemma UnitsMonotone(s: string, i: nat, j: nat)
    requires i <= j <= |s|
    ensures Units(s[..i]) <= Units(s[..j])
    ensures i < j ==> Units(s[..i]) < Units(s[..j])
  {
    assert s[..j] == s[..i] + s[i..j];
    UnitsConcat(s[..i], s[i..j]);
  }

  /** A prefix ends on a scalar boundary. */
  lemma PrefixAligned(s: string, i: nat)
    requires i <= |s|
    ensures Whole(s, Units(s[..i])) == i && Aligned(s, Units(s[..i]))
  {
    var k := Units(s[..i]);
    var j := Whole(s, k);
    if j < i {
      UnitsMonotone(s, j + 1, i);
    } else if i < j {
      UnitsMonotone(s, i, j);
    }
  }
}
