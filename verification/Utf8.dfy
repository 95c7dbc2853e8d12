/**
 UTF-8 as the runner's strings use it: encoding of scalar values (section 3 of RFC 3629), and
 decoding of arbitrary bytes with one U+FFFD for each maximal subpart that is not well formed
 (section 3.9 of the Unicode Standard).
 */
module Utf8 {
  type Byte = b: int | 0 <= b < 256
  type Scalar = c: int | 0 <= c < 0xD800 || 0xE000 <= c < 0x110000

  const REPLACEMENT: Scalar := 0xFFFD

  // ---------------------------------------------------------------- encoding

  function Size(c: Scalar): (n: nat)
    ensures 1 <= n <= 4
  {
    if c < 0x80 then 1 else if c < 0x800 then 2 else if c < 0x10000 then 3 else 4
  }

  function EncodeOne(c: Scalar): (b: seq<Byte>)
    ensures |b| == Size(c)
  {
    if c < 0x80 then [c]
    else if c < 0x800 then [0xC0 + c / 64, 0x80 + c % 64]
    else if c < 0x10000 then [0xE0 + c / 4096, 0x80 + c / 64 % 64, 0x80 + c % 64]
    else [0xF0 + c / 262144, 0x80 + c / 4096 % 64, 0x80 + c / 64 % 64, 0x80 + c % 64]
  }

  function Encode(s: seq<Scalar>): seq<Byte> {
    if s == [] then [] else EncodeOne(s[0]) + Encode(s[1..])
  }

  // ---------------------------------------------------------------- decoding

  /** How long a well-formed sequence with this first byte is; zero if there is none. */
  function Length(lead: Byte): (n: nat)
    ensures n <= 4
  {
    if lead < 0x80 then 1
    else if 0xC2 <= lead < 0xE0 then 2
    else if 0xE0 <= lead < 0xF0 then 3
    else if 0xF0 <= lead < 0xF5 then 4
    else 0
  }

  predicate Continues(b: Byte) { 0x80 <= b < 0xC0 }

  /** Which byte may stand at position `i` of a sequence that begins with `lead`. */
  predicate Follows(lead: Byte, i: nat, b: Byte) {
    Continues(b) &&
    (i == 1 ==>
      && (lead == 0xE0 ==> 0xA0 <= b) && (lead == 0xED ==> b < 0xA0)
      && (lead == 0xF0 ==> 0x90 <= b) && (lead == 0xF4 ==> b < 0x90))
  }

  /** The end of the longest start of `s`, from `i` on, that a well-formed sequence may begin with. */
  function Extent(s: seq<Byte>, i: nat): (n: nat)
    requires 1 <= i <= |s| && i <= Length(s[0])
    ensures i <= n <= |s| && n <= Length(s[0])
    decreases |s| - i
  {
    if i == Length(s[0]) || i == |s| || !Follows(s[0], i, s[i]) then i else Extent(s, i + 1)
  }

  /** How many bytes the first unit of a nonempty input takes. */
  function Unit(s: seq<Byte>): (n: nat)
    requires s != []
    ensures 1 <= n <= |s|
  {
    if Length(s[0]) == 0 then 1 else Extent(s, 1)
  }

  /** The input begins with a well-formed sequence. */
  predicate Complete(s: seq<Byte>)
    requires s != []
  {
    0 < Length(s[0]) <= |s| && forall k :: 1 <= k < Length(s[0]) ==> Follows(s[0], k, s[k])
  }

  /** The payload of a continuation byte. */
  function Low(b: Byte): int { b as int - 0x80 }

  function Combine(s: seq<Byte>): Scalar
    requires s != [] && Complete(s)
  {
    var lead := s[0] as int;
    if Length(s[0]) == 1 then lead
    else
      assert Follows(s[0], 1, s[1]);
      if Length(s[0]) == 2 then (lead - 0xC0) * 64 + Low(s[1])
      else
        assert Follows(s[0], 2, s[2]);
        if Length(s[0]) == 3 then (lead - 0xE0) * 4096 + Low(s[1]) * 64 + Low(s[2])
        else
          assert Follows(s[0], 3, s[3]);
          (lead - 0xF0) * 262144 + Low(s[1]) * 4096 + Low(s[2]) * 64 + Low(s[3])
  }

  function First(s: seq<Byte>): Scalar
    requires s != []
  {
    if Complete(s) then Combine(s) else REPLACEMENT
  }

  function Decode(s: seq<Byte>): seq<Scalar> {
    if s == [] then [] else [First(s)] + Decode(s[Unit(s)..])
  }

  // ---------------------------------------------------------------- units

  lemma {:induction false} ExtentMeaning(s: seq<Byte>, i: nat)
    requires 1 <= i <= |s| && i <= Length(s[0])
    ensures forall k :: i <= k < Extent(s, i) ==> Follows(s[0], k, s[k])
    ensures Extent(s, i) < Length(s[0]) && Extent(s, i) < |s| ==> !Follows(s[0], Extent(s, i), s[Extent(s, i)])
    decreases |s| - i
  {
    if !(i == Length(s[0]) || i == |s| || !Follows(s[0], i, s[i])) { ExtentMeaning(s, i + 1); }
  }

  /** A unit is a whole well-formed sequence exactly when the input begins with one. */
  lemma UnitOfComplete(s: seq<Byte>)
    requires s != []
    ensures Complete(s) <==> Length(s[0]) > 0 && Unit(s) == Length(s[0])
  {
    if Length(s[0]) > 0 { ExtentMeaning(s, 1); }
  }

  /** Cutting the input after or inside its first unit: the unit stays, or becomes what is left of it. */
  lemma {:induction false} ExtentOfCut(a: seq<Byte>, b: seq<Byte>, i: nat)
    requires 1 <= i <= |a| && i <= Length(a[0])
    ensures Extent(a, i) == if Extent(a + b, i) <= |a| then Extent(a + b, i) else |a|
    decreases |a| - i
  {
    if i < |a| && i < Length(a[0]) && Follows(a[0], i, a[i]) { ExtentOfCut(a, b, i + 1); }
  }

  lemma UnitOfCut(a: seq<Byte>, b: seq<Byte>)
    requires a != []
    ensures Unit(a) == if Unit(a + b) <= |a| then Unit(a + b) else |a|
    ensures First(a) == if Unit(a + b) <= |a| then First(a + b) else REPLACEMENT
  {
    hide Extent;
    if Length(a[0]) > 0 { ExtentOfCut(a, b, 1); }
    UnitOfComplete(a);
    UnitOfComplete(a + b);
    if Complete(a + b) && Unit(a + b) <= |a| {
      assert forall k :: 0 <= k < Length(a[0]) ==> (a + b)[k] == a[k];
    }
  }

  // ---------------------------------------------------------------- encoding and decoding

  lemma EncodedIsComplete(c: Scalar, rest: seq<Byte>)
    ensures var s := EncodeOne(c) + rest;
      Complete(s) && Length(s[0]) == Size(c) && Combine(s) == c
  {
    hide Complete, Combine;
    var e, s := EncodeOne(c), EncodeOne(c) + rest;
    assert s[0] == e[0];
    EncodedFollows(c);
    CompleteWithRest(e, rest);
    EncodedCombines(c);
  }

  lemma CompleteWithRest(e: seq<Byte>, rest: seq<Byte>)
    requires e != [] && Complete(e)
    ensures Complete(e + rest) && Combine(e + rest) == Combine(e)
  {
    assert forall k :: 0 <= k < |e| ==> (e + rest)[k] == e[k];
  }

  lemma EncodedFollows(c: Scalar)
    ensures var e := EncodeOne(c);
      Length(e[0]) == Size(c) && Complete(e)
  {
  }

  lemma EncodedCombines(c: Scalar)
    requires Complete(EncodeOne(c))
    ensures Combine(EncodeOne(c)) == c
  {
    EncodedFollows(c);
    assert c / 64 / 64 == c / 4096 && c / 4096 / 64 == c / 262144;
  }

  lemma DecodeStep(c: Scalar, rest: seq<Byte>)
    ensures Decode(EncodeOne(c) + rest) == [c] + Decode(rest)
  {
    hide EncodeOne, Complete, Combine, Unit;
    var s := EncodeOne(c) + rest;
    EncodedIsComplete(c, rest);
    UnitOfComplete(s);
    assert s[Size(c)..] == rest;
  }

  /** Decoding undoes encoding, whatever follows. */
  lemma {:induction false} DecodeOfEncode(s: seq<Scalar>, rest: seq<Byte>)
    ensures Decode(Encode(s) + rest) == s + Decode(rest)
  {
    hide EncodeOne, Decode;
    if s == [] {
      assert Encode(s) + rest == rest;
    } else {
      DecodeOfEncode(s[1..], rest);
      DecodeStep(s[0], Encode(s[1..]) + rest);
      assert Encode(s) + rest == EncodeOne(s[0]) + (Encode(s[1..]) + rest);
    }
  }

  lemma {:induction false} EncodeConcat(a: seq<Scalar>, b: seq<Scalar>)
    ensures Encode(a + b) == Encode(a) + Encode(b)
  {
    hide EncodeOne;
    if a == [] {
      assert a + b == b;
    } else {
      EncodeConcat(a[1..], b);
      assert (a + b)[1..] == a[1..] + b;
    }
  }

  /** A character cut short decodes to a single replacement character. */
  lemma DecodeOfCutCharacter(c: Scalar, m: nat)
    requires 0 < m < Size(c)
    ensures Decode(EncodeOne(c)[..m]) == [REPLACEMENT]
  {
    hide EncodeOne, Complete, Combine, Unit;
    var a, b := EncodeOne(c)[..m], EncodeOne(c)[m..];
    assert a + b == EncodeOne(c) + [];
    EncodedIsComplete(c, []);
    UnitOfComplete(a + b);
    UnitOfCut(a, b);
    assert a[|a|..] == [];
  }

  // ---------------------------------------------------------------- against the definition

  /** The ranges and values of section 3 of RFC 3629. */
  lemma EncodingTable(c: Scalar)
    ensures var b := EncodeOne(c);
      && (c <= 0x7F <==> |b| == 1) && (0x80 <= c <= 0x7FF <==> |b| == 2)
      && (0x800 <= c <= 0xFFFF <==> |b| == 3) && (0x10000 <= c <==> |b| == 4)
      && (forall k :: 1 <= k < |b| ==> 0x80 <= b[k] <= 0xBF)
      && (|b| == 1 ==> b[0] == c)
      && (|b| == 2 ==> 0xC0 <= b[0] <= 0xDF && c == (b[0] as int - 0xC0) * 64 + (b[1] as int - 0x80))
      && (|b| == 3 ==> 0xE0 <= b[0] <= 0xEF)
      && (|b| == 3 ==> c == (b[0] as int - 0xE0) * 4096 + (b[1] as int - 0x80) * 64 + (b[2] as int - 0x80))
      && (|b| == 4 ==> 0xF0 <= b[0] <= 0xF7)
      && (|b| == 4 ==> c == (b[0] as int - 0xF0) * 262144 + (b[1] as int - 0x80) * 4096
                           + (b[2] as int - 0x80) * 64 + (b[3] as int - 0x80))
  {
    assert c / 64 / 64 == c / 4096 && c / 4096 / 64 == c / 262144;
  }

  /** Only encodings are read as characters: no overlong form, no surrogate, nothing beyond the last scalar. */
  lemma CompleteIsEncoded(s: seq<Byte>)
    requires s != [] && Complete(s)
    ensures EncodeOne(Combine(s)) == s[..Length(s[0])] <= s
  {
    var n, c := Length(s[0]), Combine(s);
    assert n <= |s|;
    hide Combine, Complete, EncodeOne;
    CombinedDigits(s);
    assert |EncodeOne(c)| == n && forall k :: 0 <= k < n ==> s[k] == EncodeOne(c)[k];
  }

  lemma CombinedDigits(s: seq<Byte>)
    requires s != [] && Complete(s)
    ensures Size(Combine(s)) == Length(s[0])
    ensures forall k :: 0 <= k < Length(s[0]) ==> s[k] == EncodeOne(Combine(s))[k]
  {
    match Length(s[0])
    case 1 =>
    case 2 => TwoDigits(s);
    case 3 => ThreeDigits(s);
    case _ => FourDigits(s);
  }

  lemma TwoDigits(s: seq<Byte>)
    requires s != [] && Complete(s) && Length(s[0]) == 2
    ensures Size(Combine(s)) == 2 && forall k :: 0 <= k < 2 ==> s[k] == EncodeOne(Combine(s))[k]
  {
    assert Follows(s[0], 1, s[1]);
    Digits(s[0] as int - 0xC0, Low(s[1]));
  }

  lemma ThreeDigits(s: seq<Byte>)
    requires s != [] && Complete(s) && Length(s[0]) == 3
    ensures Size(Combine(s)) == 3 && forall k :: 0 <= k < 3 ==> s[k] == EncodeOne(Combine(s))[k]
  {
    assert Follows(s[0], 1, s[1]) && Follows(s[0], 2, s[2]);
    Digits((s[0] as int - 0xE0) * 64 + Low(s[1]), Low(s[2]));
    Digits(s[0] as int - 0xE0, Low(s[1]));
    assert Combine(s) / 64 / 64 == Combine(s) / 4096;
  }

  lemma FourDigits(s: seq<Byte>)
    requires s != [] && Complete(s) && Length(s[0]) == 4
    ensures Size(Combine(s)) == 4 && forall k :: 0 <= k < 4 ==> s[k] == EncodeOne(Combine(s))[k]
  {
    assert Follows(s[0], 1, s[1]) && Follows(s[0], 2, s[2]) && Follows(s[0], 3, s[3]);
    var top := s[0] as int - 0xF0;
    Digits((top * 64 + Low(s[1])) * 64 + Low(s[2]), Low(s[3]));
    Digits(top * 64 + Low(s[1]), Low(s[2]));
    Digits(top, Low(s[1]));
    assert Combine(s) / 64 / 64 == Combine(s) / 4096 && Combine(s) / 4096 / 64 == Combine(s) / 262144;
  }

  lemma Digits(high: nat, low: nat)
    requires low < 64
    ensures (high * 64 + low) / 64 == high && (high * 64 + low) % 64 == low
  {
  }

  /** These bytes begin the encoding of some scalar value, or are one. */
  ghost predicate Begins(p: seq<Byte>) { exists c: Scalar :: p <= EncodeOne(c) }

  lemma BeginsExactly(p: seq<Byte>)
    requires p != []
    ensures Begins(p) <==> |p| <= Length(p[0]) && forall k :: 1 <= k < |p| ==> Follows(p[0], k, p[k])
  {
    if Begins(p) {
      var c: Scalar :| p <= EncodeOne(c);
      EncodedFollows(c);
    }
    if |p| <= Length(p[0]) && forall k :: 1 <= k < |p| ==> Follows(p[0], k, p[k]) {
      var s := Completed(p);
      CompleteIsEncoded(s);
      assert p <= EncodeOne(Combine(s));
    }
  }

  /** Some way to finish what `p` begins. */
  function Completed(p: seq<Byte>): (s: seq<Byte>)
    requires p != [] && |p| <= Length(p[0]) && forall k :: 1 <= k < |p| ==> Follows(p[0], k, p[k])
    ensures p <= s && |s| == Length(p[0]) && Complete(s)
    decreases Length(p[0]) - |p|
  {
    if |p| == Length(p[0]) then p
    else Completed(p + [if |p| > 1 then 0x80 else if p[0] == 0xE0 then 0xA0 else if p[0] == 0xF0 then 0x90 else 0x80])
  }

  /** The longest start of `s` that begins an encoding, or its first byte if none does. */
  ghost predicate MaximalSubpart(s: seq<Byte>, n: nat) {
    1 <= n <= |s| && (Begins(s[..n]) || n == 1) && forall k :: n < k <= |s| ==> !Begins(s[..k])
  }

  lemma UnitIsMaximal(s: seq<Byte>)
    requires s != []
    ensures MaximalSubpart(s, Unit(s))
  {
    hide Begins, Follows;
    var n := Unit(s);
    BeginsExactly(s[..n]);
    if Length(s[0]) > 0 { ExtentMeaning(s, 1); }
    forall k | n < k <= |s| ensures !Begins(s[..k]) {
      BeginsExactly(s[..k]);
      assert s[..k][n] == s[n];
    }
  }

  /**
   Decoding from its definition: an encoding gives its character, anything else one U+FFFD in place
   of the maximal subpart.
   */
  lemma DecodesAsDefined(s: seq<Byte>, n: nat)
    requires s != [] && MaximalSubpart(s, n)
    ensures forall c: Scalar :: EncodeOne(c) <= s ==> n == |EncodeOne(c)| && Decode(s) == [c] + Decode(s[n..])
    ensures (forall c: Scalar :: !(EncodeOne(c) <= s)) ==> Decode(s) == [0xFFFD] + Decode(s[n..])
  {
    hide EncodeOne, Complete, Combine, Unit, Begins;
    UnitIsMaximal(s);
    assert n == Unit(s);
    forall c: Scalar | EncodeOne(c) <= s ensures n == |EncodeOne(c)| && Decode(s) == [c] + Decode(s[n..]) {
      var e := EncodeOne(c);
      assert s == e + s[|e|..];
      EncodedIsComplete(c, s[|e|..]);
      UnitOfComplete(s);
    }
    if Complete(s) {
      CompleteIsEncoded(s);
    }
  }

  // ---------------------------------------------------------------- decoding in chunks

  /** Position `i` lies between two units. */
  predicate Between(s: seq<Byte>, i: nat)
    decreases |s|
  {
    i == 0 || (s != [] && Unit(s) <= i && Between(s[Unit(s)..], i - Unit(s)))
  }

  lemma {:induction false} DecodeStray(s: seq<Byte>, n: nat)
    requires n <= |s| && forall k :: 0 <= k < n ==> Continues(s[k])
    ensures |Decode(s)| == n + |Decode(s[n..])|
    decreases n
  {
    if n == 0 {
      assert s[n..] == s;
    } else {
      DecodeStray(s[1..], n - 1);
      assert s[1..][n - 1..] == s[n..];
      assert Length(s[0]) == 0;
    }
  }

  /**
   Decoding two chunks apart gives the decoding of the whole exactly when the split falls between
   two units; a split inside one always adds characters.
   */
  lemma {:induction false} DecodingChunksApart(a: seq<Byte>, b: seq<Byte>)
    ensures Between(a + b, |a|) ==> Decode(a) + Decode(b) == Decode(a + b)
    ensures !Between(a + b, |a|) ==> |Decode(a)| + |Decode(b)| > |Decode(a + b)|
    decreases |a|
  {
    hide First, Unit;
    if a == [] {
      assert a + b == b;
    } else {
      UnitOfCut(a, b);
      var n := Unit(a + b);
      if n <= |a| {
        DecodingChunksApart(a[n..], b);
        assert (a + b)[n..] == a[n..] + b;
      } else {
        InsideUnit(a, b);
      }
    }
  }

  lemma InsideUnit(a: seq<Byte>, b: seq<Byte>)
    requires a != [] && Unit(a + b) > |a|
    ensures |Decode(a)| + |Decode(b)| > |Decode(a + b)|
  {
    hide First, Unit, Continues;
    var s := a + b;
    var n := Unit(s);
    UnitOfCut(a, b);
    UnitContinues(s);
    forall k | 0 <= k < n - |a| ensures Continues(b[k]) { assert b[k] == s[|a| + k]; }
    DecodeStray(b, n - |a|);
    assert b[n - |a|..] == s[n..];
    assert a[|a|..] == [];
  }

  lemma UnitContinues(s: seq<Byte>)
    requires s != []
    ensures forall k :: 1 <= k < Unit(s) ==> Continues(s[k])
  {
    if Length(s[0]) > 0 { ExtentMeaning(s, 1); }
  }
}
