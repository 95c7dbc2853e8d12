/** Searching text, and decimal numbers as text. */
module Text {
  import opened Wrappers

  /** The first position of `c`, or the length when there is none. */
  function Find(s: string, c: char): (i: nat)
    ensures i <= |s| && c !in s[..i] && (i < |s| ==> s[i] == c)
  {
    if s == "" || s[0] == c then 0
    else
      assert forall k :: 0 <= k <= |s[1..]| ==> s[..k + 1] == [s[0]] + s[1..][..k];
      1 + Find(s[1..], c)
  }

  lemma FindIn(head: string, c: char, tail: string)
    requires c !in head
    ensures Find(head + [c] + tail, c) == |head|
  {
    var s := head + [c] + tail;
    assert s[|head|] == c && forall k :: 0 <= k < |head| ==> s[k] == head[k];
  }

  lemma FindNone(s: string, c: char)
    requires c !in s
    ensures Find(s, c) == |s|
  {
  }

  /** The last position of `c`, or None. */
  function FindLast(s: string, c: char): (r: Option<nat>)
    ensures r.Some? ==> r.value < |s| && s[r.value] == c && forall k :: r.value < k < |s| ==> s[k] != c
    ensures r.None? ==> c !in s
  {
    if s == "" then None
    else if s[|s| - 1] == c then Some(|s| - 1)
    else
      FindLast(s[..|s| - 1], c)
  }

  lemma FindLastAt(s: string, c: char, i: nat)
    requires i < |s| && s[i] == c && forall k :: i < k < |s| ==> s[k] != c
    ensures FindLast(s, c) == Some(i)
  {
    hide FindLast;
  }

  lemma LastIn(head: string, c: char, tail: string)
    requires c !in tail
    ensures var s := head + [c] + tail;
      s[|head|] == c && forall k :: |head| < k < |s| ==> s[k] != c
  {
    var s := head + [c] + tail;
    forall k | |head| < k < |s| ensures s[k] != c {
      assert s[k] == tail[k - |head| - 1];
    }
  }

  lemma FindLastIn(head: string, c: char, tail: string)
    requires c !in tail
    ensures FindLast(head + [c] + tail, c) == Some(|head|)
  {
    hide FindLast;
    LastIn(head, c, tail);
    FindLastAt(head + [c] + tail, c, |head|);
  }

  // ---------------------------------------------------------------- decimal

  predicate IsDigit(c: char) { '0' <= c <= '9' }

  predicate AllDigits(s: string) { forall i :: 0 <= i < |s| ==> IsDigit(s[i]) }

  function Digit(n: nat): (c: char)
    requires n < 10
    ensures IsDigit(c) && c as int - '0' as int == n
  {
    "0123456789"[n]
  }

  function Value(s: string): nat
    requires AllDigits(s)
  {
    if s == "" then 0 else Value(s[..|s| - 1]) * 10 + (s[|s| - 1] as int - '0' as int)
  }

  function Print(n: nat): (s: string)
    ensures s != "" && AllDigits(s)
  {
    if n < 10 then [Digit(n)] else Print(n / 10) + [Digit(n % 10)]
  }

  lemma {:induction false} ValueOfPrint(n: nat)
    ensures Value(Print(n)) == n
  {
    if n >= 10 {
      ValueOfPrint(n / 10);
      assert Print(n)[..|Print(n)| - 1] == Print(n / 10);
    }
  }

  function Pow10(width: nat): (p: nat)
    ensures p > 0
  {
    if width == 0 then 1 else 10 * Pow10(width - 1)
  }

  /** The last `width` digits of `n`. */
  function Padded(n: nat, width: nat): (s: string)
    ensures |s| == width && AllDigits(s)
  {
    if width == 0 then "" else Padded(n / 10, width - 1) + [Digit(n % 10)]
  }

  lemma {:induction false} ValueOfPadded(n: nat, width: nat)
    requires n < Pow10(width)
    ensures Value(Padded(n, width)) == n
  {
    if width > 0 {
      ValueOfPadded(n / 10, width - 1);
      assert Padded(n, width)[..width - 1] == Padded(n / 10, width - 1);
    }
  }

  /** Decimal text: each further digit multiplies by ten. */
  lemma DecimalText(n: nat, d: nat)
    requires n > 0 && d < 10
    ensures Print(d) == ["0123456789"[d]] && Print(10 * n + d) == Print(n) + Print(d)
  {
    Tens(n, d);
    LastDigit(10 * n + d);
    assert Print(d) == [Digit(d)];
  }

  lemma LastDigit(n: nat)
    requires n >= 10
    ensures Print(n) == Print(n / 10) + [Digit(n % 10)]
  {
  }

  lemma Tens(n: nat, d: nat)
    requires d < 10
    ensures (10 * n + d) / 10 == n && (10 * n + d) % 10 == d
  {
  }
}
