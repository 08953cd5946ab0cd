/**
  The string library calls that the rest of the program is built on: substring search,
  single replacement and decimal printing, each with a contract that determines its result.
  A Go string is modelled as its sequence of characters.
 */
module Text {

  /** `sub` occurs in `s` at position `i`. */
  predicate At(s: string, sub: string, i: int) {
    0 <= i && i + |sub| <= |s| && s[i..i + |sub|] == sub
  }

  /** One differing character rules an occurrence out. */
  lemma NotAt(s: string, sub: string, i: int, k: nat)
    requires k < |sub|
    requires 0 <= i + k < |s| ==> s[i + k] != sub[k]
    ensures !At(s, sub, i)
  {
  }

  /** Reading a whole concatenation at the place where its middle part starts. */
  lemma AtMiddle(a: string, sub: string, b: string)
    ensures At(a + sub + b, sub, |a|)
  {
    assert (a + sub + b)[|a|..|a| + |sub|] == sub;
  }

  /** The first occurrence at or after `from`, or -1. */
  function IndexFrom(s: string, sub: string, from: nat): (i: int)
    requires from <= |s|
    ensures i == -1 || (from <= i && At(s, sub, i))
    ensures forall j :: from <= j && (i == -1 || j < i) ==> !At(s, sub, j)
    decreases |s| - from
  {
    if At(s, sub, from) then from
    else if from == |s| then -1
    else IndexFrom(s, sub, from + 1)
  }

  /** strings.Index: the first occurrence, or -1. */
  function Index(s: string, sub: string): (i: int)
    ensures i == -1 || At(s, sub, i)
    ensures forall j :: (i == -1 || j < i) ==> !At(s, sub, j)
  {
    IndexFrom(s, sub, 0)
  }

  lemma IndexIs(s: string, sub: string, i: int)
    requires At(s, sub, i)
    requires forall j :: 0 <= j < i ==> !At(s, sub, j)
    ensures Index(s, sub) == i
  {
    var k := Index(s, sub);
    assert k == -1 || At(s, sub, k);
  }

  /** The last occurrence starting before `before`, or -1. */
  function LastIndexBefore(s: string, sub: string, before: nat): (i: int)
    ensures i == -1 || (i < before && At(s, sub, i))
    ensures forall j :: i < j < before ==> !At(s, sub, j)
  {
    if before == 0 then -1
    else if At(s, sub, before - 1) then before - 1
    else LastIndexBefore(s, sub, before - 1)
  }

  function LastIndex(s: string, sub: string): (i: int)
    ensures i == -1 || At(s, sub, i)
    ensures forall j :: i < j ==> !At(s, sub, j)
  {
    LastIndexBefore(s, sub, |s| + 1)
  }

  lemma LastIndexIs(s: string, sub: string, i: int)
    requires sub != "" && At(s, sub, i)
    requires forall j :: i < j < |s| ==> !At(s, sub, j)
    ensures LastIndex(s, sub) == i
  {
    var k := LastIndex(s, sub);
    assert k == -1 || At(s, sub, k);
  }

  /** strings.Replace with a count of one. */
  function ReplaceFirst(s: string, old_: string, new_: string): string {
    var i := Index(s, old_);
    if i == -1 then s else s[..i] + new_ + s[i + |old_|..]
  }

  predicate HasSuffix(s: string, suffix: string) {
    |suffix| <= |s| && s[|s| - |suffix|..] == suffix
  }

  predicate HasPrefix(s: string, prefix: string) {
    |prefix| <= |s| && s[..|prefix|] == prefix
  }

  function Digit(d: nat): char
    requires d < 10
  {
    ('0' as int + d) as char
  }

  /** Decimal printing, as %d prints an unsigned number. */
  function Dec(n: nat): (s: string)
    ensures |s| > 0
    ensures forall i :: 0 <= i < |s| ==> '0' <= s[i] <= '9'
  {
    if n < 10 then [Digit(n)] else Dec(n / 10) + [Digit(n % 10)]
  }

  function Val(s: string): nat
    requires forall i :: 0 <= i < |s| ==> '0' <= s[i] <= '9'
  {
    if s == [] then 0 else 10 * Val(s[..|s| - 1]) + (s[|s| - 1] as int - '0' as int)
  }

  lemma {:induction false} ValDec(n: nat)
    ensures Val(Dec(n)) == n
  {
    if n < 10 {
      assert Dec(n)[..0] == [];
    } else {
      ValDec(n / 10);
      assert Dec(n)[..|Dec(n)| - 1] == Dec(n / 10);
    }
  }

  lemma DecSplit(n: nat)
    requires n >= 10
    ensures Dec(n) == Dec(n / 10) + [Digit(n % 10)]
    ensures Dec(n)[..|Dec(n)| - 1] == Dec(n / 10) && Dec(n)[|Dec(n)| - 1] == Digit(n % 10)
  {
  }

  lemma ValSplit(front: string, last: char)
    requires '0' <= last <= '9' && forall i :: 0 <= i < |front| ==> '0' <= front[i] <= '9'
    ensures Val(front + [last]) == 10 * Val(front) + (last as int - '0' as int)
  {
    var s := front + [last];
    assert s[..|s| - 1] == front && s[|s| - 1] == last;
  }

  lemma Digits(n: nat, tens: nat, last: char)
    requires '0' <= last <= '9'
    ensures 10 * tens + (last as int - '0' as int) == n <==> tens == n / 10 && last == Digit(n % 10)
  {
  }

  /** One digit more. */
  lemma DecLonger(n: nat, front: string, last: char)
    requires n >= 10 && front != "" && '0' <= last <= '9' && forall i :: 0 <= i < |front| ==> '0' <= front[i] <= '9'
    ensures front + [last] == Dec(n) <==> front == Dec(n / 10) && last == Digit(n % 10)
    ensures Val(front + [last]) == n <==> Val(front) == n / 10 && last == Digit(n % 10)
  {
    DecSplit(n);
    ValSplit(front, last);
    Digits(n, Val(front), last);
    hide *;
    var s := front + [last];
    assert s[..|s| - 1] == front && s[|s| - 1] == last;
  }

  /** The digits that are printed: the only ones for that number that do not start with a zero they could do without. */
  lemma {:induction false} DecIsExactly(n: nat, s: string)
    requires s != "" && forall i :: 0 <= i < |s| ==> '0' <= s[i] <= '9'
    ensures s == Dec(n) <==> Val(s) == n && (s[0] != '0' || |s| == 1)
  {
    LongerThanOne(n);
    var front, last := s[..|s| - 1], s[|s| - 1];
    assert s == front + [last];
    if |s| == 1 {
      assert front == [] && s == [last];
      assert Val(s) == last as int - '0' as int;
      assert n < 10 ==> Dec(n) == [Digit(n)];
    } else if n < 10 {
      FrontNotZero(front);
    } else {
      hide Dec, Val;
      DecIsExactly(n / 10, front);
      DecLonger(n, front, last);
      if |front| == 1 && front[0] == '0' && Val(front) == n / 10 {
        OneZero(front);
      }
    }
  }

  lemma OneZero(s: string)
    requires |s| == 1 && s[0] == '0'
    ensures Val(s) == 0
  {
  }

  lemma LongerThanOne(n: nat)
    ensures |Dec(n)| == 1 <==> n < 10
  {
  }

  lemma {:induction false} FrontNotZero(s: string)
    requires s != "" && forall i :: 0 <= i < |s| ==> '0' <= s[i] <= '9'
    ensures s[0] != '0' ==> Val(s) > 0
  {
    if |s| > 1 {
      FrontNotZero(s[..|s| - 1]);
    }
  }
}
