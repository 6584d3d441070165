/**
 * Small facts about sequence concatenation and slicing, stated once so that
 * the proofs about strings can cite the exact equation they need instead of
 * leaving the solver to rediscover it.
 */
module Seqs {
  lemma TailOfCons<T>(c: T, s: seq<T>)
    ensures ([c] + s)[1..] == s
  {
  }

  lemma TailOfConcat<T>(a: seq<T>, b: seq<T>)
    requires a != []
    ensures (a + b)[1..] == a[1..] + b
  {
  }

  lemma InitOfConcat<T>(a: seq<T>, b: seq<T>)
    requires b != []
    ensures (a + b)[..|a + b| - 1] == a + b[..|b| - 1]
  {
  }

  lemma HeadOfConcat<T>(a: seq<T>, b: seq<T>)
    requires a != []
    ensures (a + b)[0] == a[0]
  {
  }

  lemma PrefixTail<T>(s: seq<T>, n: int)
    requires 0 < n <= |s|
    ensures s[..n][1..] == s[1..][..n - 1]
  {
  }

  lemma Cons<T>(s: seq<T>, x: seq<T>, y: seq<T>)
    requires s != [] && s[1..] == x + y
    ensures s == [s[0]] + x + y
  {
    assert s == [s[0]] + s[1..];
  }

  lemma Snoc<T>(s: seq<T>, x: seq<T>, y: seq<T>)
    requires s != [] && s[..|s| - 1] == x + y
    ensures s == x + (y + [s[|s| - 1]])
  {
    assert s == s[..|s| - 1] + [s[|s| - 1]];
  }

  lemma Assoc<T>(a: seq<T>, m: seq<T>, b: seq<T>)
    ensures a + m + b == a + (m + b)
  {
  }

  lemma EmptyMiddle<T>(a: seq<T>, m: seq<T>, b: seq<T>)
    requires m == []
    ensures a + m + b == (a + b) + []
  {
  }

  lemma Regroup<T>(a: seq<T>, x: seq<T>, m: seq<T>, y: seq<T>, b: seq<T>)
    ensures a + (x + m + y) + b == (a + x) + m + (y + b)
  {
  }

  lemma Splice<T>(s: seq<T>, a: seq<T>, t: seq<T>, m: seq<T>, b: seq<T>)
    requires s == a + t && t == m + b
    ensures s == a + m + b
  {
  }

  lemma AppendEmpty<T>(a: seq<T>)
    ensures a + [] == a
  {
  }

  lemma LastOfConcat<T>(a: seq<T>, b: seq<T>)
    requires b != []
    ensures (a + b)[|a + b| - 1] == b[|b| - 1]
  {
  }

  lemma LastOfTail<T>(s: seq<T>)
    requires |s| > 1
    ensures s[1..][|s| - 2] == s[|s| - 1]
  {
  }

  lemma EmptyEnds<T>(s: seq<T>)
    ensures [] + s + [] == s
  {
  }

  lemma Uncons<T>(s: seq<T>)
    requires s != []
    ensures s == [s[0]] + s[1..]
  {
  }

  lemma ConsJoin<T>(p: seq<T>, w: seq<T>, q: seq<T>)
    requires p != []
    ensures p + w + q == [p[0]] + (p[1..] + w + q)
    ensures p == [p[0]] + p[1..]
  {
  }

  lemma Regroup2<T>(x: seq<T>, lead: seq<T>, t: seq<T>, rest: seq<T>)
    requires x == lead + t
    ensures x + rest == lead + (t + rest)
  {
  }

  lemma Spread<T>(x: seq<T>, a1: seq<T>, tx: seq<T>, b1: seq<T>, w: seq<T>, y: seq<T>, a2: seq<T>, ty: seq<T>, b2: seq<T>)
    requires x == a1 + tx + b1 && y == a2 + ty + b2
    ensures x + w + y == a1 + (tx + (b1 + w + a2) + ty) + b2
  {
  }

  lemma EmptyLeft<T>(w: seq<T>)
    ensures [] + w == w
  {
  }

  lemma ConsSpace(c: char, q: string)
    ensures [c] + ([' '] + q) == [c] + " " + q
  {
  }

  lemma ConsGlue(c: char, p: string, q: string)
    ensures [c] + (p + " " + q) == ([c] + p) + " " + q
  {
  }
}
