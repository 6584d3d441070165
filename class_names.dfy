/**
 * The class-string normalisation the components apply to every template
 * literal of Tailwind classes: `` `...`.trim().replace(/\s+/g, ' ') ``.
 * Trimming drops the whitespace at both ends; the global replacement turns
 * every maximal run of whitespace into a single space.
 */
module ClassNames {
  import opened JsText
  import opened Seqs

  /** No two adjacent whitespace characters. */
  predicate NoSpaceRun(s: string) {
    |s| < 2 || (!(IsSpace(s[0]) && IsSpace(s[1])) && NoSpaceRun(s[1..]))
  }

  /** Every whitespace character is a plain space. */
  predicate PlainSpaces(s: string) {
    s == [] || ((IsSpace(s[0]) ==> s[0] == ' ') && PlainSpaces(s[1..]))
  }

  /** What a normalised class string looks like: no whitespace at either end,
      no run of more than one whitespace character, and only plain spaces. */
  predicate IsNormal(s: string) {
    Trimmed(s) && NoSpaceRun(s) && PlainSpaces(s)
  }

  /** `s.replace(/\s+/g, ' ')`: the greedy global match finds the maximal runs
      of whitespace from left to right and each becomes one space. */
  function CollapseSpaces(s: string): (r: string)
    ensures r == [] <==> s == []
    ensures s != [] ==> (IsSpace(r[0]) <==> IsSpace(s[0]))
    ensures NoSpaceRun(r) && PlainSpaces(r)
    decreases |s|
  {
    if s == [] then []
    else if IsSpace(s[0]) then
      var tail := CollapseSpaces(TrimStart(s[1..]));
      TailOfCons(' ', tail);
      [' '] + tail
    else
      var tail := CollapseSpaces(s[1..]);
      TailOfCons(s[0], tail);
      [s[0]] + tail
  }

  /** The last character of the collapsed string is whitespace exactly when
      the last character of the input is. */
  lemma {:induction false} CollapseLast(s: string)
    requires s != []
    ensures IsSpace(CollapseSpaces(s)[|CollapseSpaces(s)| - 1]) <==> IsSpace(s[|s| - 1])
    decreases |s|
  {
    var r := CollapseSpaces(s);
    var rest := if IsSpace(s[0]) then TrimStart(s[1..]) else s[1..];
    var a: string := [];
    if IsSpace(s[0]) {
      a := TrimStartParts(s[1..]);
    }
    assert s[1..] == a + rest;
    if rest == [] {
      AppendEmpty(a);
      if |s| > 1 {
        AllSpaceAt(s[1..], |s| - 2);
      }
    } else {
      CollapseLast(rest);
      LastOfConcat(a, rest);
      LastOfTail(s);
    }
  }

  /** `` `...`.trim().replace(/\s+/g, ' ') ``: the result is normalised and is
      empty exactly when the input is blank. */
  function Normalise(s: string): (r: string)
    ensures IsNormal(r)
    ensures r == [] <==> AllSpace(s)
  {
    var t := Trim(s);
    TrimTrimmed(s);
    TrimEmpty(s);
    if t != [] then CollapseLast(t); CollapseSpaces(t) else CollapseSpaces(t)
  }

  /** Two normalised class strings written one after the other with
      whitespace between them, as a template literal does. */
  function Glue(p: string, q: string): string {
    if p == [] then q else if q == [] then p else p + " " + q
  }

  /** The collapse leaves a string without runs and with only plain spaces as
      it is. */
  lemma {:induction false} CollapseFixed(s: string)
    requires NoSpaceRun(s) && PlainSpaces(s)
    ensures CollapseSpaces(s) == s
    decreases |s|
  {
    if s != [] {
      CollapseFixed(s[1..]);
      if IsSpace(s[0]) {
        assert TrimStart(s[1..]) == s[1..];
      }
      Cons(s, s[1..], []);
      assert s[1..] + [] == s[1..];
    }
  }

  /** A string that is already normalised is left as it is. */
  lemma NormalFixed(s: string)
    requires IsNormal(s)
    ensures Normalise(s) == s
  {
    EmptyEnds(s);
    TrimOf([], s, []);
    CollapseFixed(s);
  }

  /** Normalising twice is normalising once. */
  lemma NormaliseIdempotent(s: string)
    ensures Normalise(Normalise(s)) == Normalise(s)
  {
    NormalFixed(Normalise(s));
  }

  /** Collapsing a string whose two non-blank parts are separated by a run of
      whitespace collapses each part and puts one space between them. */
  lemma {:induction false} CollapseSplit(p: string, w: string, q: string)
    requires p != [] && !IsSpace(p[|p| - 1])
    requires w != [] && AllSpace(w)
    requires q != [] && !IsSpace(q[0])
    ensures CollapseSpaces(p + w + q) == CollapseSpaces(p) + " " + CollapseSpaces(q)
    decreases |p|
  {
    if !IsSpace(p[0]) {
      if |p| == 1 {
        SplitSingle(p, w, q);
      } else {
        LastOfTail(p);
        CollapseSplit(p[1..], w, q);
        SplitWord(p, w, q);
      }
    } else {
      SpaceLead(p);
      CollapseSplit(TrimStart(p[1..]), w, q);
      SplitSpace(p, w, q);
    }
  }

  /** One step of the collapse over a character that is not whitespace. */
  lemma CollapseCons(c: char, t: string)
    requires !IsSpace(c)
    ensures CollapseSpaces([c] + t) == [c] + CollapseSpaces(t)
  {
    TailOfCons(c, t);
  }

  /** One step of the collapse over a whitespace character: the whole run it
      starts becomes one space. */
  lemma CollapseSpaceCons(c: char, t: string)
    requires IsSpace(c)
    ensures CollapseSpaces([c] + t) == [' '] + CollapseSpaces(TrimStart(t))
  {
    TailOfCons(c, t);
  }

  lemma SplitSingle(p: string, w: string, q: string)
    requires |p| == 1 && !IsSpace(p[0])
    requires w != [] && AllSpace(w)
    requires q != [] && !IsSpace(q[0])
    ensures CollapseSpaces(p + w + q) == CollapseSpaces(p) + " " + CollapseSpaces(q)
  {
    var c := p[0];
    ConsJoin(p, w, q);
    assert p[1..] + w + q == w + q;
    CollapseCons(c, w + q);
    TailOfConcat(w, q);
    Uncons(w + q);
    HeadOfConcat(w, q);
    CollapseSpaceCons(w[0], w[1..] + q);
    TrimStartSkips(w[1..], q);
    CollapseCons(c, []);
    ConsSpace(c, CollapseSpaces(q));
  }

  lemma SplitWord(p: string, w: string, q: string)
    requires |p| > 1 && !IsSpace(p[0])
    requires CollapseSpaces(p[1..] + w + q) == CollapseSpaces(p[1..]) + " " + CollapseSpaces(q)
    ensures CollapseSpaces(p + w + q) == CollapseSpaces(p) + " " + CollapseSpaces(q)
  {
    ConsJoin(p, w, q);
    CollapseCons(p[0], p[1..] + w + q);
    CollapseCons(p[0], p[1..]);
    ConsGlue(p[0], CollapseSpaces(p[1..]), CollapseSpaces(q));
  }

  /** After a leading space, the rest of `p` without its leading whitespace
      still ends where `p` ends. */
  lemma SpaceLead(p: string)
    requires p != [] && IsSpace(p[0]) && !IsSpace(p[|p| - 1])
    ensures TrimStart(p[1..]) != []
    ensures TrimStart(p[1..])[|TrimStart(p[1..])| - 1] == p[|p| - 1]
  {
    var lead := TrimStartParts(p[1..]);
    var t := TrimStart(p[1..]);
    LastOfTail(p);
    if t == [] {
      AppendEmpty(lead);
      AllSpaceAt(p[1..], |p| - 2);
    } else {
      LastOfConcat(lead, t);
    }
  }

  lemma SplitSpace(p: string, w: string, q: string)
    requires p != [] && IsSpace(p[0])
    requires w != [] && AllSpace(w)
    requires TrimStart(p[1..]) != []
    requires CollapseSpaces(TrimStart(p[1..]) + w + q)
          == CollapseSpaces(TrimStart(p[1..])) + " " + CollapseSpaces(q)
    ensures CollapseSpaces(p + w + q) == CollapseSpaces(p) + " " + CollapseSpaces(q)
  {
    var t := TrimStart(p[1..]);
    Assoc(p, w, q);
    Assoc(t, w, q);
    SpaceHead(p, w + q);
    Uncons(p);
    CollapseSpaceCons(p[0], p[1..]);
    ConsGlue(' ', CollapseSpaces(t), CollapseSpaces(q));
  }

  /** A leading whitespace run followed by a word collapses to one space
      before that word, whatever comes after it. */
  lemma SpaceHead(p: string, rest: string)
    requires p != [] && IsSpace(p[0])
    requires TrimStart(p[1..]) != []
    ensures CollapseSpaces(p + rest) == [' '] + CollapseSpaces(TrimStart(p[1..]) + rest)
  {
    var lead := TrimStartParts(p[1..]);
    var t := TrimStart(p[1..]);
    TailOfConcat(p, rest);
    HeadOfConcat(p, rest);
    Uncons(p + rest);
    Regroup2(p[1..], lead, t, rest);
    CollapseSpaceCons(p[0], p[1..] + rest);
    TrimStartSkips(lead, t + rest);
  }

  /** The law behind every class template: normalising `x`, whitespace, `y`
      gives the normalised parts joined by one space, and an empty or blank
      part leaves no stray space behind. */
  lemma NormaliseJoin(x: string, w: string, y: string)
    requires w != [] && AllSpace(w)
    ensures Normalise(x + w + y) == Glue(Normalise(x), Normalise(y))
  {
    TrimEmpty(x);
    TrimEmpty(y);
    if AllSpace(x) {
      JoinBlankLeft(x, w, y);
    } else if AllSpace(y) {
      JoinBlankRight(x, w, y);
    } else {
      JoinBoth(x, w, y);
    }
  }

  lemma JoinBlankLeft(x: string, w: string, y: string)
    requires AllSpace(x) && AllSpace(w)
    ensures Trim(x + w + y) == Trim(y)
  {
    AllSpaceConcat(x, w);
    TrimIgnoresSurroundingSpace(x + w, y, []);
    AppendEmpty(x + w + y);
  }

  lemma JoinBlankRight(x: string, w: string, y: string)
    requires AllSpace(w) && AllSpace(y)
    ensures Trim(x + w + y) == Trim(x)
  {
    AllSpaceConcat(w, y);
    TrimIgnoresSurroundingSpace([], x, w + y);
    EmptyLeft(x);
    Assoc(x, w, y);
  }

  /** Trimming `x`, whitespace, `y` where neither part is blank keeps both
      trimmed cores with a non-empty run of whitespace between them. */
  lemma TrimJoin(x: string, w: string, y: string) returns (gap: string)
    requires w != [] && AllSpace(w)
    requires Trim(x) != [] && Trim(y) != []
    ensures gap != [] && AllSpace(gap)
    ensures Trim(x + w + y) == Trim(x) + gap + Trim(y)
  {
    var a1, b1 := TrimParts(x);
    var a2, b2 := TrimParts(y);
    var tx, ty := Trim(x), Trim(y);
    gap := b1 + w + a2;
    AllSpaceConcat(b1, w);
    AllSpaceConcat(b1 + w, a2);
    Spread(x, a1, tx, b1, w, y, a2, ty, b2);
    assert Trimmed(tx + gap + ty) by {
      HeadOfConcat(tx, gap + ty);
      Assoc(tx, gap, ty);
      LastOfConcat(tx + gap, ty);
    }
    TrimOf(a1, tx + gap + ty, b2);
  }

  lemma JoinBoth(x: string, w: string, y: string)
    requires w != [] && AllSpace(w)
    requires Trim(x) != [] && Trim(y) != []
    ensures CollapseSpaces(Trim(x + w + y)) == CollapseSpaces(Trim(x)) + " " + CollapseSpaces(Trim(y))
  {
    var gap := TrimJoin(x, w, y);
    TrimTrimmed(x);
    TrimTrimmed(y);
    CollapseSplit(Trim(x), gap, Trim(y));
  }

  /** Whitespace after the last class leaves nothing behind. */
  lemma NormaliseTrailing(x: string, w: string)
    requires w != [] && AllSpace(w)
    ensures Normalise(x + w) == Normalise(x)
  {
    NormaliseJoin(x, w, []);
    AppendEmpty(x + w);
    TrimEmpty([]);
  }

  /** Whitespace before the first class leaves nothing behind. */
  lemma NormaliseLeading(w: string, y: string)
    requires w != [] && AllSpace(w)
    ensures Normalise(w + y) == Normalise(y)
  {
    NormaliseJoin([], w, y);
    EmptyLeft(w);
    TrimEmpty([]);
  }

  /** A template literal with two interpolations on their own lines:
      normalising it joins the two normalised parts by one space. */
  lemma TemplateJoin(lead: string, x: string, gap: string, y: string, tail: string)
    requires lead != [] && AllSpace(lead)
    requires gap != [] && AllSpace(gap)
    requires tail != [] && AllSpace(tail)
    ensures Normalise(lead + x + gap + y + tail) == Glue(Normalise(x), Normalise(y))
  {
    NormaliseTrailing(lead + x + gap + y, tail);
    NormaliseJoin(lead + x, gap, y);
    NormaliseLeading(lead, x);
  }

  /** The same with three parts. */
  lemma TemplateJoin3(lead: string, x: string, gap: string, y: string, gap2: string, z: string, tail: string)
    requires lead != [] && AllSpace(lead)
    requires gap != [] && AllSpace(gap)
    requires gap2 != [] && AllSpace(gap2)
    requires tail != [] && AllSpace(tail)
    ensures Normalise(lead + x + gap + y + gap2 + z + tail)
         == Glue(Glue(Normalise(x), Normalise(y)), Normalise(z))
  {
    NormaliseTrailing(lead + x + gap + y + gap2 + z, tail);
    NormaliseJoin(lead + x + gap + y, gap2, z);
    NormaliseJoin(lead + x, gap, y);
    NormaliseLeading(lead, x);
  }
}
