/**
 * The string primitives of the JavaScript runtime that the onboarding code
 * relies on: `String.prototype.trim`, `String.prototype.replace` with a string
 * pattern, and the truthiness test behind `value || fallback` on an optional
 * string. Strings are sequences of UTF-16 code units in JavaScript; here they
 * are `seq<char>`.
 */
module JsText {
  import opened Seqs

  datatype Option<+T> = None | Some(value: T)

  /** The WhiteSpace and LineTerminator code points of ECMA-262 (sections 12.2
      and 12.3, with the Unicode "Zs" category of Unicode 15): the characters
      that `trim` strips and that the regular-expression class `\s` matches. */
  predicate IsSpace(c: char) {
    || c == '\t' || c == '\n' || c == '\U{000B}' || c == '\U{000C}' || c == '\r'
    || c == ' ' || c == '\U{00A0}' || c == '\U{1680}'
    || ('\U{2000}' <= c <= '\U{200A}')
    || c == '\U{2028}' || c == '\U{2029}' || c == '\U{202F}' || c == '\U{205F}'
    || c == '\U{3000}' || c == '\U{FEFF}'
  }

  /** Every character of `s` is whitespace. */
  predicate AllSpace(s: string) {
    s == [] || (IsSpace(s[0]) && AllSpace(s[1..]))
  }

  /** Neither end of `s` is whitespace. */
  predicate Trimmed(s: string) {
    s == [] || (!IsSpace(s[0]) && !IsSpace(s[|s| - 1]))
  }

  lemma {:induction false} AllSpaceConcat(a: string, b: string)
    requires AllSpace(a) && AllSpace(b)
    ensures AllSpace(a + b)
    decreases |a|
  {
    if a == [] {
      assert a + b == b;
    } else {
      TailOfConcat(a, b);
      HeadOfConcat(a, b);
      AllSpaceConcat(a[1..], b);
    }
  }

  lemma {:induction false} AllSpaceAt(s: string, i: int)
    requires AllSpace(s) && 0 <= i < |s|
    ensures IsSpace(s[i])
    decreases i
  {
    if i > 0 {
      AllSpaceAt(s[1..], i - 1);
      assert s[1..][i - 1] == s[i];
    }
  }

  lemma {:induction false} AllSpaceSnoc(s: string, c: char)
    requires AllSpace(s) && IsSpace(c)
    ensures AllSpace(s + [c])
  {
    AllSpaceConcat(s, [c]);
  }

  /** Strips the leading whitespace: what is left is a suffix of `s` that is
      empty or starts with a character other than whitespace. */
  function TrimStart(s: string): (r: string)
    ensures |r| <= |s|
    ensures r == [] || !IsSpace(r[0])
  {
    if s == [] || !IsSpace(s[0]) then s else TrimStart(s[1..])
  }

  /** Strips the trailing whitespace: what is left is a prefix of `s` that is
      empty or ends with a character other than whitespace. */
  function TrimEnd(s: string): (r: string)
    ensures |r| <= |s|
    ensures r == [] || !IsSpace(r[|r| - 1])
  {
    if s == [] || !IsSpace(s[|s| - 1]) then s else TrimEnd(s[..|s| - 1])
  }

  /** `String.prototype.trim`. */
  function Trim(s: string): (r: string)
    ensures |r| <= |s|
    ensures r == [] || !IsSpace(r[|r| - 1])
  {
    TrimEnd(TrimStart(s))
  }

  /** Everything `TrimStart` drops is whitespace. */
  lemma {:induction false} TrimStartParts(s: string) returns (a: string)
    ensures AllSpace(a) && s == a + TrimStart(s)
    decreases |s|
  {
    if s == [] || !IsSpace(s[0]) {
      a := [];
    } else {
      var a' := TrimStartParts(s[1..]);
      a := [s[0]] + a';
      TailOfCons(s[0], a');
      Cons(s, a', TrimStart(s[1..]));
    }
  }

  /** Everything `TrimEnd` drops is whitespace. */
  lemma {:induction false} TrimEndParts(s: string) returns (b: string)
    ensures AllSpace(b) && s == TrimEnd(s) + b
    decreases |s|
  {
    if s == [] || !IsSpace(s[|s| - 1]) {
      b := [];
    } else {
      var b' := TrimEndParts(s[..|s| - 1]);
      b := b' + [s[|s| - 1]];
      AllSpaceSnoc(b', s[|s| - 1]);
      Snoc(s, TrimEnd(s[..|s| - 1]), b');
    }
  }

  lemma {:induction false} TrimStartSkips(a: string, x: string)
    requires AllSpace(a)
    requires x == [] || !IsSpace(x[0])
    ensures TrimStart(a + x) == x
    decreases |a|
  {
    if a != [] {
      TailOfConcat(a, x);
      TrimStartSkips(a[1..], x);
    }
  }

  lemma {:induction false} TrimEndSkips(y: string, b: string)
    requires AllSpace(b)
    requires y == [] || !IsSpace(y[|y| - 1])
    ensures TrimEnd(y + b) == y
    decreases |b|
  {
    if b != [] {
      var n := |b| - 1;
      AllSpaceAt(b, n);
      AllSpacePrefix(b, n);
      InitOfConcat(y, b);
      TrimEndSkips(y, b[..n]);
    }
  }

  lemma {:induction false} AllSpacePrefix(s: string, n: int)
    requires AllSpace(s) && 0 <= n <= |s|
    ensures AllSpace(s[..n])
    decreases n
  {
    if n > 0 {
      PrefixTail(s, n);
      AllSpacePrefix(s[1..], n - 1);
    }
  }

  /** `trim` recovers the trimmed core of any string padded with whitespace. */
  lemma TrimOf(a: string, m: string, b: string)
    requires AllSpace(a) && AllSpace(b) && Trimmed(m)
    ensures Trim(a + m + b) == m
  {
    Assoc(a, m, b);
    if m == [] {
      AllSpaceConcat(a, b);
      EmptyMiddle(a, m, b);
      TrimStartSkips(a + b, []);
    } else {
      TrimStartSkips(a, m + b);
      TrimEndSkips(m, b);
    }
  }

  /** Every string is its trimmed core, which neither starts nor ends with
      whitespace, with whitespace on either side. */
  lemma TrimParts(s: string) returns (a: string, b: string)
    ensures AllSpace(a) && AllSpace(b) && Trimmed(Trim(s))
    ensures s == a + Trim(s) + b
  {
    var t := TrimStart(s);
    a := TrimStartParts(s);
    b := TrimEndParts(t);
    Splice(s, a, t, Trim(s), b);
    var m := Trim(s);
    if m != [] {
      HeadOfConcat(m, b);
    }
  }

  /** What `trim` returns neither starts nor ends with whitespace. */
  lemma TrimTrimmed(s: string)
    ensures Trimmed(Trim(s))
  {
    var _, _ := TrimParts(s);
  }

  /** `trim` leaves nothing exactly when the string is all whitespace. */
  lemma TrimEmpty(s: string)
    ensures Trim(s) == [] <==> AllSpace(s)
  {
    var a, b := TrimParts(s);
    if Trim(s) == [] {
      AllSpaceConcat(a, b);
      assert s == a + b;
    } else {
      var m := Trim(s);
      assert s == a + m + b;
      if AllSpace(s) {
        assert s[|a|] == m[0];
        AllSpaceAt(s, |a|);
      }
    }
  }

  /** Leading and trailing whitespace never changes what `trim` returns. */
  lemma TrimIgnoresSurroundingSpace(a: string, s: string, b: string)
    requires AllSpace(a) && AllSpace(b)
    ensures Trim(a + s + b) == Trim(s)
  {
    var a', b' := TrimParts(s);
    var m := Trim(s);
    AllSpaceConcat(a, a');
    AllSpaceConcat(b', b);
    Regroup(a, a', m, b', b);
    TrimOf(a + a', m, b' + b);
  }

  /** `trim` is idempotent. */
  lemma TrimIdempotent(s: string)
    ensures Trim(Trim(s)) == Trim(s)
  {
    var _, _ := TrimParts(s);
    var m := Trim(s);
    assert [] + m + [] == m;
    TrimOf([], m, []);
  }

  /** `pattern` occurs in `s` starting at index `k`. */
  predicate OccursAt(s: string, pattern: string, k: int) {
    0 <= k && k + |pattern| <= |s| && s[k..k + |pattern|] == pattern
  }

  function IndexFrom(s: string, pattern: string, from: nat): (r: Option<nat>)
    ensures r.Some? ==> from <= r.value && OccursAt(s, pattern, r.value)
    ensures r.Some? ==> forall k :: from <= k < r.value ==> !OccursAt(s, pattern, k)
    ensures r.None? ==> forall k :: from <= k ==> !OccursAt(s, pattern, k)
    decreases |s| - from
  {
    if from + |pattern| > |s| then None
    else if s[from..from + |pattern|] == pattern then Some(from)
    else IndexFrom(s, pattern, from + 1)
  }

  /** `s.indexOf(pattern)`: the first index at which `pattern` occurs, if any. */
  function IndexOf(s: string, pattern: string): (r: Option<nat>)
    ensures r.Some? ==> OccursAt(s, pattern, r.value)
    ensures r.Some? ==> forall k :: 0 <= k < r.value ==> !OccursAt(s, pattern, k)
    ensures r.None? ==> forall k :: 0 <= k ==> !OccursAt(s, pattern, k)
  {
    IndexFrom(s, pattern, 0)
  }

  /** The GetSubstitution operation of ECMA-262 for a string pattern (no capture
      groups): in the replacement, `$$` stands for `$`, `$&` for the matched
      text, `` $` `` for the text before the match and `$'` for the text after
      it; any other `$` is kept as written. */
  function Substitution(replacement: string, matched: string, before: string, after: string): (r: string)
    decreases |replacement|
  {
    if replacement == [] then []
    else if replacement[0] == '$' && |replacement| >= 2 then
      var c := replacement[1];
      if c == '$' then "$" + Substitution(replacement[2..], matched, before, after)
      else if c == '&' then matched + Substitution(replacement[2..], matched, before, after)
      else if c == '`' then before + Substitution(replacement[2..], matched, before, after)
      else if c == '\'' then after + Substitution(replacement[2..], matched, before, after)
      else "$" + Substitution(replacement[1..], matched, before, after)
    else [replacement[0]] + Substitution(replacement[1..], matched, before, after)
  }

  /** A replacement without `$` is inserted verbatim. */
  lemma {:induction false} SubstitutionLiteral(replacement: string, matched: string, before: string, after: string)
    requires '$' !in replacement
    ensures Substitution(replacement, matched, before, after) == replacement
    decreases |replacement|
  {
    if replacement != [] {
      assert replacement[0] != '$';
      assert replacement == [replacement[0]] + replacement[1..];
      SubstitutionLiteral(replacement[1..], matched, before, after);
    }
  }

  /** `s.replace(pattern, replacement)` with a string pattern: only the first
      occurrence is replaced, and the replacement is expanded by GetSubstitution. */
  function ReplaceFirst(s: string, pattern: string, replacement: string): (r: string)
    ensures IndexOf(s, pattern).None? ==> r == s
    ensures IndexOf(s, pattern).Some? && '$' !in replacement
            ==> r == s[..IndexOf(s, pattern).value] + replacement + s[IndexOf(s, pattern).value + |pattern|..]
  {
    match IndexOf(s, pattern)
    case None => s
    case Some(i) =>
      var before, after := s[..i], s[i + |pattern|..];
      if '$' !in replacement then
        SubstitutionLiteral(replacement, pattern, before, after);
        before + Substitution(replacement, pattern, before, after) + after
      else
        before + Substitution(replacement, pattern, before, after) + after
  }

  /** Replacing the only placeholder of a template whose text before the
      placeholder cannot start another occurrence inserts a `$`-free
      replacement verbatim in its place. */
  lemma ReplaceInTemplate(prefix: string, pattern: string, suffix: string, replacement: string)
    requires pattern != [] && pattern[0] !in prefix
    requires '$' !in replacement
    ensures ReplaceFirst(prefix + pattern + suffix, pattern, replacement) == prefix + replacement + suffix
  {
    var s := prefix + pattern + suffix;
    assert OccursAt(s, pattern, |prefix|) by {
      assert s[|prefix|..|prefix| + |pattern|] == pattern;
    }
    var r := IndexOf(s, pattern);
    assert r.value == |prefix|;
    assert s[..|prefix|] == prefix;
    assert s[|prefix| + |pattern|..] == suffix;
    SubstitutionLiteral(replacement, pattern, prefix, suffix);
  }

  /** `value || fallback` for an optional string: a missing value and the empty
      string are both falsy and give the fallback. */
  function Or(value: Option<string>, fallback: string): (r: string)
    ensures value.Some? && value.value != "" ==> r == value.value
    ensures value.None? || value.value == "" ==> r == fallback
  {
    if value.Some? && value.value != "" then value.value else fallback
  }
}
