/** Sequence and string primitives shared by the import model: the first-
    occurrence search behind `String.prototype.indexOf`, `split` and
    `replace`, and the line splitting/joining a reader of the generated files
    uses. */
module Strings {
  import opened Wrappers

  const NL: char := '\n'

  /** `pat` occurs in `s` starting at index `i`. */
  predicate OccursAt<T(==)>(s: seq<T>, pat: seq<T>, i: int) {
    0 <= i && i + |pat| <= |s| && s[i..i + |pat|] == pat
  }

  predicate Contains<T(==)>(s: seq<T>, pat: seq<T>) {
    exists i :: 0 <= i <= |s| && OccursAt(s, pat, i)
  }

  predicate IsPrefix<T(==)>(p: seq<T>, s: seq<T>) {
    |p| <= |s| && s[..|p|] == p
  }

  predicate IsSuffix<T(==)>(p: seq<T>, s: seq<T>) {
    |p| <= |s| && s[|s| - |p|..] == p
  }

  lemma ContainsMiddle<T>(a: seq<T>, p: seq<T>, b: seq<T>)
    ensures Contains(a + p + b, p)
  {
    assert (a + p + b)[|a|..|a| + |p|] == p;
    assert OccursAt(a + p + b, p, |a|);
  }

  /** An occurrence inside a piece is an occurrence in any text around it. */
  lemma ContainsWithin<T>(a: seq<T>, x: seq<T>, b: seq<T>, p: seq<T>)
    requires Contains(x, p)
    ensures Contains(a + x + b, p)
  {
    var i :| 0 <= i <= |x| && OccursAt(x, p, i);
    assert (a + x + b)[|a| + i..|a| + i + |p|] == x[i..i + |p|];
    assert OccursAt(a + x + b, p, |a| + i);
  }

  /** The first index at or after `from` where `pat` occurs in `s`, or `None`. */
  function IndexOfFrom<T(==)>(s: seq<T>, pat: seq<T>, from: nat): (r: Option<nat>)
    ensures r.Some? ==> from <= r.value && OccursAt(s, pat, r.value)
    ensures r.Some? ==> forall j :: from <= j < r.value ==> !OccursAt(s, pat, j)
    ensures r.None? ==> forall j :: from <= j ==> !OccursAt(s, pat, j)
    decreases |s| - from
  {
    if from + |pat| > |s| then None
    else if s[from..from + |pat|] == pat then Some(from)
    else IndexOfFrom(s, pat, from + 1)
  }

  /** The first index where `pat` occurs in `s`: `indexOf` without the -1. */
  function IndexOf<T(==)>(s: seq<T>, pat: seq<T>): (r: Option<nat>)
    ensures r.Some? <==> Contains(s, pat)
    ensures r.Some? ==> OccursAt(s, pat, r.value)
    ensures r.Some? ==> forall j :: 0 <= j < r.value ==> !OccursAt(s, pat, j)
  {
    IndexOfFrom(s, pat, 0)
  }

  /** The pieces of `s` between occurrences of `sep`, as a line reader sees
      them: `s` is the pieces joined back with `sep`. */
  function Split(s: string, sep: char): (r: seq<string>)
    ensures |r| >= 1
    decreases |s|
  {
    if |s| == 0 then [""]
    else
      var rest := Split(s[1..], sep);
      if s[0] == sep then [""] + rest
      else [[s[0]] + rest[0]] + rest[1..]
  }

  /** The pieces of `xs` with `sep` between consecutive ones. */
  function Join(xs: seq<string>, sep: char): string
    decreases |xs|
  {
    if |xs| == 0 then ""
    else if |xs| == 1 then xs[0]
    else Join(xs[..|xs| - 1], sep) + [sep] + xs[|xs| - 1]
  }

  lemma {:induction false} SplitNoSep(s: string, sep: char)
    requires sep !in s
    ensures Split(s, sep) == [s]
    decreases |s|
  {
    if |s| > 0 {
      assert s[0] != sep && sep !in s[1..];
      SplitNoSep(s[1..], sep);
      assert [s[0]] + s[1..] == s;
    }
  }

  /** Splitting at a separator splits the two sides independently. */
  lemma {:induction false} SplitConcat(u: string, sep: char, v: string)
    ensures Split(u + [sep] + v, sep) == Split(u, sep) + Split(v, sep)
    decreases |u|
  {
    var w := u + [sep] + v;
    if |u| == 0 {
      assert w == [sep] + v;
      assert w[1..] == v;
    } else {
      assert w[0] == u[0];
      assert w[1..] == u[1..] + [sep] + v;
      SplitConcat(u[1..], sep, v);
    }
  }

  /** Appending a separator and a piece without separators adds one line. */
  lemma SplitLine(u: string, sep: char, x: string)
    requires sep !in x
    ensures Split(u + [sep] + x, sep) == Split(u, sep) + [x]
  {
    SplitConcat(u, sep, x);
    SplitNoSep(x, sep);
  }

  /** A line list without separators survives joining and splitting. */
  lemma {:induction false} SplitJoin(xs: seq<string>, sep: char)
    requires |xs| >= 1
    requires forall k :: 0 <= k < |xs| ==> sep !in xs[k]
    ensures Split(Join(xs, sep), sep) == xs
    decreases |xs|
  {
    if |xs| == 1 {
      SplitNoSep(xs[0], sep);
    } else {
      var init := xs[..|xs| - 1];
      SplitJoin(init, sep);
      SplitConcat(Join(init, sep), sep, xs[|xs| - 1]);
      SplitNoSep(xs[|xs| - 1], sep);
      assert init + [xs[|xs| - 1]] == xs;
    }
  }

  /** Appending a single piece adds one separator and the piece. */
  lemma JoinSnoc(xs: seq<string>, x: string, sep: char)
    requires |xs| >= 1
    ensures Join(xs + [x], sep) == Join(xs, sep) + [sep] + x
  {
  }

  /** `s` with its first occurrence of `pat` cut out, as `s.replace(pat, '')`
      does when `pat` is a string; `s` itself when `pat` does not occur. */
  function RemoveFirst<T(==)>(s: seq<T>, pat: seq<T>): (r: seq<T>)
    ensures !Contains(s, pat) ==> r == s
    ensures Contains(s, pat) ==> |r| == |s| - |pat|
  {
    match IndexOf(s, pat)
    case None => s
    case Some(i) => s[..i] + s[i + |pat|..]
  }

  /** What `RemoveFirst` does at the first occurrence `i`: the text before it
      is kept, putting `pat` back at `i` restores the input, and every later
      occurrence survives, shifted left by `|pat|`. */
  lemma RemoveFirstAt<T>(s: seq<T>, pat: seq<T>, i: nat)
    requires OccursAt(s, pat, i)
    requires forall j :: 0 <= j < i ==> !OccursAt(s, pat, j)
    ensures RemoveFirst(s, pat) == s[..i] + s[i + |pat|..]
    ensures RemoveFirst(s, pat)[..i] + pat + RemoveFirst(s, pat)[i..] == s
    ensures forall j :: i + |pat| <= j && OccursAt(s, pat, j) ==>
              OccursAt(RemoveFirst(s, pat), pat, j - |pat|)
  {
  }
}
