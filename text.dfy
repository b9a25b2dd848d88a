/**
 * The JavaScript string operations the oauth2 app relies on, on `seq<char>`:
 * `String.prototype.split` with a one-character separator,
 * `Array.prototype.join`, and `String.prototype.startsWith`.
 */
module Text {

  /** `s.split(sep)`: never empty; `"".split(sep)` is `[""]`. */
  function Split(s: string, sep: char): (r: seq<string>)
    ensures |r| >= 1
    ensures forall i :: 0 <= i < |r| ==> sep !in r[i]
    decreases |s|
  {
    if |s| == 0 then [""]
    else if s[0] == sep then [""] + Split(s[1..], sep)
    else
      var rest := Split(s[1..], sep);
      [[s[0]] + rest[0]] + rest[1..]
  }

  /** `xs.join(sep)`: `[].join(sep)` is `""`; a join starts with the first element. */
  function Join(xs: seq<string>, sep: char): (r: string)
    ensures |xs| >= 1 ==> StartsWith(r, xs[0])
    decreases |xs|
  {
    if |xs| == 0 then ""
    else if |xs| == 1 then xs[0]
    else xs[0] + [sep] + Join(xs[1..], sep)
  }

  /** `s.startsWith(prefix)`. */
  predicate StartsWith(s: string, prefix: string) {
    |prefix| <= |s| && s[..|prefix|] == prefix
  }

  /** `s` starts with `prefix` exactly when it is `prefix` followed by the rest of `s`. */
  lemma StartsWithConcat(s: string, prefix: string)
    ensures StartsWith(s, prefix) <==> |prefix| <= |s| && s == prefix + s[|prefix|..]
    ensures StartsWith(prefix + s, prefix)
  {
    if |prefix| <= |s| && s == prefix + s[|prefix|..] {
      assert s[..|prefix|] == prefix;
    }
    assert (prefix + s)[..|prefix|] == prefix;
  }

  /** Every element of `xs` is free of `sep`. */
  predicate FreeOf(xs: seq<string>, sep: char) {
    forall i :: 0 <= i < |xs| ==> sep !in xs[i]
  }

  /** A separator-free prefix glues onto the first piece of what follows it. */
  lemma {:induction false} SplitPrefix(a: string, t: string, sep: char)
    requires sep !in a
    ensures Split(a + t, sep) == [a + Split(t, sep)[0]] + Split(t, sep)[1..]
    decreases |a|
  {
    if |a| > 0 {
      assert (a + t)[1..] == a[1..] + t;
      SplitPrefix(a[1..], t, sep);
      assert [a[0]] + (a[1..] + Split(t, sep)[0]) == a + Split(t, sep)[0];
    } else {
      assert a + t == t;
      var r := Split(t, sep);
      assert a + r[0] == r[0];
      assert r == [r[0]] + r[1..];
    }
  }

  /** A piece followed by the separator splits off as one element. */
  lemma SplitCons(a: string, rest: string, sep: char)
    requires sep !in a
    ensures Split(a + [sep] + rest, sep) == [a] + Split(rest, sep)
  {
    var t := [sep] + rest;
    assert t[1..] == rest;
    assert Split(t, sep) == [""] + Split(rest, sep);
    SplitPrefix(a, t, sep);
    assert a + [sep] + rest == a + t;
    assert a + "" == a;
  }

  /** A separator-free string splits into itself. */
  lemma SplitFree(a: string, sep: char)
    requires sep !in a
    ensures Split(a, sep) == [a]
  {
    SplitPrefix(a, "", sep);
    assert a + "" == a;
  }

  /**
   * Splitting undoes joining for a non-empty list of separator-free strings.
   * (The empty list joins to `""`, which splits to `[""]`.)
   */
  lemma {:induction false} SplitJoin(xs: seq<string>, sep: char)
    requires |xs| >= 1 && FreeOf(xs, sep)
    ensures Split(Join(xs, sep), sep) == xs
    decreases |xs|
  {
    if |xs| == 1 {
      SplitFree(xs[0], sep);
    } else {
      SplitJoin(xs[1..], sep);
      SplitCons(xs[0], Join(xs[1..], sep), sep);
      assert xs == [xs[0]] + xs[1..];
    }
  }

  /** The one list the round trip of SplitJoin loses. */
  lemma SplitJoinEmpty(sep: char)
    ensures Split(Join([], sep), sep) == [""]
  {
  }

  /** Joining a piece that was extended on the left extends the join. */
  lemma JoinHead(p: string, xs: seq<string>, sep: char)
    requires |xs| >= 1
    ensures Join([p + xs[0]] + xs[1..], sep) == p + Join(xs, sep)
  {
    var ys := [p + xs[0]] + xs[1..];
    assert ys[1..] == xs[1..];
  }

  /** Joining undoes splitting, for every string. */
  lemma {:induction false} JoinSplit(s: string, sep: char)
    ensures Join(Split(s, sep), sep) == s
    decreases |s|
  {
    if |s| == 0 {
    } else if s[0] == sep {
      JoinSplit(s[1..], sep);
      var rest := Split(s[1..], sep);
      var ys := [""] + rest;
      assert ys[1..] == rest;
      assert s == [sep] + s[1..];
    } else {
      JoinSplit(s[1..], sep);
      var rest := Split(s[1..], sep);
      JoinHead([s[0]], rest, sep);
      assert s == [s[0]] + s[1..];
    }
  }

  /** A string that starts with `a` and then the separator splits into at least two pieces. */
  lemma SplitAfterPrefix(a: string, s: string, sep: char)
    requires sep !in a && StartsWith(s, a + [sep])
    ensures |Split(s, sep)| >= 2 && Split(s, sep)[0] == a
  {
    var rest := s[|a| + 1..];
    assert s == a + [sep] + rest;
    SplitCons(a, rest, sep);
  }

  /** `(prefix + [sep] + t).split(sep)` is `[prefix, t]` when neither holds the separator. */
  lemma SplitPair(a: string, t: string, sep: char)
    requires sep !in a && sep !in t
    ensures Split(a + [sep] + t, sep) == [a, t]
  {
    SplitCons(a, t, sep);
    SplitFree(t, sep);
  }
}
