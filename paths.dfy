/**
 * URL joining as the client does it: `buildUrl(values...)` is
 * `strings.Join(values, "/")`, with no normalisation of slashes.
 */
module Paths {

  /** `buildUrl`: the segments joined with one `/` between neighbours. */
  function BuildUrl(values: seq<string>): string
    decreases |values|
  {
    if |values| == 0 then ""
    else if |values| == 1 then values[0]
    else values[0] + "/" + BuildUrl(values[1..])
  }

  /** Splits a string at every `/` (reference inverse of BuildUrl). */
  function Split(s: string): (r: seq<string>)
    ensures |r| >= 1
    decreases |s|
  {
    if |s| == 0 then [""]
    else if s[0] == '/' then [""] + Split(s[1..])
    else
      var rest := Split(s[1..]);
      [[s[0]] + rest[0]] + rest[1..]
  }

  /** No segment of `segs` contains a `/`. */
  predicate SlashFree(segs: seq<string>) {
    forall i :: 0 <= i < |segs| ==> '/' !in segs[i]
  }

  /** A single segment is returned unchanged, two are joined by exactly one `/`. */
  lemma BuildUrlSmall(a: string, b: string)
    ensures BuildUrl([a]) == a
    ensures BuildUrl([a, b]) == a + "/" + b
  {
    assert [a, b][1..] == [b];
  }

  /** Three segments are joined by exactly two `/`. */
  lemma BuildUrlThree(a: string, b: string, c: string)
    ensures BuildUrl([a, b, c]) == a + "/" + b + "/" + c
  {
    assert [a, b, c][1..] == [b, c];
    BuildUrlSmall(b, c);
  }

  /** Joining two non-empty lists of segments puts exactly one `/` between their joins. */
  lemma {:induction false} BuildUrlAppend(a: seq<string>, b: seq<string>)
    requires |a| >= 1 && |b| >= 1
    ensures BuildUrl(a + b) == BuildUrl(a) + "/" + BuildUrl(b)
    decreases |a|
  {
    if |a| == 1 {
      assert (a + b)[1..] == b;
    } else {
      assert (a + b)[1..] == a[1..] + b;
      BuildUrlAppend(a[1..], b);
    }
  }

  /**
   * The client always joins its base URL with an already joined path:
   * `buildUrl(base, buildUrl(segs...))` is `buildUrl(base, segs...)`.
   */
  lemma BuildUrlNested(base: string, segs: seq<string>)
    requires |segs| >= 1
    ensures BuildUrl([base, BuildUrl(segs)]) == BuildUrl([base] + segs)
    ensures BuildUrl([base] + segs) == base + "/" + BuildUrl(segs)
  {
    BuildUrlSmall(base, BuildUrl(segs));
    BuildUrlAppend([base], segs);
  }

  /** Joining does no normalisation: a base that ends in `/` yields `//`. */
  lemma BuildUrlKeepsDoubleSlash(base: string, segs: seq<string>)
    requires |segs| >= 1 && |base| >= 1 && base[|base| - 1] == '/'
    ensures var u := BuildUrl([base] + segs); |u| > |base| && u[|base| - 1..|base| + 1] == "//"
  {
    BuildUrlNested(base, segs);
  }

  /** A string without `/` is a single segment. */
  lemma {:induction false} SplitNoSlash(s: string)
    requires '/' !in s
    ensures Split(s) == [s]
    decreases |s|
  {
    if |s| > 0 {
      assert '/' !in s[1..] by {
        forall k | 0 <= k < |s[1..]| ensures s[1..][k] != '/' { assert s[1..][k] == s[k + 1]; }
      }
      SplitNoSlash(s[1..]);
      assert [s[0]] + s[1..] == s;
    }
  }

  /** Splitting `a/b` where `a` has no `/` gives `a` and then the split of `b`. */
  lemma {:induction false} SplitAt(a: string, b: string)
    requires '/' !in a
    ensures Split(a + "/" + b) == [a] + Split(b)
    decreases |a|
  {
    var s := a + "/" + b;
    if |a| == 0 {
      assert s[0] == '/' && s[1..] == b;
    } else {
      assert s[0] == a[0];
      assert s[1..] == a[1..] + "/" + b;
      assert '/' !in a[1..] by {
        forall k | 0 <= k < |a[1..]| ensures a[1..][k] != '/' { assert a[1..][k] == a[k + 1]; }
      }
      SplitAt(a[1..], b);
      assert [a[0]] + a[1..] == a;
    }
  }

  /** Round trip: splitting a joined list of slash-free segments gives the segments back. */
  lemma {:induction false} SplitBuildUrl(segs: seq<string>)
    requires |segs| >= 1 && SlashFree(segs)
    ensures Split(BuildUrl(segs)) == segs
    decreases |segs|
  {
    if |segs| == 1 {
      SplitNoSlash(segs[0]);
    } else {
      SplitAt(segs[0], BuildUrl(segs[1..]));
      SplitBuildUrl(segs[1..]);
      assert [segs[0]] + segs[1..] == segs;
    }
  }

  /** Equal joins of slash-free segment lists come from equal lists. */
  lemma BuildUrlInjective(a: seq<string>, b: seq<string>)
    requires |a| >= 1 && |b| >= 1 && SlashFree(a) && SlashFree(b)
    requires BuildUrl(a) == BuildUrl(b)
    ensures a == b
  {
    SplitBuildUrl(a);
    SplitBuildUrl(b);
  }

  /** What follows a common prefix determines the rest of a string. */
  lemma PrefixCancel(p: string, x: string, y: string)
    requires p + x == p + y
    ensures x == y
  {
    assert x == (p + x)[|p|..];
    assert y == (p + y)[|p|..];
  }
}
