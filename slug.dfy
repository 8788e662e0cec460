/**
 * The tenant slug, computed from a name in `NewTenantForm.tsx`
 * (`generateSlug`) and, written out inline, in `TenantRegistration.tsx`:
 * lower-case the name, turn every run of characters other than `a`-`z` and
 * `0`-`9` into one hyphen, then drop a hyphen at either end.
 */
module Slug {
  import opened Text
  import Lists

  /** The characters `[a-z0-9]` matches. */
  predicate IsSlugChar(c: char) { 'a' <= c <= 'z' || IsDigit(c) }

  /** Only `a`-`z`, `0`-`9` and `-`. */
  predicate SlugAlphabet(s: string)
  {
    forall i :: 0 <= i < |s| ==> IsSlugChar(s[i]) || s[i] == '-'
  }

  /** No two hyphens in a row. */
  predicate NoDoubleHyphen(s: string)
  {
    forall i :: 0 <= i < |s| - 1 ==> !(s[i] == '-' && s[i + 1] == '-')
  }

  /** A well-formed slug: its alphabet, no `--`, and no hyphen at either end. */
  predicate IsSlug(s: string)
  {
    && SlugAlphabet(s)
    && NoDoubleHyphen(s)
    && (s != [] ==> s[0] != '-' && s[|s| - 1] != '-')
  }

  /**
   * `s.replace(/[^a-z0-9]+/g, '-')`: each maximal run of other characters
   * becomes a single hyphen.
   */
  function CollapseRuns(s: string): (r: string)
    ensures SlugAlphabet(r) && NoDoubleHyphen(r)
    ensures s == [] <==> r == []
    ensures s != [] && IsSlugChar(s[0]) ==> r[0] == s[0]
    ensures s != [] && !IsSlugChar(s[0]) ==> r[0] == '-'
  {
    if s == [] then []
    else if IsSlugChar(s[0]) then [s[0]] + CollapseRuns(s[1..])
    else if |s| > 1 && !IsSlugChar(s[1]) then CollapseRuns(s[1..])
    else "-" + CollapseRuns(s[1..])
  }

  /** `s.replace(/(^-|-$)/g, '')`: one hyphen off the front and one off the end. */
  function TrimHyphens(s: string): string
  {
    var a := if s != [] && s[0] == '-' then s[1..] else s;
    if a != [] && a[|a| - 1] == '-' then a[..|a| - 1] else a
  }

  /** `generateSlug(name)` */
  function GenerateSlug(name: string): string
  {
    TrimHyphens(CollapseRuns(Lower(name)))
  }

  /** The letters and digits of `s`, in order. */
  function Alnum(s: string): string
  {
    Lists.Filter(s, IsSlugChar)
  }

  /** Collapsing runs keeps every letter and digit, in order. */
  lemma {:induction false} CollapseRunsKeepsAlnum(s: string)
    ensures Alnum(CollapseRuns(s)) == Alnum(s)
    decreases |s|
  {
    if s != [] {
      CollapseRunsKeepsAlnum(s[1..]);
      if IsSlugChar(s[0]) {
        assert ([s[0]] + CollapseRuns(s[1..]))[1..] == CollapseRuns(s[1..]);
      } else if |s| == 1 || IsSlugChar(s[1]) {
        assert ("-" + CollapseRuns(s[1..]))[1..] == CollapseRuns(s[1..]);
      }
    }
  }

  /** A leading hyphen holds no letter or digit. */
  lemma DropHyphenFront(s: string)
    requires s != [] && s[0] == '-'
    ensures Alnum(s[1..]) == Alnum(s)
  {
  }

  /** Nor does a trailing one. */
  lemma DropHyphenBack(s: string)
    requires s != [] && s[|s| - 1] == '-'
    ensures Alnum(s[..|s| - 1]) == Alnum(s)
  {
    Lists.FilterAppend(s[..|s| - 1], [s[|s| - 1]], IsSlugChar);
    assert s == s[..|s| - 1] + [s[|s| - 1]];
  }

  lemma TrimHyphensKeepsAlnum(s: string)
    ensures Alnum(TrimHyphens(s)) == Alnum(s)
  {
    var a := if s != [] && s[0] == '-' then s[1..] else s;
    if s != [] && s[0] == '-' {
      DropHyphenFront(s);
    }
    if a != [] && a[|a| - 1] == '-' {
      DropHyphenBack(a);
    }
  }

  /**
   * The slug holds exactly the letters and digits of the lower-cased name,
   * in their order; everything else it holds is hyphens.
   */
  lemma GenerateSlugKeepsAlnum(name: string)
    ensures Alnum(GenerateSlug(name)) == Alnum(Lower(name))
  {
    CollapseRunsKeepsAlnum(Lower(name));
    TrimHyphensKeepsAlnum(CollapseRuns(Lower(name)));
  }

  /** Trimming a collapsed string leaves a well-formed slug. */
  lemma TrimHyphensIsSlug(s: string)
    requires SlugAlphabet(s) && NoDoubleHyphen(s)
    ensures IsSlug(TrimHyphens(s))
  {
    var a := if s != [] && s[0] == '-' then s[1..] else s;
    assert SlugAlphabet(a) && NoDoubleHyphen(a);
    assert a != [] ==> a[0] != '-' by {
      if s != [] && s[0] == '-' && a != [] {
        assert s[1] == a[0];
      }
    }
    if a != [] && a[|a| - 1] == '-' && |a| > 1 {
      assert a[|a| - 2] != '-';
    }
  }

  /**
   * Every slug is made only of `a`-`z`, `0`-`9` and `-`, has no two hyphens
   * in a row, and neither starts nor ends with a hyphen.
   */
  lemma GenerateSlugIsSlug(name: string)
    ensures IsSlug(GenerateSlug(name))
  {
    TrimHyphensIsSlug(CollapseRuns(Lower(name)));
  }

  /** A well-formed slug is left as it is by every step. */
  lemma {:induction false} CollapseRunsOfSlug(s: string)
    requires SlugAlphabet(s) && NoDoubleHyphen(s)
    ensures CollapseRuns(s) == s
    decreases |s|
  {
    if s != [] {
      assert SlugAlphabet(s[1..]) && NoDoubleHyphen(s[1..]);
      CollapseRunsOfSlug(s[1..]);
      if !IsSlugChar(s[0]) && |s| > 1 {
        assert s[0] == '-' && s[1] != '-';
      }
    }
  }

  lemma SlugIsFixedPoint(s: string)
    requires IsSlug(s)
    ensures GenerateSlug(s) == s
  {
    assert Lower(s) == s;
    CollapseRunsOfSlug(s);
  }

  /** `generateSlug` is idempotent. */
  lemma GenerateSlugIdempotent(name: string)
    ensures GenerateSlug(GenerateSlug(name)) == GenerateSlug(name)
  {
    GenerateSlugIsSlug(name);
    SlugIsFixedPoint(GenerateSlug(name));
  }
}
