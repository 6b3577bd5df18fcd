/** The URL slug the category pages derive from a name: lower-case it, turn every run of
    characters outside [a-z0-9] into one '-', then drop a '-' at either end. Also the
    format check `^[a-z0-9-]+$` that `validate` applies to a slug. */
module Slug {
  import opened Text

  predicate IsSlugWordChar(c: char) { IsAsciiLower(c) || IsDigit(c) }

  /** The character class `[a-z0-9-]`. */
  predicate IsSlugChar(c: char) { IsSlugWordChar(c) || c == '-' }

  /** `/^[a-z0-9-]+$/.test(s)`. */
  predicate SlugFormat(s: string)
  {
    |s| > 0 && forall i :: 0 <= i < |s| ==> IsSlugChar(s[i])
  }

  predicate InAlphabet(s: string)
  {
    forall i :: 0 <= i < |s| ==> IsSlugChar(s[i])
  }

  predicate NoDoubleHyphen(s: string)
  {
    forall i :: 0 <= i < |s| - 1 ==> !(s[i] == '-' && s[i + 1] == '-')
  }

  predicate NoEdgeHyphen(s: string)
  {
    |s| > 0 ==> s[0] != '-' && s[|s| - 1] != '-'
  }

  /** The rest of a run of characters outside [a-z0-9]. */
  function SkipRun(s: string): (r: string)
    ensures |r| <= |s|
    ensures r == [] || IsSlugWordChar(r[0])
    ensures forall i :: 0 <= i < |s| - |r| ==> !IsSlugWordChar(s[i])
    ensures r == s[|s| - |r|..]
  {
    if s == [] || IsSlugWordChar(s[0]) then s else SkipRun(s[1..])
  }

  /** `.replace(/[^a-z0-9]+/g, '-')`. */
  function CollapseRuns(s: string): (r: string)
    ensures InAlphabet(r) && NoDoubleHyphen(r)
    ensures r == [] <==> s == []
    ensures |r| > 0 ==> (r[0] == '-' <==> !IsSlugWordChar(s[0]))
    decreases |s|
  {
    if s == [] then []
    else if IsSlugWordChar(s[0]) then [s[0]] + CollapseRuns(s[1..])
    else "-" + CollapseRuns(SkipRun(s[1..]))
  }

  /** `.replace(/(^-|-$)/g, '')` on a string without doubled hyphens. */
  function TrimHyphens(s: string): (r: string)
    requires InAlphabet(s) && NoDoubleHyphen(s)
    ensures InAlphabet(r) && NoDoubleHyphen(r) && NoEdgeHyphen(r)
    ensures NoEdgeHyphen(s) ==> r == s
  {
    var a := if |s| > 0 && s[0] == '-' then s[1..] else s;
    assert |a| > 0 ==> a[0] != '-' by {
      if |s| > 0 && s[0] == '-' && |a| > 0 {
        assert a[0] == s[1];
      }
    }
    if |a| > 0 && a[|a| - 1] == '-' then
      var b := a[..|a| - 1];
      assert |b| > 0 ==> b[|b| - 1] == a[|a| - 2];
      b
    else a
  }

  /** The slug derived from a category name. */
  function Slugify(name: string): (slug: string)
    ensures InAlphabet(slug)
    ensures NoEdgeHyphen(slug)
    ensures NoDoubleHyphen(slug)
  {
    TrimHyphens(CollapseRuns(LowerStr(name)))
  }

  /** Every generated slug that is not empty passes the page's own format check. */
  lemma NonEmptySlugPassesFormat(name: string)
    requires Slugify(name) != ""
    ensures SlugFormat(Slugify(name))
  {
  }

  /** A name made only of lower-case letters and digits is its own slug. */
  lemma {:induction false} AlnumNameIsItsOwnSlug(name: string)
    requires forall i :: 0 <= i < |name| ==> IsAsciiLower(name[i]) || IsDigit(name[i])
    ensures Slugify(name) == name
    ensures name != "" ==> SlugFormat(Slugify(name))
  {
    LowerIdentity(name);
    CollapseIdentity(name);
  }

  lemma {:induction false} LowerIdentity(s: string)
    requires forall i :: 0 <= i < |s| ==> !IsAsciiUpper(s[i])
    ensures LowerStr(s) == s
  {
    assert forall i :: 0 <= i < |s| ==> LowerStr(s)[i] == s[i];
  }

  /** A string that is already a slug is kept by the run collapse. */
  lemma {:induction false} CollapseIdentity(s: string)
    requires InAlphabet(s) && NoDoubleHyphen(s)
    ensures CollapseRuns(s) == s
    decreases |s|
  {
    if s != [] {
      if IsSlugWordChar(s[0]) {
        CollapseIdentity(s[1..]);
        assert s == [s[0]] + s[1..];
      } else {
        assert s[0] == '-';
        var t := s[1..];
        assert t == [] || IsSlugWordChar(t[0]);
        assert SkipRun(t) == t;
        CollapseIdentity(t);
        assert s == "-" + t;
      }
    }
  }

  /** Slugifying a slug changes nothing. */
  lemma SlugifyIdempotent(name: string)
    ensures Slugify(Slugify(name)) == Slugify(name)
  {
    var s := Slugify(name);
    LowerIdentity(s);
    CollapseIdentity(s);
  }

  /** Upper and lower case give the same slug. */
  lemma SlugIgnoresCase(name: string)
    ensures Slugify(LowerStr(name)) == Slugify(name)
  {
    LowerStrIdempotent(name);
  }
}
