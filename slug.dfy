/**
 * The profile-handle slugifier: lower-case the input, turn every run of
 * characters other than `a-z`/`0-9` into one `-`, strip dashes from both ends
 * and squash repeated dashes; the base handle is the first 20 characters of
 * the slug, or "user" when the slug is empty.
 *
 * Lower-casing is modelled on ASCII letters only.
 */
module Slug {
  import opened Seqs
  import opened Strings

  predicate IsSlugChar(c: char) { IsAsciiLower(c) || IsDigit(c) }

  /** Only letters, digits and dashes, and never two dashes in a row. */
  predicate Dashed(s: string)
  {
    && (forall i :: 0 <= i < |s| ==> IsSlugChar(s[i]) || s[i] == '-')
    && (forall i :: 0 < i < |s| ==> s[i - 1] != '-' || s[i] != '-')
  }

  /** A finished slug: `Dashed`, and no dash at either end. */
  predicate IsSlug(s: string)
  {
    Dashed(s) && (s == [] || (s[0] != '-' && s[|s| - 1] != '-'))
  }

  /** `.replace(/[^a-z0-9]+/g, "-")`: a maximal run of other characters becomes one `-`. */
  function DashRuns(s: string): string
    decreases |s|
  {
    if s == [] then []
    else if IsSlugChar(s[0]) then [s[0]] + DashRuns(s[1..])
    else if |s| > 1 && !IsSlugChar(s[1]) then DashRuns(s[1..])
    else ['-'] + DashRuns(s[1..])
  }

  /** The `^-+` half of `.replace(/^-+|-+$/g, "")`. */
  function DropLeadingDashes(s: string): (r: string)
    ensures |r| <= |s| && r == s[|s| - |r|..]
    ensures r == [] || r[0] != '-'
    ensures forall i :: 0 <= i < |s| - |r| ==> s[i] == '-'
  {
    if s != [] && s[0] == '-' then DropLeadingDashes(s[1..]) else s
  }

  /** The `-+$` half of `.replace(/^-+|-+$/g, "")`. */
  function DropTrailingDashes(s: string): (r: string)
    ensures |r| <= |s| && r == s[..|r|]
    ensures r == [] || r[|r| - 1] != '-'
    ensures forall i :: |r| <= i < |s| ==> s[i] == '-'
  {
    if s != [] && s[|s| - 1] == '-' then DropTrailingDashes(s[..|s| - 1]) else s
  }

  function TrimDashes(s: string): string
  {
    DropTrailingDashes(DropLeadingDashes(s))
  }

  /** `.replace(/--+/g, "-")` */
  function SquashDashes(s: string): string
    decreases |s|
  {
    if s == [] then []
    else if s[0] == '-' && |s| > 1 && s[1] == '-' then SquashDashes(s[1..])
    else [s[0]] + SquashDashes(s[1..])
  }

  /** `slugify(input)` */
  function Slugify(input: string): string
  {
    SquashDashes(TrimDashes(DashRuns(Lower(input))))
  }

  // ---------------------------------------------------------------- the shape of a slug

  lemma {:induction false} DashRunsDashed(s: string)
    ensures Dashed(DashRuns(s))
    ensures DashRuns(s) != [] && DashRuns(s)[0] == '-' <==> s != [] && !IsSlugChar(s[0])
    decreases |s|
  {
    if s != [] {
      DashRunsDashed(s[1..]);
      var rest := DashRuns(s[1..]);
      var r := DashRuns(s);
      if IsSlugChar(s[0]) {
        assert r == [s[0]] + rest;
        forall i | 0 < i < |r| ensures r[i - 1] != '-' || r[i] != '-' {
          if i > 1 {
            assert r[i - 1] == rest[i - 2] && r[i] == rest[i - 1];
          }
        }
      } else if |s| > 1 && !IsSlugChar(s[1]) {
      } else {
        assert r == ['-'] + rest;
        forall i | 0 < i < |r| ensures r[i - 1] != '-' || r[i] != '-' {
          if i > 1 {
            assert r[i - 1] == rest[i - 2] && r[i] == rest[i - 1];
          }
        }
      }
    }
  }

  /** A slice of a `Dashed` string is `Dashed`. */
  lemma DashedSlice(s: string, a: nat, b: nat)
    requires a <= b <= |s| && Dashed(s)
    ensures Dashed(s[a..b])
  {
    var t := s[a..b];
    forall i | 0 < i < |t| ensures t[i - 1] != '-' || t[i] != '-' {
      assert t[i - 1] == s[a + i - 1] && t[i] == s[a + i];
    }
  }

  lemma {:induction false} SquashDashedUnchanged(s: string)
    requires Dashed(s)
    ensures SquashDashes(s) == s
    decreases |s|
  {
    if s != [] {
      DashedSlice(s, 1, |s|);
      SquashDashedUnchanged(s[1..]);
      if |s| > 1 {
        assert s[0] != '-' || s[1] != '-';
      }
    }
  }

  /** `slugify` yields only `a-z`, `0-9` and `-`, with no dash at either end and no two in a row. */
  lemma SlugifyIsSlug(input: string)
    ensures IsSlug(Slugify(input))
  {
    var d := DashRuns(Lower(input));
    DashRunsDashed(Lower(input));
    var lead := DropLeadingDashes(d);
    DashedSlice(d, |d| - |lead|, |d|);
    var t := DropTrailingDashes(lead);
    DashedSlice(lead, 0, |t|);
    SquashDashedUnchanged(t);
    if t != [] {
      assert t[0] == lead[0];
    }
  }

  /** The last replacement never has anything to do: runs were already single dashes. */
  lemma SquashIsRedundant(input: string)
    ensures Slugify(input) == TrimDashes(DashRuns(Lower(input)))
  {
    var d := DashRuns(Lower(input));
    DashRunsDashed(Lower(input));
    var lead := DropLeadingDashes(d);
    DashedSlice(d, |d| - |lead|, |d|);
    var t := DropTrailingDashes(lead);
    DashedSlice(lead, 0, |t|);
    SquashDashedUnchanged(t);
  }

  // ---------------------------------------------------------------- fixed points

  lemma {:induction false} DashRunsOfDashed(s: string)
    requires Dashed(s)
    ensures DashRuns(s) == s
    decreases |s|
  {
    if s != [] {
      DashedSlice(s, 1, |s|);
      DashRunsOfDashed(s[1..]);
      if !IsSlugChar(s[0]) && |s| > 1 {
        assert s[0] == '-' && s[1] != '-';
      }
    }
  }

  lemma LowerOfDashed(s: string)
    requires Dashed(s)
    ensures Lower(s) == s
  {
  }

  /** A slug is its own slug. */
  lemma SlugFixed(s: string)
    requires IsSlug(s)
    ensures Slugify(s) == s
  {
    LowerOfDashed(s);
    DashRunsOfDashed(s);
    SquashDashedUnchanged(s);
  }

  /** `slugify(slugify(x)) == slugify(x)` */
  lemma SlugifyIdempotent(input: string)
    ensures Slugify(Slugify(input)) == Slugify(input)
  {
    SlugifyIsSlug(input);
    SlugFixed(Slugify(input));
  }

  /** Lower-case letters and digits come through untouched. */
  lemma SlugifyAlphanumeric(s: string)
    requires forall i :: 0 <= i < |s| ==> IsSlugChar(s[i])
    ensures Slugify(s) == s
  {
    SlugFixed(s);
  }

  // ---------------------------------------------------------------- what is kept

  lemma {:induction false} DashRunsKeeps(s: string)
    ensures Filter(DashRuns(s), IsSlugChar) == Filter(s, IsSlugChar)
    decreases |s|
  {
    if s != [] {
      DashRunsKeeps(s[1..]);
      FilterFront(s, IsSlugChar);
      var rest := DashRuns(s[1..]);
      if IsSlugChar(s[0]) {
        FilterCons(s[0], rest, IsSlugChar);
      } else if |s| > 1 && !IsSlugChar(s[1]) {
      } else {
        FilterCons('-', rest, IsSlugChar);
      }
    }
  }

  /** Dropping dashes from either end keeps every letter and digit. */
  lemma {:induction false} DropLeadingKeeps(s: string)
    ensures Filter(DropLeadingDashes(s), IsSlugChar) == Filter(s, IsSlugChar)
    decreases |s|
  {
    if s != [] && s[0] == '-' {
      DropLeadingKeeps(s[1..]);
      FilterFront(s, IsSlugChar);
      assert !IsSlugChar(s[0]);
      assert [] + Filter(s[1..], IsSlugChar) == Filter(s[1..], IsSlugChar);
    }
  }

  lemma {:induction false} DropTrailingKeeps(s: string)
    ensures Filter(DropTrailingDashes(s), IsSlugChar) == Filter(s, IsSlugChar)
    decreases |s|
  {
    if s != [] && s[|s| - 1] == '-' {
      DropTrailingKeeps(s[..|s| - 1]);
    }
  }

  /** Every letter and digit of the lower-cased input survives, in order, and nothing else but dashes. */
  lemma SlugifyKeeps(input: string)
    ensures Filter(Slugify(input), IsSlugChar) == Filter(Lower(input), IsSlugChar)
  {
    SquashIsRedundant(input);
    var d := DashRuns(Lower(input));
    DashRunsKeeps(Lower(input));
    DropLeadingKeeps(d);
    DropTrailingKeeps(DropLeadingDashes(d));
  }

  // ---------------------------------------------------------------- the base handle

  /** `slugify(base).slice(0, 20) || "user"` */
  function BaseHandle(base: string): (h: string)
    ensures 0 < |h| <= 20
    ensures Slugify(base) == [] ==> h == "user"
    ensures Slugify(base) != [] ==> h == Slugify(base)[..if |Slugify(base)| < 20 then |Slugify(base)| else 20]
  {
    var slug := Slugify(base);
    var cut := slug[..if |slug| < 20 then |slug| else 20];
    if cut == [] then "user" else cut
  }

  /** The handle is a prefix of a slug or "user": it never starts with a dash. */
  lemma BaseHandleShape(base: string)
    ensures Dashed(BaseHandle(base)) && BaseHandle(base)[0] != '-'
  {
    var slug := Slugify(base);
    var h := BaseHandle(base);
    if slug != [] {
      SlugifyIsSlug(base);
      DashedSlice(slug, 0, |h|);
      assert h[0] == slug[0];
    } else {
      UserIsSlug();
    }
  }

  lemma UserIsSlug()
    ensures IsSlug("user")
  {
    var u := "user";
    assert u[0] == 'u' && u[1] == 's' && u[2] == 'e' && u[3] == 'r';
    assert forall i :: 0 <= i < 4 ==> IsSlugChar(u[i]);
  }

  /** It may end with one, when the cut falls just after a dash. */
  lemma BaseHandleMayEndInDash()
    ensures BaseHandle("aaaaaaaaaaaaaaaaaaa-a") == "aaaaaaaaaaaaaaaaaaa-"
  {
    var s := "aaaaaaaaaaaaaaaaaaa-a";
    assert IsSlug(s) by {
      assert forall i :: 0 <= i < |s| && i != 19 ==> s[i] == 'a';
    }
    SlugFixed(s);
  }
}
