/**
  The category document's slug: on every save where the name was modified,
  the slug becomes the name lower-cased, with each run of characters outside
  `a-z0-9` replaced by a single '-', and one leading and one trailing '-'
  removed.

  Lower-casing is over ASCII; the Unicode case mappings of JavaScript's
  `toLowerCase` are not modelled.
 */
module CategoryModel {
  import opened Common

  datatype Category = Category(name: string, slug: Option<string>)

  predicate IsSlugChar(c: char) {
    'a' <= c <= 'z' || '0' <= c <= '9'
  }

  /** The characters a slug may hold. */
  ghost predicate SlugAlphabet(s: string) {
    forall k :: 0 <= k < |s| ==> IsSlugChar(s[k]) || s[k] == '-'
  }

  /** No two consecutive dashes. */
  ghost predicate NoDoubleDash(s: string) {
    forall k :: 0 <= k < |s| - 1 ==> !(s[k] == '-' && s[k + 1] == '-')
  }

  /** Neither the first nor the last character is a dash. */
  ghost predicate NoEdgeDash(s: string) {
    s != [] ==> s[0] != '-' && s[|s| - 1] != '-'
  }

  function LowerChar(c: char): (r: char)
    ensures 'A' <= c <= 'Z' ==> 'a' <= r <= 'z'
    ensures !('A' <= c <= 'Z') ==> r == c
  {
    if 'A' <= c <= 'Z' then (c as int - 'A' as int + 'a' as int) as char else c
  }

  /** `toLowerCase` over ASCII. */
  function ToLower(s: string): (r: string)
    ensures |r| == |s|
    ensures forall k :: 0 <= k < |s| ==> r[k] == LowerChar(s[k])
  {
    seq(|s|, k requires 0 <= k < |s| => LowerChar(s[k]))
  }

  /** The input with its leading run of non-slug characters removed. */
  function SkipRun(s: string): (r: string)
    ensures |r| <= |s| && r == s[|s| - |r|..]
    ensures r != [] ==> IsSlugChar(r[0])
    ensures (forall k :: 0 <= k < |s| ==> !IsSlugChar(s[k])) ==> r == []
  {
    if s != [] && !IsSlugChar(s[0]) then
      var r := SkipRun(s[1..]);
      assert s[1..][|s| - 1 - |r|..] == s[|s| - |r|..];
      assert forall k :: 0 <= k < |s| - 1 ==> s[1..][k] == s[k + 1];
      r
    else s
  }

  /** `.replace(/[^a-z0-9]+/g, '-')`: every maximal run of non-slug characters becomes one dash. */
  function Dasherize(s: string): (r: string)
    ensures SlugAlphabet(r)
    decreases |s|
  {
    if s == [] then []
    else if IsSlugChar(s[0]) then [s[0]] + Dasherize(s[1..])
    else ['-'] + Dasherize(SkipRun(s[1..]))
  }

  /** The dash replacement keeps a leading slug character and never emits two dashes in a row. */
  lemma {:induction false} DasherizeShape(s: string)
    ensures s != [] ==> Dasherize(s) != [] && (IsSlugChar(s[0]) ==> Dasherize(s)[0] == s[0])
    ensures NoDoubleDash(Dasherize(s))
    decreases |s|
  {
    if s != [] {
      var r := Dasherize(s);
      var t := if IsSlugChar(s[0]) then s[1..] else SkipRun(s[1..]);
      var rest := Dasherize(t);
      DasherizeShape(t);
      assert r == [r[0]] + rest;
      forall k | 0 <= k < |r| - 1 ensures !(r[k] == '-' && r[k + 1] == '-') {
        if k == 0 {
          if r[0] == '-' {
            assert !IsSlugChar(s[0]);
            assert t != [] ==> IsSlugChar(t[0]);
            assert r[1] == rest[0] == t[0];
          }
        } else {
          assert r[k] == rest[k - 1] && r[k + 1] == rest[k];
        }
      }
    }
  }

  /** `.replace(/(^-|-$)/g, '')`: drop one leading and one trailing dash. */
  function TrimDashes(s: string): (r: string)
    ensures |r| <= |s|
    ensures SlugAlphabet(s) ==> SlugAlphabet(r)
    ensures NoDoubleDash(s) ==> NoDoubleDash(r) && NoEdgeDash(r)
  {
    var a := if s != [] && s[0] == '-' then s[1..] else s;
    var b := if a != [] && a[|a| - 1] == '-' then a[..|a| - 1] else a;
    assert NoDoubleDash(s) ==> NoDoubleDash(a) by {
      if NoDoubleDash(s) && s != [] && s[0] == '-' {
        forall k | 0 <= k < |a| - 1 ensures !(a[k] == '-' && a[k + 1] == '-') {
          assert a[k] == s[k + 1] && a[k + 1] == s[k + 2];
        }
      }
    }
    assert NoDoubleDash(s) && a != [] ==> a[0] != '-' by {
      if NoDoubleDash(s) && a != [] && s[0] == '-' {
        assert a[0] == s[1];
      }
    }
    b
  }

  /** The slug of a category name. */
  function Slugify(name: string): (r: string)
    ensures SlugAlphabet(r) && NoDoubleDash(r) && NoEdgeDash(r)
  {
    DasherizeShape(ToLower(name));
    TrimDashes(Dasherize(ToLower(name)))
  }

  /** The pre-save hook: recompute the slug when the name was modified, else leave it. */
  function PreSave(c: Category, nameModified: bool): (r: Category)
    ensures r.name == c.name
    ensures nameModified ==> r.slug == Some(Slugify(c.name))
    ensures !nameModified ==> r.slug == c.slug
  {
    if nameModified then c.(slug := Some(Slugify(c.name))) else c
  }

  // ---------------------------------------------------------------------------
  // Properties of the slug
  // ---------------------------------------------------------------------------

  /** A string of slug characters and single dashes passes the dash replacement unchanged. */
  lemma {:induction false} DasherizeOfSlugForm(s: string)
    requires SlugAlphabet(s) && NoDoubleDash(s)
    ensures Dasherize(s) == s
    decreases |s|
  {
    if s != [] {
      var t := s[1..];
      assert SlugAlphabet(t) && NoDoubleDash(t) by {
        forall k | 0 <= k < |t| ensures t[k] == s[k + 1] {
        }
      }
      if !IsSlugChar(s[0]) {
        assert t != [] ==> IsSlugChar(t[0]) by {
          if t != [] {
            assert s[0] == '-' && t[0] == s[1];
          }
        }
        assert SkipRun(t) == t;
      }
      DasherizeOfSlugForm(t);
    }
  }

  /** Lower-casing leaves a slug unchanged. */
  lemma LowerOfSlug(s: string)
    requires SlugAlphabet(s)
    ensures ToLower(s) == s
  {
  }

  /** Slugifying a slug gives the same slug. */
  lemma SlugifyIdempotent(name: string)
    ensures Slugify(Slugify(name)) == Slugify(name)
  {
    var s := Slugify(name);
    LowerOfSlug(s);
    DasherizeOfSlugForm(s);
  }

  /** A name without any ASCII letter or digit gives the empty slug. */
  lemma NoAlphanumericNoSlug(name: string)
    requires forall k :: 0 <= k < |name| ==> !('a' <= name[k] <= 'z' || 'A' <= name[k] <= 'Z' || '0' <= name[k] <= '9')
    ensures Slugify(name) == ""
  {
    var l := ToLower(name);
    assert forall k :: 0 <= k < |l| ==> !IsSlugChar(l[k]);
    if l != [] {
      assert forall k :: 0 <= k < |l[1..]| ==> !IsSlugChar(l[1..][k]);
      assert SkipRun(l[1..]) == [];
      assert Dasherize(l) == ['-'];
    }
  }

  // ---------------------------------------------------------------------------
  // What the slug keeps of the name
  // ---------------------------------------------------------------------------

  /** The slug characters of `s`, in order: what survives of a name in its slug. */
  function SlugChars(s: string): (r: string)
    ensures |r| <= |s|
  {
    if s == [] then [] else (if IsSlugChar(s[0]) then [s[0]] else []) + SlugChars(s[1..])
  }

  lemma {:induction false} SlugCharsOfConcat(a: string, b: string)
    ensures SlugChars(a + b) == SlugChars(a) + SlugChars(b)
    decreases |a|
  {
    if a != [] {
      assert (a + b)[0] == a[0] && (a + b)[1..] == a[1..] + b;
      SlugCharsOfConcat(a[1..], b);
    } else {
      assert a + b == b;
    }
  }

  /** A string holding a slug character keeps at least one. */
  lemma {:induction false} SlugCharsNonEmpty(s: string, k: nat)
    requires k < |s| && IsSlugChar(s[k])
    ensures SlugChars(s) != []
    decreases k
  {
    if k > 0 && !IsSlugChar(s[0]) {
      SlugCharsNonEmpty(s[1..], k - 1);
    }
  }

  /** A leading run of other characters holds no slug character. */
  lemma {:induction false} SkipRunKeepsSlugChars(s: string)
    ensures SlugChars(SkipRun(s)) == SlugChars(s)
    decreases |s|
  {
    if s != [] && !IsSlugChar(s[0]) {
      SkipRunKeepsSlugChars(s[1..]);
    }
  }

  /** The dash replacement keeps every slug character, in order, and adds none. */
  lemma {:induction false} DasherizeKeepsSlugChars(s: string)
    ensures SlugChars(Dasherize(s)) == SlugChars(s)
    decreases |s|
  {
    if s != [] {
      if IsSlugChar(s[0]) {
        DasherizeKeepsSlugChars(s[1..]);
        SlugCharsOfConcat([s[0]], Dasherize(s[1..]));
      } else {
        var t := SkipRun(s[1..]);
        DasherizeKeepsSlugChars(t);
        SkipRunKeepsSlugChars(s[1..]);
        SlugCharsOfConcat(['-'], Dasherize(t));
      }
    }
  }

  /** Trimming the edge dashes keeps every slug character. */
  lemma TrimDashesKeepsSlugChars(s: string)
    ensures SlugChars(TrimDashes(s)) == SlugChars(s)
  {
    var a := if s != [] && s[0] == '-' then s[1..] else s;
    if s != [] && s[0] == '-' {
      SlugCharsOfConcat([s[0]], a);
      assert s == [s[0]] + a;
    }
    if a != [] && a[|a| - 1] == '-' {
      var b := a[..|a| - 1];
      SlugCharsOfConcat(b, [a[|a| - 1]]);
      assert a == b + [a[|a| - 1]];
    }
  }

  /** The slug holds exactly the name's letters and digits, lower-cased and in order. */
  lemma SlugifyKeepsLetters(name: string)
    ensures SlugChars(Slugify(name)) == SlugChars(ToLower(name))
  {
    DasherizeKeepsSlugChars(ToLower(name));
    TrimDashesKeepsSlugChars(Dasherize(ToLower(name)));
  }

  /** A name holding an ASCII letter or digit has a non-empty slug. */
  lemma AlphanumericGivesSlug(name: string, k: nat)
    requires k < |name| && ('a' <= name[k] <= 'z' || 'A' <= name[k] <= 'Z' || '0' <= name[k] <= '9')
    ensures Slugify(name) != ""
  {
    SlugCharsNonEmpty(ToLower(name), k);
    SlugifyKeepsLetters(name);
  }
}
