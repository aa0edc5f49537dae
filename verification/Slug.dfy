/** The product slug's regular expression, `^[a-z0-9](-?[a-z0-9])*$`, and the strings it accepts. */
module Slug {
  /** Regular expressions over characters, as far as the slug pattern needs them. */
  datatype Re = Sym(allowed: set<char>) | Cat(first: Re, second: Re) | Opt(body: Re) | Star(body: Re)

  /** The whole text matches, as `^...$` demands. */
  predicate Matches(re: Re, s: string)
    decreases re, |s|
  {
    match re
    case Sym(allowed) => |s| == 1 && s[0] in allowed
    case Cat(a, b) => exists i :: 0 <= i <= |s| && Matches(a, s[..i]) && Matches(b, s[i..])
    case Opt(a) => s == "" || Matches(a, s)
    case Star(a) => s == "" || exists i :: 0 < i <= |s| && Matches(a, s[..i]) && Matches(re, s[i..])
  }

  predicate IsAlnum(c: char) {
    'a' <= c <= 'z' || '0' <= c <= '9'
  }

  const ALNUM := set c: char | IsAlnum(c)
  const GROUP := Cat(Opt(Sym({'-'})), Sym(ALNUM))
  const SLUG := Cat(Sym(ALNUM), Star(GROUP))

  /** Made of a-z, 0-9 and dash, with no dash at the end and no two in a row. */
  predicate CleanTail(s: string) {
    && (forall i :: 0 <= i < |s| ==> IsAlnum(s[i]) || s[i] == '-')
    && (s != "" ==> s[|s| - 1] != '-')
    && (forall i :: 0 < i < |s| ==> s[i - 1] != '-' || s[i] != '-')
  }

  lemma GroupMatches(s: string)
    ensures Matches(GROUP, s) <==> (|s| == 1 && IsAlnum(s[0])) || (|s| == 2 && s[0] == '-' && IsAlnum(s[1]))
  {
    if |s| == 1 && IsAlnum(s[0]) {
      assert s[0..] == s && s[..0] == "";
      assert Matches(Opt(Sym({'-'})), s[..0]) && Matches(Sym(ALNUM), s[0..]);
    }
    if |s| == 2 && s[0] == '-' && IsAlnum(s[1]) {
      assert s[..1][0] == '-' && s[1..][0] == s[1];
      assert Matches(Opt(Sym({'-'})), s[..1]) && Matches(Sym(ALNUM), s[1..]);
    }
    if Matches(GROUP, s) {
      var i :| 0 <= i <= |s| && Matches(Opt(Sym({'-'})), s[..i]) && Matches(Sym(ALNUM), s[i..]);
      assert s[i..][0] == s[i] && (i > 0 ==> Matches(Sym({'-'}), s[..i]));
    }
  }

  lemma {:induction false} TailMatches(s: string)
    ensures Matches(Star(GROUP), s) <==> CleanTail(s)
    decreases |s|
  {
    if s != "" {
      forall i | 0 < i <= |s| ensures Matches(GROUP, s[..i]) && Matches(Star(GROUP), s[i..]) ==> CleanTail(s) {
        GroupMatches(s[..i]);
        TailMatches(s[i..]);
        if Matches(GROUP, s[..i]) && CleanTail(s[i..]) { Joined(s, i); }
      }
      if CleanTail(s) {
        var i := if s[0] == '-' then 2 else 1;
        GroupMatches(s[..i]);
        assert CleanTail(s[i..]);
        TailMatches(s[i..]);
      }
    }
  }

  lemma Joined(s: string, i: nat)
    requires 1 <= i <= 2 && i <= |s| && IsAlnum(s[i - 1]) && (i == 2 ==> s[0] == '-') && CleanTail(s[i..])
    ensures CleanTail(s)
  {
    forall k | 0 <= k < |s| ensures IsAlnum(s[k]) || s[k] == '-' {
      if k >= i { assert s[k] == s[i..][k - i]; }
    }
    forall k | 0 < k < |s| ensures s[k - 1] != '-' || s[k] != '-' {
      if k > i { assert s[k] == s[i..][k - i] && s[k - 1] == s[i..][k - i - 1]; }
    }
    if |s| > i { assert s[|s| - 1] == s[i..][|s| - i - 1]; }
  }

  /** The pattern accepts exactly the non-empty strings of a-z, 0-9 and dash that neither start nor end with a dash
      nor have two in a row. */
  lemma SlugLanguage(s: string)
    ensures Matches(SLUG, s) <==> s != "" && s[0] != '-' && CleanTail(s)
  {
    if s != "" {
      TailMatches(s[1..]);
      if IsAlnum(s[0]) && CleanTail(s[1..]) {
        Joined(s, 1);
        assert s[..1][0] == s[0];
        assert Matches(Sym(ALNUM), s[..1]) && Matches(Star(GROUP), s[1..]);
      }
      if s[0] != '-' && CleanTail(s) {
        assert IsAlnum(s[0]) && CleanTail(s[1..]);
      }
    }
  }

  const MAX_LENGTH := 64

  predicate ValidateSlug(s: string) {
    1 <= |s| <= MAX_LENGTH && Matches(SLUG, s)
  }
}
