/**
  The project-name slug the payment webhook derives from a company name
  (the inner `slugify` of the webhook handler), and the unique project name
  built from it and a random base-36 disambiguator.
*/
module Slug {
  import opened Text

  /** The characters a slug may hold: `[a-z0-9_-]`. */
  predicate IsSlugChar(c: char) { IsLowerOrDigit(c) || c == '_' || c == '-' }

  predicate SlugChars(s: string) { forall i :: 0 <= i < |s| ==> IsSlugChar(s[i]) }
  predicate NoDoubleHyphen(s: string) { forall i :: 0 <= i < |s| - 1 ==> !(s[i] == '-' && s[i + 1] == '-') }

  /** A well-formed slug: slug characters only, no `-` at either end, no `--`. */
  predicate IsSlug(s: string) {
    && SlugChars(s)
    && NoDoubleHyphen(s)
    && (s != [] ==> s[0] != '-' && s[|s| - 1] != '-')
  }

  /** Predicates on strings used in the step-by-step proofs. */
  predicate NoSpace(s: string) { forall i :: 0 <= i < |s| ==> !IsSpace(s[i]) }
  predicate NoWord(s: string) { forall i :: 0 <= i < |s| ==> !IsWordChar(s[i]) }
  predicate AllHyphens(s: string) { forall i :: 0 <= i < |s| ==> s[i] == '-' }

  predicate IsNotHyphen(c: char) { c != '-' }

  /** The characters of `s` that satisfy `p`, in order. */
  function Filter(s: string, p: char -> bool): (r: string)
    ensures |r| <= |s|
    ensures forall i :: 0 <= i < |r| ==> p(r[i])
  {
    if s == [] then []
    else if p(s[0]) then [s[0]] + Filter(s[1..], p)
    else Filter(s[1..], p)
  }

  lemma FilterCons(c: char, t: string, p: char -> bool)
    ensures Filter([c] + t, p) == if p(c) then [c] + Filter(t, p) else Filter(t, p)
  {
    assert ([c] + t)[1..] == t;
  }

  lemma {:induction false} FilterAppend(a: string, b: string, p: char -> bool)
    ensures Filter(a + b, p) == Filter(a, p) + Filter(b, p)
  {
    if a != [] {
      assert (a + b)[1..] == a[1..] + b;
      FilterAppend(a[1..], b, p);
    } else {
      assert a + b == b;
    }
  }

  lemma {:induction false} FilterNone(s: string, p: char -> bool)
    requires forall i :: 0 <= i < |s| ==> !p(s[i])
    ensures Filter(s, p) == []
  {
    if s != [] { FilterNone(s[1..], p); }
  }

  /** Dropping a prefix (or a suffix) in which no character satisfies `p` keeps the filtered characters. */
  lemma DropPrefixFilter(s: string, k: nat, p: char -> bool)
    requires k <= |s| && forall i :: 0 <= i < k ==> !p(s[i])
    ensures Filter(s[k..], p) == Filter(s, p)
  {
    assert s == s[..k] + s[k..];
    FilterAppend(s[..k], s[k..], p);
    FilterNone(s[..k], p);
  }

  lemma DropSuffixFilter(s: string, k: nat, p: char -> bool)
    requires k <= |s| && forall i :: k <= i < |s| ==> !p(s[i])
    ensures Filter(s[..k], p) == Filter(s, p)
  {
    assert s == s[..k] + s[k..];
    FilterAppend(s[..k], s[k..], p);
    FilterNone(s[k..], p);
  }

  /** Drops the leading run of white space (used by `replace(/\s+/g, '-')`). */
  function DropSpaces(s: string): (r: string)
    ensures |r| <= |s| && r == s[|s| - |r|..]
    ensures r != [] ==> !IsSpace(r[0])
    ensures forall i :: 0 <= i < |s| - |r| ==> IsSpace(s[i])
  {
    if s != [] && IsSpace(s[0]) then DropSpaces(s[1..]) else s
  }

  /**
    `replace(/\s+/g, '-')`: every maximal run of white space becomes one `-`.
    `SpacesToHyphenWord` and `SpacesToHyphenRun` state this run by run.
  */
  function SpacesToHyphen(s: string): (r: string)
    ensures |r| <= |s|
    ensures s != [] ==> r != [] && r[0] == (if IsSpace(s[0]) then '-' else s[0])
    decreases |s|
  {
    if s == [] then []
    else if IsSpace(s[0]) then ['-'] + SpacesToHyphen(DropSpaces(s[1..]))
    else [s[0]] + SpacesToHyphen(s[1..])
  }

  predicate WordOrHyphen(s: string) { forall i :: 0 <= i < |s| ==> IsWordChar(s[i]) || s[i] == '-' }

  /** `replace(/[^\w-]+/g, '')`: every character other than `\w` and `-` is removed, and a text of those loses nothing. */
  function StripNonWord(s: string): (r: string)
    ensures |r| <= |s| && WordOrHyphen(r)
    ensures WordOrHyphen(s) ==> r == s
  {
    if s == [] then []
    else if IsWordChar(s[0]) || s[0] == '-' then [s[0]] + StripNonWord(s[1..])
    else StripNonWord(s[1..])
  }

  /** Drops the leading run of `-`. */
  function DropHyphens(s: string): (r: string)
    ensures |r| <= |s| && r == s[|s| - |r|..]
    ensures r != [] ==> r[0] != '-'
    ensures forall i :: 0 <= i < |s| - |r| ==> s[i] == '-'
  {
    if s != [] && s[0] == '-' then DropHyphens(s[1..]) else s
  }

  /** `replace(/--+/g, '-')`: every run of two or more `-` becomes one `-`. */
  function CollapseHyphens(s: string): (r: string)
    ensures s != [] ==> r != [] && r[0] == s[0]
    ensures Filter(r, IsNotHyphen) == Filter(s, IsNotHyphen)
    decreases |s|
  {
    if s == [] then []
    else if s[0] == '-' then
      var t := DropHyphens(s[1..]);
      var rest := CollapseHyphens(t);
      FilterCons('-', rest, IsNotHyphen);
      FilterCons('-', s[1..], IsNotHyphen);
      DropPrefixFilter(s[1..], |s| - 1 - |t|, IsNotHyphen);
      ['-'] + rest
    else
      var rest := CollapseHyphens(s[1..]);
      FilterCons(s[0], rest, IsNotHyphen);
      FilterCons(s[0], s[1..], IsNotHyphen);
      [s[0]] + rest
  }

  /** `replace(/-+$/, '')`. */
  function DropTrailingHyphens(s: string): (r: string)
    ensures |r| <= |s| && r == s[..|r|]
    ensures r != [] ==> r[|r| - 1] != '-'
    ensures forall i :: |r| <= i < |s| ==> s[i] == '-'
  {
    if s != [] && s[|s| - 1] == '-' then DropTrailingHyphens(s[..|s| - 1]) else s
  }

  /**
    The webhook's `slugify`: lower-case, trim, white space to `-`, strip, collapse, trim `-`.
    The result is a well-formed slug, and its word characters are those of the lower-cased
    name, in order: only white space and other punctuation is lost.
  */
  function Slugify(text: string): (r: string)
    ensures IsSlug(r)
    ensures Filter(r, IsWordChar) == Filter(Lower(text), IsWordChar)
  {
    var a := Trim(Lower(text));
    var b := SpacesToHyphen(a);
    var c := StripNonWord(b);
    var d := CollapseHyphens(c);
    var e := DropHyphens(d);
    var f := DropTrailingHyphens(e);
    SlugSteps(Lower(text));
    WordCharSteps(Lower(text));
    CollapseHyphensWordChars(c);
    EndHyphensWordChars(d);
    EndHyphensWordChars(e);
    f
  }

  // ---------------------------------------------------------------------------
  // Each step keeps what the earlier steps established.

  /** A suffix of a string keeps every per-character property of it. */
  lemma SuffixKeeps(s: string, t: string)
    requires |t| <= |s| && t == s[|s| - |t|..]
    ensures NoUpper(s) ==> NoUpper(t)
    ensures NoWord(s) ==> NoWord(t)
    ensures SlugChars(s) ==> SlugChars(t)
  {
    forall i | 0 <= i < |t| ensures t[i] == s[|s| - |t| + i] { }
  }

  /** A character in front of a string, for each per-character property. */
  lemma ConsNoUpper(c: char, r: string)
    requires !IsUpper(c) && NoUpper(r)
    ensures NoUpper([c] + r)
  {
    assert forall i :: 1 <= i < |[c] + r| ==> ([c] + r)[i] == r[i - 1];
  }

  lemma ConsNoWord(c: char, r: string)
    requires !IsWordChar(c) && NoWord(r)
    ensures NoWord([c] + r)
  {
    assert forall i :: 1 <= i < |[c] + r| ==> ([c] + r)[i] == r[i - 1];
  }

  lemma ConsNoSpace(c: char, r: string)
    requires !IsSpace(c) && NoSpace(r)
    ensures NoSpace([c] + r)
  {
    assert forall i :: 1 <= i < |[c] + r| ==> ([c] + r)[i] == r[i - 1];
  }

  lemma ConsSlugChars(c: char, r: string)
    requires IsSlugChar(c) && SlugChars(r)
    ensures SlugChars([c] + r)
  {
    assert forall i :: 1 <= i < |[c] + r| ==> ([c] + r)[i] == r[i - 1];
  }

  /** A character in front of a string without `--` adds none unless it is a `-` before a `-`. */
  lemma ConsNoDouble(c: char, r: string)
    requires NoDoubleHyphen(r) && (c == '-' && r != [] ==> r[0] != '-')
    ensures NoDoubleHyphen([c] + r)
  {
    var s := [c] + r;
    assert forall i :: 1 <= i < |s| ==> s[i] == r[i - 1];
  }

  lemma {:induction false} SpacesToHyphenNoSpace(s: string)
    ensures NoSpace(SpacesToHyphen(s))
    decreases |s|
  {
    if s == [] {
    } else if IsSpace(s[0]) {
      var t := DropSpaces(s[1..]);
      SpacesToHyphenNoSpace(t);
      ConsNoSpace('-', SpacesToHyphen(t));
    } else {
      SpacesToHyphenNoSpace(s[1..]);
      ConsNoSpace(s[0], SpacesToHyphen(s[1..]));
    }
  }

  lemma {:induction false} SpacesToHyphenNoUpper(s: string)
    requires NoUpper(s)
    ensures NoUpper(SpacesToHyphen(s))
    decreases |s|
  {
    if s == [] {
    } else if IsSpace(s[0]) {
      var t := DropSpaces(s[1..]);
      SuffixKeeps(s, t);
      SpacesToHyphenNoUpper(t);
      ConsNoUpper('-', SpacesToHyphen(t));
    } else {
      SuffixKeeps(s, s[1..]);
      SpacesToHyphenNoUpper(s[1..]);
      ConsNoUpper(s[0], SpacesToHyphen(s[1..]));
    }
  }

  lemma {:induction false} SpacesToHyphenNoWord(s: string)
    requires NoWord(s)
    ensures NoWord(SpacesToHyphen(s))
    decreases |s|
  {
    if s == [] {
    } else if IsSpace(s[0]) {
      var t := DropSpaces(s[1..]);
      SuffixKeeps(s, t);
      SpacesToHyphenNoWord(t);
      ConsNoWord('-', SpacesToHyphen(t));
    } else {
      SuffixKeeps(s, s[1..]);
      SpacesToHyphenNoWord(s[1..]);
      ConsNoWord(s[0], SpacesToHyphen(s[1..]));
    }
  }

  lemma SpacesToHyphenKeeps(s: string)
    requires NoUpper(s)
    ensures NoUpper(SpacesToHyphen(s)) && NoSpace(SpacesToHyphen(s))
    ensures NoWord(s) ==> NoWord(SpacesToHyphen(s))
  {
    SpacesToHyphenNoSpace(s);
    SpacesToHyphenNoUpper(s);
    if NoWord(s) {
      SpacesToHyphenNoWord(s);
    }
  }

  lemma {:induction false} SpacesToHyphenIdentity(s: string)
    requires NoSpace(s)
    ensures SpacesToHyphen(s) == s
  {
    if s != [] { SpacesToHyphenIdentity(s[1..]); }
  }

  /** A run of white space in front of a text that does not start with white space is dropped exactly. */
  lemma {:induction false} DropSpacesRun(w: string, y: string)
    requires forall i :: 0 <= i < |w| ==> IsSpace(w[i])
    requires y != [] ==> !IsSpace(y[0])
    ensures DropSpaces(w + y) == y
  {
    if w == [] {
      assert w + y == y;
    } else {
      assert (w + y)[1..] == w[1..] + y;
      DropSpacesRun(w[1..], y);
    }
  }

  /** A part without white space is copied as it is. */
  lemma {:induction false} SpacesToHyphenWord(x: string, y: string)
    requires NoSpace(x)
    ensures SpacesToHyphen(x + y) == x + SpacesToHyphen(y)
  {
    if x == [] {
      assert x + y == y;
    } else {
      var c, t := x[0], x[1..];
      NoSpaceTail(x);
      SpacesToHyphenWord(t, y);
      SpacesToHyphenCons(c, t + y);
      assert x == [c] + t;
      ConsAppend(c, t, y);
      ConsAppend(c, t, SpacesToHyphen(y));
    }
  }

  /** A maximal non-empty run of white space becomes one `-`. */
  lemma SpacesToHyphenRun(w: string, y: string)
    requires w != [] && forall i :: 0 <= i < |w| ==> IsSpace(w[i])
    requires y != [] ==> !IsSpace(y[0])
    ensures SpacesToHyphen(w + y) == "-" + SpacesToHyphen(y)
  {
    var s := w + y;
    assert s[0] == w[0] && s[1..] == w[1..] + y;
    SpacesTail(w);
    DropSpacesRun(w[1..], y);
    SpacesToHyphenAtSpace(s);
  }

  lemma SpacesTail(w: string)
    requires w != [] && forall i :: 0 <= i < |w| ==> IsSpace(w[i])
    ensures IsSpace(w[0]) && forall i :: 0 <= i < |w[1..]| ==> IsSpace(w[1..][i])
  {
    forall i | 0 <= i < |w[1..]| ensures IsSpace(w[1..][i]) {
      assert w[1..][i] == w[i + 1];
    }
  }

  lemma ConsAppend(c: char, t: string, z: string)
    ensures [c] + (t + z) == ([c] + t) + z
  {
  }

  lemma NoSpaceTail(x: string)
    requires x != [] && NoSpace(x)
    ensures !IsSpace(x[0]) && NoSpace(x[1..])
  {
    forall i | 0 <= i < |x[1..]| ensures !IsSpace(x[1..][i]) {
      assert x[1..][i] == x[i + 1];
    }
  }

  /** A character other than white space is kept ahead of the rest. */
  lemma SpacesToHyphenCons(c: char, t: string)
    requires !IsSpace(c)
    ensures SpacesToHyphen([c] + t) == [c] + SpacesToHyphen(t)
  {
    var s := [c] + t;
    assert s[0] == c && s[1..] == t;
    SpacesToHyphenAtOther(s);
  }

  /** One step of the replacement at any other character. */
  lemma SpacesToHyphenAtOther(s: string)
    requires s != [] && !IsSpace(s[0])
    ensures SpacesToHyphen(s) == [s[0]] + SpacesToHyphen(s[1..])
  {
  }

  lemma SpaceNotWord(c: char)
    requires IsSpace(c)
    ensures !IsWordChar(c)
  {
  }

  /** One step of the replacement at a white-space character. */
  lemma SpacesToHyphenAtSpace(s: string)
    requires s != [] && IsSpace(s[0])
    ensures SpacesToHyphen(s) == ['-'] + SpacesToHyphen(DropSpaces(s[1..]))
  {
  }

  lemma {:induction false} StripNonWordKeeps(s: string)
    requires NoUpper(s)
    ensures SlugChars(StripNonWord(s))
    ensures NoWord(s) ==> AllHyphens(StripNonWord(s))
  {
    if s != [] { StripNonWordKeeps(s[1..]); }
  }

  lemma {:induction false} StripNonWordIdentity(s: string)
    requires SlugChars(s)
    ensures StripNonWord(s) == s
  {
    if s != [] { StripNonWordIdentity(s[1..]); }
  }

  lemma {:induction false} CollapseHyphensChars(s: string)
    requires SlugChars(s)
    ensures SlugChars(CollapseHyphens(s))
    decreases |s|
  {
    if s == [] {
    } else if s[0] == '-' {
      var t := DropHyphens(s[1..]);
      SuffixKeeps(s, t);
      CollapseHyphensChars(t);
      ConsSlugChars('-', CollapseHyphens(t));
    } else {
      SuffixKeeps(s, s[1..]);
      CollapseHyphensChars(s[1..]);
      ConsSlugChars(s[0], CollapseHyphens(s[1..]));
    }
  }

  lemma {:induction false} CollapseHyphensNoDouble(s: string)
    ensures NoDoubleHyphen(CollapseHyphens(s))
    decreases |s|
  {
    if s == [] {
    } else if s[0] == '-' {
      var t := DropHyphens(s[1..]);
      CollapseHyphensNoDouble(t);
      ConsNoDouble('-', CollapseHyphens(t));
    } else {
      CollapseHyphensNoDouble(s[1..]);
      ConsNoDouble(s[0], CollapseHyphens(s[1..]));
    }
  }

  lemma CollapseHyphensKeeps(s: string)
    requires SlugChars(s)
    ensures SlugChars(CollapseHyphens(s)) && NoDoubleHyphen(CollapseHyphens(s))
    ensures AllHyphens(s) ==> |CollapseHyphens(s)| <= 1
  {
    CollapseHyphensChars(s);
    CollapseHyphensNoDouble(s);
    if AllHyphens(s) && s != [] {
      var t := DropHyphens(s[1..]);
      assert t == [];
    }
  }

  lemma {:induction false} CollapseHyphensIdentity(s: string)
    requires NoDoubleHyphen(s)
    ensures CollapseHyphens(s) == s
    decreases |s|
  {
    if s != [] {
      assert NoDoubleHyphen(s[1..]);
      if s[0] == '-' {
        assert DropHyphens(s[1..]) == s[1..];
      }
      CollapseHyphensIdentity(s[1..]);
    }
  }

  lemma TrimKeepsNoUpper(s: string)
    requires NoUpper(s)
    ensures NoUpper(Trim(s)) && (NoWord(s) ==> NoWord(Trim(s)))
  {
    var a := Trim(s);
    forall i | 0 <= i < |a| ensures a[i] == s[LeadingSpaces(s) + i] { }
  }

  /** A suffix or a prefix of a string without `--` has none either. */
  lemma SubstringNoDouble(s: string, a: nat, b: nat)
    requires a <= b <= |s| && NoDoubleHyphen(s)
    ensures NoDoubleHyphen(s[a..b])
  {
    var t := s[a..b];
    assert forall i :: 0 <= i < |t| ==> t[i] == s[a + i];
  }

  lemma SubstringSlugChars(s: string, a: nat, b: nat)
    requires a <= b <= |s| && SlugChars(s)
    ensures SlugChars(s[a..b])
  {
    var t := s[a..b];
    assert forall i :: 0 <= i < |t| ==> t[i] == s[a + i];
  }

  lemma DropEndHyphensKeeps(d: string)
    requires SlugChars(d) && NoDoubleHyphen(d)
    ensures IsSlug(DropTrailingHyphens(DropHyphens(d)))
  {
    var e := DropHyphens(d);
    SubstringNoDouble(d, |d| - |e|, |d|);
    SubstringSlugChars(d, |d| - |e|, |d|);
    var f := DropTrailingHyphens(e);
    SubstringNoDouble(e, 0, |f|);
    SubstringSlugChars(e, 0, |f|);
    assert f == e[0..|f|];
    assert f != [] ==> f[0] == e[0];
  }

  /** The slug steps applied to a lower-cased text give a well-formed slug. */
  lemma SlugSteps(lower: string)
    requires NoUpper(lower)
    ensures IsSlug(DropTrailingHyphens(DropHyphens(CollapseHyphens(StripNonWord(SpacesToHyphen(Trim(lower)))))))
  {
    var a := Trim(lower);
    TrimKeepsNoUpper(lower);
    SpacesToHyphenKeeps(a);
    var b := SpacesToHyphen(a);
    StripNonWordKeeps(b);
    var c := StripNonWord(b);
    CollapseHyphensKeeps(c);
    DropEndHyphensKeeps(CollapseHyphens(c));
  }

  /** Trimming removes white space only, so no word character is lost. */
  lemma TrimWordChars(s: string)
    ensures Filter(Trim(s), IsWordChar) == Filter(s, IsWordChar)
  {
    TrimStartWordChars(s);
    TrimEndWordChars(TrimStart(s));
  }

  /** Dropping the leading white space loses no word character. */
  lemma {:induction false} TrimStartWordChars(s: string)
    ensures Filter(TrimStart(s), IsWordChar) == Filter(s, IsWordChar)
  {
    if s != [] && IsSpace(s[0]) {
      TrimStartWordChars(s[1..]);
      LeadingSpaceWordChars(s);
    }
  }

  /** Dropping the trailing white space loses no word character. */
  lemma {:induction false} TrimEndWordChars(s: string)
    ensures Filter(TrimEnd(s), IsWordChar) == Filter(s, IsWordChar)
  {
    if s != [] && IsSpace(s[|s| - 1]) {
      TrimEndWordChars(s[..|s| - 1]);
      TrailingSpaceWordChars(s);
    }
  }

  /** A trailing white-space character is not a word character. */
  lemma TrailingSpaceWordChars(s: string)
    requires s != [] && IsSpace(s[|s| - 1])
    ensures Filter(s, IsWordChar) == Filter(s[..|s| - 1], IsWordChar)
  {
    var last := [s[|s| - 1]];
    assert s == s[..|s| - 1] + last;
    FilterAppend(s[..|s| - 1], last, IsWordChar);
    SpaceNotWord(s[|s| - 1]);
    FilterHead(last, IsWordChar);
    assert last[1..] == [];
  }



  /** Replacing white space by `-` loses no word character and adds none. */
  lemma {:induction false} SpacesToHyphenWordChars(s: string)
    ensures Filter(SpacesToHyphen(s), IsWordChar) == Filter(s, IsWordChar)
    decreases |s|
  {
    if s == [] {
    } else if IsSpace(s[0]) {
      SpacesToHyphenWordChars(DropSpaces(s[1..]));
      WordCharsAtSpace(s);
    } else {
      SpacesToHyphenWordChars(s[1..]);
      WordCharsAtOther(s);
    }
  }

  /** The step of `SpacesToHyphenWordChars` at a white-space run. */
  lemma WordCharsAtSpace(s: string)
    requires s != [] && IsSpace(s[0])
    requires Filter(SpacesToHyphen(DropSpaces(s[1..])), IsWordChar) == Filter(DropSpaces(s[1..]), IsWordChar)
    ensures Filter(SpacesToHyphen(s), IsWordChar) == Filter(s, IsWordChar)
  {
    RunHyphenWordChars(s);
    DropSpacesWordChars(s[1..]);
    LeadingSpaceWordChars(s);
  }

  /** The `-` that replaces a white-space run is not a word character. */
  lemma RunHyphenWordChars(s: string)
    requires s != [] && IsSpace(s[0])
    ensures Filter(SpacesToHyphen(s), IsWordChar) == Filter(SpacesToHyphen(DropSpaces(s[1..])), IsWordChar)
  {
    var h := SpacesToHyphen(DropSpaces(s[1..]));
    SpacesToHyphenAtSpace(s);
    FilterHyphen(h);
  }

  /** A `-` in front adds no word character. */
  lemma FilterHyphen(t: string)
    ensures Filter(['-'] + t, IsWordChar) == Filter(t, IsWordChar)
  {
    FilterCons('-', t, IsWordChar);
    assert !IsWordChar('-');
  }

  /** A leading white-space character is not a word character. */
  lemma LeadingSpaceWordChars(s: string)
    requires s != [] && IsSpace(s[0])
    ensures Filter(s, IsWordChar) == Filter(s[1..], IsWordChar)
  {
    assert s == [s[0]] + s[1..];
    SpaceNotWord(s[0]);
    FilterCons(s[0], s[1..], IsWordChar);
  }

  /** The step of `SpacesToHyphenWordChars` at any other character. */
  lemma WordCharsAtOther(s: string)
    requires s != [] && !IsSpace(s[0])
    requires Filter(SpacesToHyphen(s[1..]), IsWordChar) == Filter(s[1..], IsWordChar)
    ensures Filter(SpacesToHyphen(s), IsWordChar) == Filter(s, IsWordChar)
  {
    var h := SpacesToHyphen(s[1..]);
    SpacesToHyphenAtOther(s);
    FilterCons(s[0], h, IsWordChar);
    FilterHead(s, IsWordChar);
  }

  /** One step of `Filter`. */
  lemma FilterHead(s: string, p: char -> bool)
    requires s != []
    ensures Filter(s, p) == if p(s[0]) then [s[0]] + Filter(s[1..], p) else Filter(s[1..], p)
  {
  }

  lemma DropSpacesAtSpace(u: string)
    requires u != [] && IsSpace(u[0])
    ensures DropSpaces(u) == DropSpaces(u[1..])
  {
  }

  /** Dropping leading white space loses no word character. */
  lemma {:induction false} DropSpacesWordChars(u: string)
    ensures Filter(DropSpaces(u), IsWordChar) == Filter(u, IsWordChar)
  {
    if u != [] && IsSpace(u[0]) {
      DropSpacesWordChars(u[1..]);
      DropSpacesAtSpace(u);
      LeadingSpaceWordChars(u);
    }
  }



  /** Stripping removes only characters that are not word characters. */
  lemma {:induction false} StripNonWordWordChars(s: string)
    ensures Filter(StripNonWord(s), IsWordChar) == Filter(s, IsWordChar)
  {
    if s != [] {
      StripNonWordWordChars(s[1..]);
      FilterCons(s[0], StripNonWord(s[1..]), IsWordChar);
    }
  }

  /** Every word character is a non-hyphen, so filtering out `-` first changes nothing. */
  lemma {:induction false} NonHyphenWordChars(s: string)
    ensures Filter(Filter(s, IsNotHyphen), IsWordChar) == Filter(s, IsWordChar)
  {
    if s != [] {
      NonHyphenWordChars(s[1..]);
      FilterCons(s[0], Filter(s[1..], IsNotHyphen), IsWordChar);
    }
  }

  /** Trimming, replacing white space and stripping keep the word characters, in order. */
  lemma WordCharSteps(lower: string)
    ensures Filter(StripNonWord(SpacesToHyphen(Trim(lower))), IsWordChar) == Filter(lower, IsWordChar)
  {
    var a := Trim(lower);
    TrimWordChars(lower);
    SpacesToHyphenWordChars(a);
    StripNonWordWordChars(SpacesToHyphen(a));
  }

  /** Collapsing `-` keeps the word characters, in order. */
  lemma CollapseHyphensWordChars(c: string)
    ensures Filter(CollapseHyphens(c), IsWordChar) == Filter(c, IsWordChar)
  {
    NonHyphenWordChars(c);
    NonHyphenWordChars(CollapseHyphens(c));
  }

  /** Dropping `-` at either end keeps the word characters. */
  lemma EndHyphensWordChars(d: string)
    ensures Filter(DropHyphens(d), IsWordChar) == Filter(d, IsWordChar)
    ensures Filter(DropTrailingHyphens(d), IsWordChar) == Filter(d, IsWordChar)
  {
    var e := DropHyphens(d);
    DropPrefixFilter(d, |d| - |e|, IsWordChar);
    var f := DropTrailingHyphens(d);
    DropSuffixFilter(d, |f|, IsWordChar);
  }

  /** A well-formed slug is left as it is. */
  lemma SlugifyFixesSlugs(s: string)
    requires IsSlug(s)
    ensures Slugify(s) == s
  {
    assert NoUpper(s) by {
      forall i | 0 <= i < |s| ensures !IsUpper(s[i]) { assert IsSlugChar(s[i]); }
    }
    LowerIdentity(s);
    assert s != [] ==> !IsSpace(s[0]) && !IsSpace(s[|s| - 1]) by {
      if s != [] { assert IsSlugChar(s[0]) && IsSlugChar(s[|s| - 1]); }
    }
    TrimIdentity(s);
    assert NoSpace(s) by {
      forall i | 0 <= i < |s| ensures !IsSpace(s[i]) { assert IsSlugChar(s[i]); }
    }
    SpacesToHyphenIdentity(s);
    SlugStepsFix(s);
  }

  /** Slugify is idempotent. */
  lemma SlugifyIdempotent(text: string)
    ensures Slugify(Slugify(text)) == Slugify(text)
  {
    SlugifyFixesSlugs(Slugify(text));
  }

  /** A name with no letter, digit or `_` (the empty name, pure punctuation) gives the empty slug. */
  lemma SlugifyWithoutWordChars(text: string)
    requires NoWord(text)
    ensures Slugify(text) == ""
  {
    var a := Trim(Lower(text));
    TrimKeepsNoUpper(Lower(text));
    SpacesToHyphenKeeps(a);
    var b := SpacesToHyphen(a);
    StripNonWordKeeps(b);
    var c := StripNonWord(b);
    CollapseHyphensKeeps(c);
    var d := CollapseHyphens(c);
    assert DropHyphens(d) == [];
  }

  /** A slug word: letters, digits and `_`, without `-`. */
  predicate IsSlugWord(s: string) { forall i :: 0 <= i < |s| ==> IsLowerOrDigit(s[i]) || s[i] == '_' }

  lemma SlugWordNoSpace(s: string)
    requires IsSlugWord(s)
    ensures NoSpace(s)
  {
    forall i | 0 <= i < |s| ensures !IsSpace(s[i]) {
      assert IsLowerOrDigit(s[i]) || s[i] == '_';
    }
  }

  /** Two slug words with white space between them have no upper-case letter and no white space at either end. */
  lemma SpacedWordsPlain(a: string, w: string, b: string)
    requires a != [] && b != [] && IsSlugWord(a) && IsSlugWord(b)
    requires forall i :: 0 <= i < |w| ==> IsSpace(w[i])
    ensures Trim(Lower(a + w + b)) == a + w + b
  {
    var t := a + w + b;
    assert NoUpper(t) by {
      forall i | 0 <= i < |t| ensures !IsUpper(t[i]) {
        if i < |a| { assert t[i] == a[i]; }
        else if i < |a| + |w| { assert t[i] == w[i - |a|]; }
        else { assert t[i] == b[i - |a| - |w|]; }
      }
    }
    LowerIdentity(t);
    assert t[0] == a[0] && t[|t| - 1] == b[|b| - 1];
    TrimIdentity(t);
  }

  /** Two slug words with white space between them: the run becomes one `-`. */
  lemma SpacedWords(a: string, w: string, b: string)
    requires a != [] && b != [] && IsSlugWord(a) && IsSlugWord(b)
    requires w != [] && forall i :: 0 <= i < |w| ==> IsSpace(w[i])
    ensures SpacesToHyphen(a + w + b) == a + "-" + b
  {
    SlugWordNoSpace(a);
    SlugWordNoSpace(b);
    var y := w + b;
    assert a + w + b == a + y;
    SpacesToHyphenWord(a, y);
    var z := SpacesToHyphen(y);
    assert !IsSpace(b[0]);
    SpacesToHyphenRun(w, b);
    assert z == "-" + SpacesToHyphen(b);
    SpacesToHyphenIdentity(b);
    assert z == "-" + b;
    assert a + z == a + "-" + b;
  }

  /** Two slug words joined by one `-` form a well-formed slug. */
  lemma JoinedWordsSlug(a: string, b: string)
    requires a != [] && b != [] && IsSlugWord(a) && IsSlugWord(b)
    ensures IsSlug(a + "-" + b)
  {
    var u := a + "-" + b;
    forall i | 0 <= i < |u| ensures IsSlugChar(u[i]) && (u[i] == '-' ==> i == |a|) {
      if i < |a| { assert u[i] == a[i]; }
      else if i > |a| { assert u[i] == b[i - |a| - 1]; }
    }
  }

  /** The steps after replacing white space leave a well-formed slug as it is. */
  lemma SlugStepsFix(u: string)
    requires IsSlug(u)
    ensures DropTrailingHyphens(DropHyphens(CollapseHyphens(StripNonWord(u)))) == u
  {
    StripNonWordIdentity(u);
    CollapseHyphensIdentity(u);
    assert DropHyphens(u) == u;
    assert DropTrailingHyphens(u) == u;
  }

  /** Two slug words with white space between them give the words joined by one `-`. */
  lemma SlugifyJoinsWords(a: string, w: string, b: string)
    requires a != [] && b != [] && IsSlugWord(a) && IsSlugWord(b)
    requires w != [] && forall i :: 0 <= i < |w| ==> IsSpace(w[i])
    ensures Slugify(a + w + b) == a + "-" + b
  {
    SpacedWordsPlain(a, w, b);
    SpacedWords(a, w, b);
    JoinedWordsSlug(a, b);
    SlugStepsFix(a + "-" + b);
  }

  // ---------------------------------------------------------------------------
  // The unique project name.

  predicate IsBase36Digit(c: char) { IsLowerOrDigit(c) }

  /** The shape of `Math.random().toString(36)`: `0` or `0.` followed by base-36 digits. */
  predicate IsBase36Fraction(r: string) {
    && |r| >= 1 && r[0] == '0'
    && (|r| >= 2 ==> r[1] == '.')
    && forall i :: 2 <= i < |r| ==> IsBase36Digit(r[i])
  }

  /** `substring(2, 6)`, with JavaScript's clamping of both ends to the length. */
  function Substring(s: string, start: nat, end: nat): (r: string)
    ensures start <= end <= |s| ==> r == s[start..end]
    ensures end < start <= |s| ==> r == s[end..start]
    ensures start <= |s| < end ==> r == s[start..]
    ensures |s| <= start && |s| <= end ==> r == []
  {
    var a := if start <= |s| then start else |s|;
    var b := if end <= |s| then end else |s|;
    if a <= b then s[a..b] else s[b..a]
  }

  /** The disambiguator: characters 2 to 6 of the random number written in base 36. */
  function Disambiguator(random36: string): (d: string)
    ensures |d| <= 4
    ensures 6 <= |random36| ==> d == random36[2..6]
    ensures 2 <= |random36| < 6 ==> d == random36[2..]
    ensures |random36| <= 2 ==> d == []
    ensures IsBase36Fraction(random36) ==> forall i :: 0 <= i < |d| ==> IsBase36Digit(d[i])
  {
    Substring(random36, 2, 6)
  }

  /** `${slugify(companyName)}-${Math.random().toString(36).substring(2, 6)}`. */
  function UniqueProjectName(companyName: string, random36: string): (r: string)
    ensures HyphenJoined(r, Slugify(companyName), Disambiguator(random36))
    ensures |r| <= |Slugify(companyName)| + 5
  {
    var slug := Slugify(companyName);
    var d := Disambiguator(random36);
    HyphenJoin(slug, d);
    slug + ("-" + d)
  }

  /** `r` is `a`, one `-`, then `b`, each read back at its position. */
  predicate HyphenJoined(r: string, a: string, b: string) {
    && |r| == |a| + 1 + |b|
    && r[..|a|] == a && r[|a|] == '-' && r[|a| + 1..] == b
  }

  /** The parts of `a-b` read back by position. */
  lemma HyphenJoin(a: string, b: string)
    ensures HyphenJoined(a + ("-" + b), a, b)
  {
    var r := a + ("-" + b);
    assert r[..|a|] == a;
    assert r[|a| + 1..] == b;
  }

  /** A slug, one `-`, and at most four base-36 characters. */
  lemma NameShape(slug: string, d: string)
    requires IsSlug(slug) && |d| <= 4 && forall i :: 0 <= i < |d| ==> IsBase36Digit(d[i])
    ensures var name := slug + "-" + d;
      var k := |slug|;
      && k < |name| <= k + 5
      && name[k] == '-'
      && IsSlug(name[..k])
      && (forall i :: k < i < |name| ==> IsBase36Digit(name[i]))
  {
    var name := slug + "-" + d;
    var k := |slug|;
    assert name[..k] == slug;
    forall i | k < i < |name| ensures IsBase36Digit(name[i]) {
      assert name[i] == d[i - k - 1];
    }
  }

  /** The project name is the slug, one `-`, and at most four base-36 characters; an empty slug leaves the name starting with `-`. */
  lemma UniqueProjectNameShape(companyName: string, random36: string)
    requires IsBase36Fraction(random36)
    ensures var name := UniqueProjectName(companyName, random36);
      var k := |Slugify(companyName)|;
      && k < |name| <= k + 5
      && name[k] == '-'
      && IsSlug(name[..k])
      && (forall i :: k < i < |name| ==> IsBase36Digit(name[i]))
      && (k == 0 ==> name[0] == '-')
  {
    NameShape(Slugify(companyName), Disambiguator(random36));
  }
}
