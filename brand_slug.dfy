/**
 * The slug that `POST /api/brands` derives from a brand name: lower-case
 * it, strip accents, delete every character that is not a word character,
 * whitespace or a hyphen, turn each whitespace run into one hyphen, turn each
 * hyphen run into one hyphen, and trim whitespace at both ends.
 *
 * Modelled over ASCII names, where the Unicode decomposition and the removal
 * of combining marks change nothing. On ASCII, a word character is a letter,
 * a digit or `_`, and whitespace is space, tab, line feed, vertical tab, form
 * feed and carriage return.
 */
module BrandSlug {

  predicate IsAscii(s: string)
  {
    forall i :: 0 <= i < |s| ==> s[i] < 128 as char
  }

  predicate IsUpper(c: char)
  {
    'A' <= c <= 'Z'
  }

  /** `\w` */
  predicate IsWordChar(c: char)
  {
    'a' <= c <= 'z' || IsUpper(c) || '0' <= c <= '9' || c == '_'
  }

  /** `\s` on ASCII: space and the control characters tab to carriage return. */
  predicate IsSpace(c: char)
  {
    c == ' ' || '\t' <= c <= '\r'
  }

  /** The characters a slug may contain: `[a-z0-9_-]`. */
  predicate IsSlugChar(c: char)
  {
    'a' <= c <= 'z' || '0' <= c <= '9' || c == '_' || c == '-'
  }

  predicate AllSlugChars(s: string)
  {
    forall i :: 0 <= i < |s| ==> IsSlugChar(s[i])
  }

  predicate NoDoubleHyphen(s: string)
  {
    forall i :: 0 <= i < |s| - 1 ==> !(s[i] == '-' && s[i + 1] == '-')
  }

  function LowerChar(c: char): char
  {
    if IsUpper(c) then (c as int + 32) as char else c
  }

  /** `toLowerCase()` on ASCII */
  function ToLower(s: string): (r: string)
    ensures |r| == |s|
    ensures forall i :: 0 <= i < |s| ==> r[i] == LowerChar(s[i])
  {
    if s == [] then [] else [LowerChar(s[0])] + ToLower(s[1..])
  }

  /** `replace(/[^\w\s-]/g, "")`: keeps word characters, whitespace and hyphens. */
  function StripPunctuation(s: string): string
  {
    if s == [] then []
    else if IsWordChar(s[0]) || IsSpace(s[0]) || s[0] == '-' then [s[0]] + StripPunctuation(s[1..])
    else StripPunctuation(s[1..])
  }

  /** Drops the leading whitespace run. */
  function DropSpaces(s: string): (r: string)
    ensures |r| <= |s|
    ensures r == s[|s| - |r|..]
    ensures r != [] ==> !IsSpace(r[0])
  {
    if s != [] && IsSpace(s[0]) then DropSpaces(s[1..]) else s
  }

  /** Drops the leading hyphen run. */
  function DropHyphens(s: string): (r: string)
    ensures |r| <= |s|
    ensures r == s[|s| - |r|..]
    ensures r != [] ==> r[0] != '-'
  {
    if s != [] && s[0] == '-' then DropHyphens(s[1..]) else s
  }

  /** `replace(/\s+/g, "-")`: every whitespace run becomes one hyphen. */
  function HyphenateSpaces(s: string): string
    decreases |s|
  {
    if s == [] then []
    else if IsSpace(s[0]) then "-" + HyphenateSpaces(DropSpaces(s[1..]))
    else [s[0]] + HyphenateSpaces(s[1..])
  }

  /** `replace(/-+/g, "-")`: every hyphen run becomes one hyphen. */
  function CollapseHyphens(s: string): string
    decreases |s|
  {
    if s == [] then []
    else if s[0] == '-' then "-" + CollapseHyphens(DropHyphens(s[1..]))
    else [s[0]] + CollapseHyphens(s[1..])
  }

  /** Drops the trailing whitespace run. */
  function DropTrailingSpaces(s: string): (r: string)
    ensures |r| <= |s| && r == s[..|r|]
  {
    if s != [] && IsSpace(s[|s| - 1]) then DropTrailingSpaces(s[..|s| - 1]) else s
  }

  /** `trim()` on ASCII: removes whitespace (and only whitespace) at both ends. */
  function Trim(s: string): string
  {
    DropTrailingSpaces(DropSpaces(s))
  }

  /** The string the slug pipeline has before its final `trim`. */
  function Untrimmed(name: string): string
    requires IsAscii(name)
  {
    CollapseHyphens(HyphenateSpaces(StripPunctuation(ToLower(name))))
  }

  /** The slug of an ASCII brand name. */
  function Slug(name: string): string
    requires IsAscii(name)
  {
    Trim(Untrimmed(name))
  }

  /** The string without its hyphens. */
  function RemoveHyphens(s: string): string
  {
    if s == [] then [] else (if s[0] == '-' then [] else [s[0]]) + RemoveHyphens(s[1..])
  }

  /** The word characters of a string, in order. */
  function WordChars(s: string): string
  {
    if s == [] then [] else (if IsWordChar(s[0]) then [s[0]] else []) + WordChars(s[1..])
  }

  /** The string without its hyphens and whitespace. */
  function RemoveHyphensAndSpaces(s: string): string
  {
    if s == [] then []
    else (if s[0] == '-' || IsSpace(s[0]) then [] else [s[0]]) + RemoveHyphensAndSpaces(s[1..])
  }

  // ---- character classes -------------------------------------------------

  /** Lower-case word characters: `[a-z0-9_]`. */
  predicate IsLowerWordChar(c: char)
  {
    'a' <= c <= 'z' || '0' <= c <= '9' || c == '_'
  }

  /** After lower-casing ASCII, every word character is a lower-case one. */
  lemma ToLowerChars(s: string)
    requires IsAscii(s)
    ensures forall i :: 0 <= i < |ToLower(s)| ==>
      var c := ToLower(s)[i]; IsWordChar(c) ==> IsLowerWordChar(c)
  {
  }

  /** Whatever property the kept characters have, the stripped string has. */
  lemma {:induction false} StripPunctuationChars(s: string, P: char -> bool)
    requires forall i :: 0 <= i < |s| ==>
      (IsWordChar(s[i]) || IsSpace(s[i]) || s[i] == '-') ==> P(s[i])
    ensures forall i :: 0 <= i < |StripPunctuation(s)| ==> P(StripPunctuation(s)[i])
  {
    if s != [] {
      StripPunctuationChars(s[1..], P);
    }
  }

  /** Characters that are not whitespace keep their property; whitespace becomes `-`. */
  lemma {:induction false} HyphenateSpacesChars(s: string, P: char -> bool)
    requires forall i :: 0 <= i < |s| ==> P(s[i]) || IsSpace(s[i])
    ensures forall i :: 0 <= i < |HyphenateSpaces(s)| ==>
      P(HyphenateSpaces(s)[i]) || HyphenateSpaces(s)[i] == '-'
    decreases |s|
  {
    if s != [] {
      if IsSpace(s[0]) {
        var rest := DropSpaces(s[1..]);
        assert forall i :: 0 <= i < |rest| ==> rest[i] == s[|s| - |rest| + i];
        HyphenateSpacesChars(rest, P);
      } else {
        HyphenateSpacesChars(s[1..], P);
      }
    }
  }

  lemma {:induction false} CollapseHyphensChars(s: string, P: char -> bool)
    requires forall i :: 0 <= i < |s| ==> P(s[i]) || s[i] == '-'
    ensures forall i :: 0 <= i < |CollapseHyphens(s)| ==>
      P(CollapseHyphens(s)[i]) || CollapseHyphens(s)[i] == '-'
    decreases |s|
  {
    if s != [] {
      if s[0] == '-' {
        var rest := DropHyphens(s[1..]);
        assert forall i :: 0 <= i < |rest| ==> rest[i] == s[|s| - |rest| + i];
        CollapseHyphensChars(rest, P);
      } else {
        CollapseHyphensChars(s[1..], P);
      }
    }
  }

  /** `trim` leaves a string without whitespace unchanged. */
  lemma TrimNoSpaces(s: string)
    requires forall i :: 0 <= i < |s| ==> !IsSpace(s[i])
    ensures Trim(s) == s
  {
  }

  /** Every character before the trim is in `[a-z0-9_-]`, so the trim changes nothing. */
  lemma UntrimmedChars(name: string)
    requires IsAscii(name)
    ensures AllSlugChars(Untrimmed(name))
    ensures Slug(name) == Untrimmed(name)
  {
    var lowered := ToLower(name);
    ToLowerChars(name);
    var stripped := StripPunctuation(lowered);
    StripPunctuationChars(lowered, c => IsLowerWordChar(c) || IsSpace(c) || c == '-');
    var hyphenated := HyphenateSpaces(stripped);
    HyphenateSpacesChars(stripped, IsSlugChar);
    var collapsed := CollapseHyphens(hyphenated);
    CollapseHyphensChars(hyphenated, IsSlugChar);
    assert collapsed == Untrimmed(name);
    TrimNoSpaces(collapsed);
  }

  /** Every character of a slug is in `[a-z0-9_-]`; in particular a slug holds no whitespace. */
  lemma SlugCharacters(name: string)
    requires IsAscii(name)
    ensures AllSlugChars(Slug(name))
    ensures forall i :: 0 <= i < |Slug(name)| ==> !IsSpace(Slug(name)[i])
  {
    UntrimmedChars(name);
    var s := Slug(name);
    forall i | 0 <= i < |s|
      ensures !IsSpace(s[i])
    {
      assert IsSlugChar(s[i]);
    }
  }

  // ---- no double hyphen --------------------------------------------------

  /** `CollapseHyphens` never leaves two hyphens in a row, and starts with a hyphen only where its input does. */
  lemma {:induction false} CollapseHyphensNoDouble(s: string)
    ensures NoDoubleHyphen(CollapseHyphens(s))
    ensures CollapseHyphens(s) != [] ==> (CollapseHyphens(s)[0] == '-' <==> s[0] == '-')
    decreases |s|
  {
    if s != [] {
      if s[0] == '-' {
        var rest := DropHyphens(s[1..]);
        CollapseHyphensNoDouble(rest);
        var r := CollapseHyphens(rest);
        assert CollapseHyphens(s) == "-" + r;
        assert r != [] ==> r[0] != '-';
      } else {
        CollapseHyphensNoDouble(s[1..]);
        assert CollapseHyphens(s) == [s[0]] + CollapseHyphens(s[1..]);
      }
    }
  }

  /** A slug never contains two consecutive hyphens. */
  lemma SlugNoDoubleHyphen(name: string)
    requires IsAscii(name)
    ensures NoDoubleHyphen(Slug(name))
  {
    UntrimmedChars(name);
    CollapseHyphensNoDouble(HyphenateSpaces(StripPunctuation(ToLower(name))));
  }

  // ---- hyphen-free content -------------------------------------------------

  lemma {:induction false} RemoveHyphensConcat(a: string, b: string)
    ensures RemoveHyphens(a + b) == RemoveHyphens(a) + RemoveHyphens(b)
  {
    if a != [] {
      RemoveHyphensConcat(a[1..], b);
      assert (a + b)[1..] == a[1..] + b;
    } else {
      assert a + b == b;
    }
  }

  lemma {:induction false} RemoveHyphensDropHyphens(s: string)
    ensures RemoveHyphens(DropHyphens(s)) == RemoveHyphens(s)
  {
    if s != [] && s[0] == '-' {
      RemoveHyphensDropHyphens(s[1..]);
    }
  }

  lemma {:induction false} RemoveHyphensAndSpacesDropSpaces(s: string)
    ensures RemoveHyphensAndSpaces(DropSpaces(s)) == RemoveHyphensAndSpaces(s)
  {
    if s != [] && IsSpace(s[0]) {
      RemoveHyphensAndSpacesDropSpaces(s[1..]);
    }
  }

  lemma {:induction false} RemoveHyphensCollapse(s: string)
    ensures RemoveHyphens(CollapseHyphens(s)) == RemoveHyphens(s)
    decreases |s|
  {
    if s != [] {
      if s[0] == '-' {
        RemoveHyphensCollapse(DropHyphens(s[1..]));
        RemoveHyphensConcat("-", CollapseHyphens(DropHyphens(s[1..])));
        RemoveHyphensDropHyphens(s[1..]);
      } else {
        RemoveHyphensCollapse(s[1..]);
        RemoveHyphensConcat([s[0]], CollapseHyphens(s[1..]));
      }
    }
  }

  lemma {:induction false} RemoveHyphensHyphenate(s: string)
    ensures RemoveHyphens(HyphenateSpaces(s)) == RemoveHyphensAndSpaces(s)
    decreases |s|
  {
    if s != [] {
      if IsSpace(s[0]) {
        RemoveHyphensHyphenate(DropSpaces(s[1..]));
        RemoveHyphensConcat("-", HyphenateSpaces(DropSpaces(s[1..])));
        RemoveHyphensAndSpacesDropSpaces(s[1..]);
      } else {
        RemoveHyphensHyphenate(s[1..]);
        RemoveHyphensConcat([s[0]], HyphenateSpaces(s[1..]));
      }
    }
  }

  lemma {:induction false} RemoveHyphensAndSpacesStrip(s: string)
    ensures RemoveHyphensAndSpaces(StripPunctuation(s)) == WordChars(s)
  {
    if s != [] {
      RemoveHyphensAndSpacesStrip(s[1..]);
      if IsWordChar(s[0]) || IsSpace(s[0]) || s[0] == '-' {
        assert StripPunctuation(s) == [s[0]] + StripPunctuation(s[1..]);
        assert ([s[0]] + StripPunctuation(s[1..]))[1..] == StripPunctuation(s[1..]);
      }
    }
  }

  /**
   * Deleting the hyphens of a slug gives the word characters of the
   * lower-cased name, in the same order: the pipeline only deletes
   * characters and turns whitespace into hyphens.
   */
  lemma SlugHyphenFree(name: string)
    requires IsAscii(name)
    ensures RemoveHyphens(Slug(name)) == WordChars(ToLower(name))
  {
    UntrimmedChars(name);
    var stripped := StripPunctuation(ToLower(name));
    RemoveHyphensCollapse(HyphenateSpaces(stripped));
    RemoveHyphensHyphenate(stripped);
    RemoveHyphensAndSpacesStrip(ToLower(name));
  }

  // ---- idempotence ---------------------------------------------------------

  lemma {:induction false} ToLowerFixed(s: string)
    requires AllSlugChars(s)
    ensures ToLower(s) == s
  {
    if s != [] {
      ToLowerFixed(s[1..]);
    }
  }

  lemma {:induction false} StripPunctuationFixed(s: string)
    requires AllSlugChars(s)
    ensures StripPunctuation(s) == s
  {
    if s != [] {
      StripPunctuationFixed(s[1..]);
    }
  }

  lemma {:induction false} HyphenateSpacesFixed(s: string)
    requires AllSlugChars(s)
    ensures HyphenateSpaces(s) == s
  {
    if s != [] {
      HyphenateSpacesFixed(s[1..]);
    }
  }

  lemma {:induction false} CollapseHyphensFixed(s: string)
    requires NoDoubleHyphen(s)
    ensures CollapseHyphens(s) == s
    decreases |s|
  {
    if s != [] {
      assert NoDoubleHyphen(s[1..]) by {
        forall i | 0 <= i < |s[1..]| - 1
          ensures !(s[1..][i] == '-' && s[1..][i + 1] == '-')
        {
          assert s[1..][i] == s[i + 1] && s[1..][i + 1] == s[i + 2];
        }
      }
      if s[0] == '-' {
        assert |s| > 1 ==> s[1] != '-';
        assert DropHyphens(s[1..]) == s[1..];
      }
      CollapseHyphensFixed(s[1..]);
    }
  }

  /** A slug is its own slug. */
  lemma SlugIdempotent(name: string)
    requires IsAscii(name)
    ensures IsAscii(Slug(name))
    ensures Slug(Slug(name)) == Slug(name)
  {
    var s := Slug(name);
    SlugCharacters(name);
    SlugNoDoubleHyphen(name);
    assert IsAscii(s);
    ToLowerFixed(s);
    StripPunctuationFixed(s);
    HyphenateSpacesFixed(s);
    CollapseHyphensFixed(s);
    assert Untrimmed(s) == s;
    UntrimmedChars(s);
  }

  // ---- edge cases ----------------------------------------------------------

  /** Lower-casing and stripping punctuation keep " -c " as it is, for a lower-case letter c. */
  lemma OuterHyphensLowerStrip(c: char)
    requires 'a' <= c <= 'z'
    ensures ToLower([' ', '-', c, ' ']) == [' ', '-', c, ' ']
    ensures StripPunctuation([' ', '-', c, ' ']) == [' ', '-', c, ' ']
  {
    var s := [' ', '-', c, ' '];
    assert s[1..] == ['-', c, ' '] && s[1..][1..] == [c, ' '] && s[1..][1..][1..] == [' '];
    assert ToLower([' ']) == [' '];
    assert ToLower([c, ' ']) == [c, ' '];
    assert ToLower(['-', c, ' ']) == ['-', c, ' '];
    assert StripPunctuation([' ']) == [' '];
    assert StripPunctuation([c, ' ']) == [c, ' '];
    assert StripPunctuation(['-', c, ' ']) == ['-', c, ' '];
  }

  /** "c " becomes "c-". */
  lemma HyphenateTail(c: char)
    requires 'a' <= c <= 'z'
    ensures HyphenateSpaces([c, ' ']) == [c, '-']
  {
    assert [c, ' '][1..] == [' '];
    assert DropSpaces([]) == [];
    assert HyphenateSpaces([' ']) == ['-'];
  }

  /** " -c " becomes "--c-": each whitespace run turns into one hyphen. */
  lemma HyphenateOuter(c: char)
    requires 'a' <= c <= 'z'
    ensures HyphenateSpaces([' ', '-', c, ' ']) == ['-', '-', c, '-']
  {
    assert [' ', '-', c, ' '][1..] == ['-', c, ' '];
    assert ['-', c, ' '][1..] == [c, ' '];
    assert DropSpaces(['-', c, ' ']) == ['-', c, ' '];
    HyphenateTail(c);
  }

  /** "c-" is kept. */
  lemma CollapseTail(c: char)
    requires 'a' <= c <= 'z'
    ensures CollapseHyphens([c, '-']) == [c, '-']
  {
    assert [c, '-'][1..] == ['-'];
    assert DropHyphens([]) == [];
    assert CollapseHyphens(['-']) == ['-'];
  }

  /** "--c-" becomes "-c-": the leading hyphen run collapses to one hyphen. */
  lemma CollapseOuter(c: char)
    requires 'a' <= c <= 'z'
    ensures CollapseHyphens(['-', '-', c, '-']) == ['-', c, '-']
  {
    assert ['-', '-', c, '-'][1..] == ['-', c, '-'];
    assert ['-', c, '-'][1..] == [c, '-'];
    assert DropHyphens([c, '-']) == [c, '-'];
    assert DropHyphens(['-', c, '-']) == [c, '-'];
    CollapseTail(c);
    assert CollapseHyphens(['-', '-', c, '-']) == ['-'] + CollapseHyphens([c, '-']);
  }

  /**
   * `trim` removes whitespace only, so a slug may begin and end with a
   * hyphen: " -c " gives "-c-" for every lower-case letter c.
   */
  lemma SlugKeepsOuterHyphens(c: char)
    requires 'a' <= c <= 'z'
    ensures IsAscii([' ', '-', c, ' '])
    ensures Slug([' ', '-', c, ' ']) == ['-', c, '-']
  {
    var name, slug := [' ', '-', c, ' '], ['-', c, '-'];
    assert IsAscii(name) by {
      assert forall i :: 0 <= i < |name| ==> name[i] == ' ' || name[i] == '-' || name[i] == c;
    }
    assert Untrimmed(name) == slug by {
      OuterHyphensLowerStrip(c);
      HyphenateOuter(c);
      CollapseOuter(c);
    }
    assert Trim(slug) == slug by {
      TrimNoSpaces(slug);
    }
  }

  /** What the class `[^\w\s-]` removes: neither a word character, whitespace nor a hyphen. */
  predicate IsPunctuation(c: char)
  {
    !IsWordChar(c) && !IsSpace(c) && c != '-'
  }

  lemma {:induction false} StripPunctuationOnly(s: string)
    requires forall i :: 0 <= i < |s| ==> IsPunctuation(s[i])
    ensures StripPunctuation(s) == []
  {
    if s != [] {
      StripPunctuationOnly(s[1..]);
    }
  }

  /** A name made only of punctuation gives the empty slug. */
  lemma PunctuationOnlySlugIsEmpty(name: string)
    requires IsAscii(name)
    requires forall i :: 0 <= i < |name| ==> IsPunctuation(name[i])
    ensures Slug(name) == ""
  {
    var lowered := ToLower(name);
    assert forall i :: 0 <= i < |lowered| ==> IsPunctuation(lowered[i]) by {
      forall i | 0 <= i < |lowered|
        ensures IsPunctuation(lowered[i])
      {
        assert !IsUpper(name[i]);
      }
    }
    StripPunctuationOnly(lowered);
  }
}
