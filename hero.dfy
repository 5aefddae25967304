/**
  The hero section's call-to-action label: the model's action phrase is
  cleaned of a phone number it may already contain, so that the label reads
  `<phrase>: <phone>` with the number once.
*/
module Hero {
  import opened Wrappers
  import opened Text

  predicate IsColonOrSpace(c: char) { c == ':' || IsSpace(c) }

  /** `replace(/[:\s]+$/, '')`: the trailing run of colons and white space goes. */
  function DropTrailingSeparators(s: string): (r: string)
    ensures |r| <= |s| && r == s[..|r|]
    ensures r != [] ==> !IsColonOrSpace(r[|r| - 1])
    ensures forall i :: |r| <= i < |s| ==> IsColonOrSpace(s[i])
  {
    if s != [] && IsColonOrSpace(s[|s| - 1]) then DropTrailingSeparators(s[..|s| - 1]) else s
  }

  /**
    The label text: with the first occurrence of the phone cut out, the trailing
    colons and white space dropped and the rest trimmed; or only trimmed when the
    text does not contain the phone.
  */
  function CleanCtaText(ctaText: string, phone: string): (r: string)
    ensures r != [] ==> !IsSpace(r[0]) && !IsSpace(r[|r| - 1])
    ensures !Includes(ctaText, phone) ==> r == Trim(ctaText)
    ensures Includes(ctaText, phone) ==> r == [] || r[|r| - 1] != ':'
    ensures Includes(ctaText, phone) ==>
      && IndexOf(ctaText, phone).Some?
      && var k := IndexOf(ctaText, phone).value;
         r == Trim(DropTrailingSeparators(ctaText[..k] + ctaText[k + |phone|..]))
  {
    if Includes(ctaText, phone) then
      var k := IndexOf(ctaText, phone).value;
      assert ctaText[..k] + "" + ctaText[k + |phone|..] == ctaText[..k] + ctaText[k + |phone|..];
      TrimmedPrefixKeepsEnd(DropTrailingSeparators(ReplaceFirst(ctaText, phone, "")));
      Trim(DropTrailingSeparators(ReplaceFirst(ctaText, phone, "")))
    else Trim(ctaText)
  }

  /** Trimming a text that ends in neither a colon nor white space leaves its last character in place. */
  lemma TrimmedPrefixKeepsEnd(s: string)
    requires s != [] ==> !IsColonOrSpace(s[|s| - 1])
    ensures Trim(s) == [] || Trim(s)[|Trim(s)| - 1] != ':'
  {
    var u := TrimStart(s);
    if u != [] {
      assert u[|u| - 1] == s[|s| - 1];
      assert TrimEnd(u) == u;
    }
  }

  /** The button label: the cleaned text, then `: ` and the phone at the end. */
  function CtaLabel(ctaText: string, phone: string): (r: string)
    ensures EndsWith(r, ": " + phone)
    ensures StartsWith(r, CleanCtaText(ctaText, phone))
    ensures |r| == |CleanCtaText(ctaText, phone)| + 2 + |phone|
  {
    var c := CleanCtaText(ctaText, phone);
    var tail := ": " + phone;
    assert (c + tail)[..|c|] == c && (c + tail)[|c|..] == tail;
    assert c + ": " + phone == c + tail;
    c + tail
  }

  /**
    A phrase followed by separators and the phone, where the phone first
    occurs at its end, is cleaned back to the phrase: the label then holds
    the phone once, after the phrase.
  */
  lemma {:induction false} PhoneSuffixRemoved(phrase: string, sep: string, phone: string)
    requires phrase == Trim(phrase) && (phrase != [] ==> phrase[|phrase| - 1] != ':')
    requires forall i :: 0 <= i < |sep| ==> IsColonOrSpace(sep[i])
    requires IndexOf(phrase + sep + phone, phone) == Some(|phrase| + |sep|)
    ensures CleanCtaText(phrase + sep + phone, phone) == phrase
    ensures CtaLabel(phrase + sep + phone, phone) == phrase + ": " + phone
  {
    var text := phrase + sep + phone;
    var i := |phrase| + |sep|;
    assert text[..i] == phrase + sep;
    assert text[i + |phone|..] == [];
    assert ReplaceFirst(text, phone, "") == phrase + sep;
    DropSeparators(phrase, sep);
  }

  lemma {:induction false} DropSeparators(phrase: string, sep: string)
    requires phrase != [] ==> !IsColonOrSpace(phrase[|phrase| - 1])
    requires forall i :: 0 <= i < |sep| ==> IsColonOrSpace(sep[i])
    ensures DropTrailingSeparators(phrase + sep) == phrase
    decreases |sep|
  {
    if sep == [] {
      assert phrase + sep == phrase;
    } else {
      assert (phrase + sep)[..|phrase + sep| - 1] == phrase + sep[..|sep| - 1];
      DropSeparators(phrase, sep[..|sep| - 1]);
    }
  }

  /**
    Every text includes the empty phone, so with no phone the label loses its
    trailing colons and white space even though nothing was removed.
  */
  lemma EmptyPhone(ctaText: string)
    ensures CleanCtaText(ctaText, "") == Trim(DropTrailingSeparators(ctaText))
  {
    assert OccursAt(ctaText, "", 0);
    assert ReplaceFirst(ctaText, "", "") == ctaText;
  }
}
