/**
 * The identity matcher of onboarding: names are reduced to their lower-case
 * letters, and the profile name must agree with the name read from the
 * Aadhaar card, the PAN card (unless that one is blank) and the income proof.
 */
module NameMatcher {
  import opened Wrappers
  import opened Text

  /** `replaceAll("[^a-z]", "")`: the lower-case ASCII letters of `s`, in order. */
  function KeepLetters(s: string): string {
    if s == [] then ""
    else if IsLowerLetter(s[0]) then [s[0]] + KeepLetters(s[1..])
    else KeepLetters(s[1..])
  }

  /** The letters kept are lower-case letters, and there are no more of them than characters. */
  lemma {:induction false} KeepLettersShape(s: string)
    ensures |KeepLetters(s)| <= |s|
    ensures forall i :: 0 <= i < |KeepLetters(s)| ==> IsLowerLetter(KeepLetters(s)[i])
  {
    if s != [] {
      KeepLettersShape(s[1..]);
    }
  }

  /** NameMatcher.normalize: null becomes "", otherwise lower-case and keep only a-z. */
  function Normalize(value: Option<string>): (r: string)
    ensures value.None? ==> r == ""
    ensures forall i :: 0 <= i < |r| ==> IsLowerLetter(r[i])
  {
    match value
    case None => ""
    case Some(v) => KeepLettersShape(Lower(v)); KeepLetters(Lower(v))
  }

  /**
   * NameMatcher.allMatch. `p` is the PAN name: a null or blank one does not
   * take part in the match.
   */
  function AllMatch(profileName: Option<string>, a: Option<string>, p: Option<string>, i: Option<string>): (r: bool)
    ensures r ==> Normalize(profileName) != ""
    ensures r ==> Normalize(a) == Normalize(profileName) && Normalize(i) == Normalize(profileName)
    ensures r && p.Some? && !IsBlank(p.value) ==> Normalize(p) == Normalize(profileName)
    ensures (Normalize(profileName) != "" && Normalize(a) == Normalize(profileName)
             && Normalize(i) == Normalize(profileName)
             && (p.None? || IsBlank(p.value) || Normalize(p) == Normalize(profileName))) ==> r
  {
    var base := Normalize(profileName);
    if base == "" then false
    else
      var aadhaarOk := base == Normalize(a);
      var panOk := p.None? || IsBlank(p.value) || base == Normalize(p);
      var incomeOk := base == Normalize(i);
      aadhaarOk && panOk && incomeOk
  }

  // ---------------------------------------------------------------------------
  // Properties of Normalize

  lemma {:induction false} KeepLettersOfLetters(s: string)
    requires forall i :: 0 <= i < |s| ==> IsLowerLetter(s[i])
    ensures KeepLetters(s) == s
  {
    if s != [] {
      KeepLettersOfLetters(s[1..]);
      assert [s[0]] + s[1..] == s;
    }
  }

  lemma {:induction false} KeepLettersAppend(a: string, b: string)
    ensures KeepLetters(a + b) == KeepLetters(a) + KeepLetters(b)
  {
    if a != [] {
      KeepLettersAppend(a[1..], b);
      assert (a + b)[0] == a[0] && (a + b)[1..] == a[1..] + b;
      if IsLowerLetter(a[0]) {
        assert KeepLetters(a + b) == [a[0]] + KeepLetters(a[1..] + b);
      } else {
        assert KeepLetters(a + b) == KeepLetters(a[1..] + b);
      }
    } else {
      assert a + b == b;
    }
  }

  /** Normalising twice is normalising once. */
  lemma NormalizeIdempotent(value: Option<string>)
    ensures Normalize(Some(Normalize(value))) == Normalize(value)
  {
    var r := Normalize(value);
    assert Lower(r) == r;
    KeepLettersOfLetters(r);
  }

  /** Upper and lower case do not matter. */
  lemma NormalizeIgnoresCase(s: string)
    ensures Normalize(Some(Lower(s))) == Normalize(Some(s))
  {
    assert Lower(Lower(s)) == Lower(s);
  }

  /** A character that does not lower-case to a letter (a space, '-', a digit) does not matter. */
  lemma NormalizeIgnoresNonLetter(a: string, c: char, b: string)
    requires !IsLowerLetter(LowerChar(c))
    ensures Normalize(Some(a + [c] + b)) == Normalize(Some(a + b))
  {
    assert Lower(a + [c] + b) == Lower(a) + [LowerChar(c)] + Lower(b);
    assert Lower(a + b) == Lower(a) + Lower(b);
    KeepLettersAppend(Lower(a) + [LowerChar(c)], Lower(b));
    KeepLettersAppend(Lower(a), [LowerChar(c)]);
    KeepLettersAppend(Lower(a), Lower(b));
  }

  /** "Jo Ann" and "JO-ANN " both normalise to "joann". */
  lemma NormalizeExamples()
    ensures Normalize(Some("Jo Ann")) == "joann"
    ensures Normalize(Some("JO-ANN ")) == "joann"
  {
    NormalizeMixedCase();
    NormalizeShouted();
  }

  lemma NormalizeMixedCase()
    ensures Normalize(Some("Jo Ann")) == "joann"
  {
    LowerMixedCase();
    assert "jo ann" == "jo" + " " + "ann";
    KeepLettersAppend("jo" + " ", "ann");
    KeepLettersAppend("jo", " ");
    KeepLettersOfLetters("jo");
    KeepLettersOfLetters("ann");
  }

  lemma NormalizeShouted()
    ensures Normalize(Some("JO-ANN ")) == "joann"
  {
    LowerShouted();
    assert "jo-ann " == "jo" + "-" + "ann" + " ";
    KeepLettersAppend("jo" + "-" + "ann", " ");
    KeepLettersAppend("jo" + "-", "ann");
    KeepLettersAppend("jo", "-");
    KeepLettersOfLetters("jo");
    KeepLettersOfLetters("ann");
  }

  lemma LowerMixedCase()
    ensures Lower("Jo Ann") == "jo ann"
  {
  }

  lemma LowerShouted()
    ensures Lower("JO-ANN ") == "jo-ann "
  {
  }

  /** A blank string has no letters. */
  lemma {:induction false} BlankNormalizesToEmpty(s: string)
    requires IsBlank(s)
    ensures Normalize(Some(s)) == ""
  {
    if s != [] {
      BlankNormalizesToEmpty(s[1..]);
      assert Lower(s) == [LowerChar(s[0])] + Lower(s[1..]);
    }
  }

  // ---------------------------------------------------------------------------
  // Properties of AllMatch

  /** A null or blank Aadhaar or income name never matches. */
  lemma BlankRequiredNameFails(profileName: Option<string>, a: Option<string>, p: Option<string>, i: Option<string>)
    requires a.None? || IsBlank(a.value) || i.None? || IsBlank(i.value)
    ensures !AllMatch(profileName, a, p, i)
  {
    if a.Some? && IsBlank(a.value) {
      BlankNormalizesToEmpty(a.value);
    }
    if i.Some? && IsBlank(i.value) {
      BlankNormalizesToEmpty(i.value);
    }
  }

  /** A null or blank PAN name is the same as no PAN name at all. */
  lemma BlankPanIsOptional(profileName: Option<string>, a: Option<string>, p: Option<string>, i: Option<string>)
    requires p.None? || IsBlank(p.value)
    ensures AllMatch(profileName, a, p, i) == AllMatch(profileName, a, None, i)
  {
  }

  /** "!!!" is not blank, so it takes part, and it normalises to "": the match fails. */
  lemma PunctuationPanFails(profileName: Option<string>, a: Option<string>, i: Option<string>)
    ensures !AllMatch(profileName, a, Some("!!!"), i)
  {
    assert !IsJavaWhitespace("!!!"[0]);
    assert Lower("!!!") == "!!!";
  }
}
