/**
 Locales that a header declines, and the answers that the code gives all the same.
 */
module DeclinedLocales {
  import opened Wrappers
  import opened Searching
  import opened LocaleNegotiation

  /** Language tags are compared without regard to case (section 2 of RFC 4647), hyphen and underscore alike. */
  function Folded(tag: string): (r: string)
    ensures |r| == |tag|
  {
    Lowered(Underscored(tag))
  }

  /** A language range covers a locale that it equals or is the start of, up to a separator; "*" covers every locale. */
  predicate Covers(c: Candidate, locale: string) {
    c.lang == "*" || Fits(Region, Folded(locale), Folded(c.lang))
  }

  /** A longer range is more specific; "*" is the least specific of all. */
  function Specificity(c: Candidate): nat {
    if c.lang == "*" then 0 else |c.lang| + 1
  }

  function Weightless(cs: seq<Candidate>): set<Candidate> {
    set c | c in cs && c.q <= 0.0
  }

  function Weighted(cs: seq<Candidate>): set<Candidate> {
    set c | c in cs && c.q > 0.0
  }

  /** One of the ranges without weight covers the locale, and is more specific than every range with weight that does. */
  ghost predicate Outranks(weightless: set<Candidate>, weighted: set<Candidate>, locale: string) {
    exists c :: c in weightless && Covers(c, locale)
                && forall d :: d in weighted && Covers(d, locale) ==> Specificity(d) < Specificity(c)
  }

  /**
   A weight of 0 is "not acceptable" (section 5.3.1 of RFC 7231): a header declines a
   locale that a range without weight covers, unless a range as specific with one does.
   */
  ghost predicate Declines(cs: seq<Candidate>, locale: string) {
    Outranks(Weightless(cs), Weighted(cs), locale)
  }

  /** The range covers the locale, but not in the eyes of the matching loops: it is "*", or spelled otherwise. */
  predicate Unread(c: Candidate, locale: string) {
    Covers(c, locale) && !Fits(Region, locale, c.lang)
  }

  function UnreadOf(ranges: set<Candidate>, locale: string): set<Candidate> {
    set c | c in ranges && Unread(c, locale)
  }

  function MoreSpecific(ranges: set<Candidate>, c: Candidate): set<Candidate> {
    set d | d in ranges && Specificity(d) > Specificity(c)
  }

  lemma FoldedFits(lang: string, locale: string)
    requires Fits(Region, locale, lang)
    ensures Fits(Region, Folded(locale), Folded(lang))
  {
    if |lang| < |locale| {
      assert Folded(locale)[|lang|] == ToLower(Underscored(locale)[|lang|]) == '_';
    }
  }

  lemma FoldedAt(tag: string, i: nat)
    requires i < |tag|
    ensures Folded(tag)[i] == ToLower(if tag[i] == '-' then '_' else tag[i])
  {}

  lemma FoldedAppend(s: string, more: string)
    ensures Folded(s + more) == Folded(s) + Folded(more)
  {}

  lemma OnlyStarCoversStar(lang: string)
    requires Fits(Region, Folded("*"), Folded(lang))
    ensures lang == "*"
  {
    FoldedAt("*", 0);
    assert |lang| == 1;
    FoldedAt(lang, 0);
    assert lang == [lang[0]] && Folded(lang)[0] == Folded("*")[0];
  }

  lemma CoveringIsShort(c: Candidate, locale: string)
    requires Covers(c, locale)
    ensures Specificity(c) <= |locale| + 1
    ensures locale == "*" ==> Specificity(c) == 0
  {
    if locale == "*" && c.lang != "*" {
      OnlyStarCoversStar(c.lang);
    }
  }

  /** Nothing declines a locale that a range with weight names exactly. */
  lemma ExactIsNotDeclined(cs: seq<Candidate>, c: Candidate)
    requires c in cs && c.q > 0.0
    ensures !Declines(cs, c.lang)
  {
    FoldedFits(c.lang, c.lang);
    assert Covers(c, c.lang);
    forall d | d in Weightless(cs) && Covers(d, c.lang) ensures Specificity(d) <= Specificity(c) {
      CoveringIsShort(d, c.lang);
    }
  }

  /** A range with weight that starts the locale leaves only longer ones to decline it. */
  lemma DeclinedPastRegion(cs: seq<Candidate>, c: Candidate, locale: string)
    requires c in cs && c.q > 0.0 && Fits(Region, locale, c.lang)
    ensures Declines(cs, locale) <==> Outranks(MoreSpecific(Weightless(cs), c), Weighted(cs), locale)
  {
    FoldedFits(c.lang, locale);
    assert c in Weighted(cs) && Covers(c, locale);
  }

  /** If no range with weight matches anything, those that cover an available locale are all unread. */
  lemma DeclinedWithoutWeight(cs: seq<Candidate>, locales: seq<string>, locale: string)
    requires locale in locales
    requires forall d :: d in cs && d.q > 0.0 ==> MatchOf(locales, d.lang).None?
    ensures Declines(cs, locale) <==> Outranks(Weightless(cs), UnreadOf(Weighted(cs), locale), locale)
  {
    forall d | d in Weighted(cs) && Covers(d, locale) ensures d in UnreadOf(Weighted(cs), locale) {
      MatchOfIs(locales, d.lang);
    }
  }

  /** If nothing matches at all, so are those without weight. */
  lemma DeclinedWithoutMatch(cs: seq<Candidate>, locales: seq<string>, locale: string)
    requires locale in locales && NothingMatches(cs, locales)
    ensures Declines(cs, locale)
        <==> Outranks(UnreadOf(Weightless(cs), locale), UnreadOf(Weighted(cs), locale), locale)
  {
    DeclinedWithoutWeight(cs, locales, locale);
    forall d | d in Weightless(cs) && Covers(d, locale) ensures d in UnreadOf(Weightless(cs), locale) {
      MatchOfIs(locales, d.lang);
    }
  }

  /** The condition under which a winner's answer is declined, by the branch that answers. */
  ghost predicate DeclinedBy(cs: seq<Candidate>, c: Candidate, r: string) {
    if c.q <= 0.0 then Outranks(Weightless(cs), UnreadOf(Weighted(cs), r), r)
    else if r == c.lang then false
    else if c.lang <= r then Outranks(MoreSpecific(Weightless(cs), c), Weighted(cs), r)
    else Outranks(Weightless(cs), Weighted(cs), r)
  }

  /** The same if nothing matches, where an available default can be declined only by ranges the loops do not see. */
  ghost predicate DefaultDeclined(cs: seq<Candidate>, locales: seq<string>, default: string) {
    if default in locales then Outranks(UnreadOf(Weightless(cs), default), UnreadOf(Weighted(cs), default), default)
    else Outranks(Weightless(cs), Weighted(cs), default)
  }

  lemma WinnerIsDeclinedIff(cs: seq<Candidate>, locales: seq<string>, c: Candidate)
    requires Winner(cs, locales, c)
    ensures var r := MatchOf(locales, c.lang).value; Declines(cs, r) <==> DeclinedBy(cs, c, r)
  {
    var r := MatchOf(locales, c.lang).value;
    MatchOfIs(locales, c.lang);
    if c.q <= 0.0 {
      DeclinedWithoutWeight(cs, locales, r);
    } else if r == c.lang {
      ExactIsNotDeclined(cs, c);
    } else if c.lang <= r {
      StartsAsRegion(locales, c.lang);
      DeclinedPastRegion(cs, c, r);
    }
  }

  /** A match that goes on after the tag is a region of it. */
  lemma StartsAsRegion(locales: seq<string>, lang: string)
    requires MatchOf(locales, lang).Some? && lang <= MatchOf(locales, lang).value
    ensures Fits(Region, MatchOf(locales, lang).value, lang)
  {}

  /**
   The code takes a weight of 0 for the lowest preference. Some sort makes it answer a
   declined locale exactly under the conditions of the branches: a winner that is matched
   exactly and has weight is never declined; one without weight is as soon as a range
   without weight covers its match, unless a range the loops do not see outranks it; any
   other is if a range without weight is more specific than every one with weight.
   */
  lemma AnswerIsDeclinedIff(cs: seq<Candidate>, locales: seq<string>, default: string)
    ensures (exists r :: Answers(cs, locales, default, r) && Declines(cs, r)) <==>
              if NothingMatches(cs, locales) then DefaultDeclined(cs, locales, default)
              else exists c :: Winner(cs, locales, c) && DeclinedBy(cs, c, MatchOf(locales, c.lang).value)
  {
    forall r ensures Answers(cs, locales, default, r) <==>
                       if NothingMatches(cs, locales) then r == default
                       else exists c :: Winner(cs, locales, c) && MatchOf(locales, c.lang) == Some(r)
    {
      AnswersAre(cs, locales, default, r);
    }
    if NothingMatches(cs, locales) {
      if default in locales {
        DeclinedWithoutMatch(cs, locales, default);
      }
      assert Answers(cs, locales, default, default);
      assert Declines(cs, default) <==> DefaultDeclined(cs, locales, default);
    } else {
      forall c | Winner(cs, locales, c)
        ensures Answers(cs, locales, default, MatchOf(locales, c.lang).value)
        ensures Declines(cs, MatchOf(locales, c.lang).value) <==> DeclinedBy(cs, c, MatchOf(locales, c.lang).value)
      {
        WinnerCanAnswer(cs, locales, default, c);
        WinnerIsDeclinedIff(cs, locales, c);
      }
    }
  }

  /** What a caller can check first: if no range without weight covers a locale on offer, no answer is declined. */
  lemma NoDeclinedAnswer(cs: seq<Candidate>, locales: seq<string>, default: string, r: string)
    requires forall c, l :: c in cs && c.q <= 0.0 && (l in locales || l == default) ==> !Covers(c, l)
    requires Answers(cs, locales, default, r)
    ensures !Declines(cs, r)
  {
    AnswersAre(cs, locales, default, r);
    if !NothingMatches(cs, locales) {
      var c :| Winner(cs, locales, c) && MatchOf(locales, c.lang) == Some(r);
      NothingHeavierFits(cs, locales, c, r);
    }
  }

  lemma PlainIsWellFormed(tag: string, value: string)
    requires tag != "" && Plain(tag) && Plain(value)
    ensures WellFormed(Simple(tag, Some(value)))
  {
    if value != "" { PlainEnds(value); }
  }

  lemma WeightIsRead(tag: string, value: string, weigh: Weigh)
    requires tag != "" && Plain(tag) && Plain(value)
    ensures Candidates(tag + ";q=" + value, weigh) == [Candidate(Normalized(tag), Quality(Some(value), weigh))]
  {
    PlainIsWellFormed(tag, value);
    OneIsRead(Simple(tag, Some(value)), weigh);
    SimpleText(tag, Some(value));
    assert tag + ";q=" + value == tag + (";q=" + value);
  }

  lemma OnlyDeclined(locale: string)
    ensures Winner([Candidate(locale, 0.0)], [locale], Candidate(locale, 0.0)) && MatchOf([locale], locale) == Some(locale)
    ensures Declines([Candidate(locale, 0.0)], locale)
  {
    FoldedFits(locale, locale);
    assert Candidate(locale, 0.0) in Weightless([Candidate(locale, 0.0)]);
  }

  /** A header that only declines a locale is answered in that locale. */
  lemma DeclinedLocaleIsAnswered(locale: string, zero: string, weigh: Weigh)
    requires locale != "" && Plain(locale) && Plain(zero) && Normalized(locale) == locale
    requires weigh(zero) == Some(0.0)
    ensures Candidates(locale + ";q=" + zero, weigh) == [Candidate(locale, 0.0)]
    ensures Winner([Candidate(locale, 0.0)], [locale], Candidate(locale, 0.0)) && MatchOf([locale], locale) == Some(locale)
    ensures Declines([Candidate(locale, 0.0)], locale)
  {
    WeightIsRead(locale, zero, weigh);
    OnlyDeclined(locale);
  }

  /**
   So is one that prefers a region of the locale and declines the rest, as
   "en-US, en;q=0" does: the winner has weight 1, and its base language is declined.
   */
  lemma DeclinedBaseIsAnswered(tag: string, lang: string, region: string, zero: string, default: string, weigh: Weigh)
    requires tag != "" && Plain(tag) && Normalized(tag) == lang + "_" + region
    requires lang != "" && Plain(lang) && Plain(zero) && Normalized(lang) == lang && '_' !in lang
    requires weigh(zero) == Some(0.0)
    ensures var cs := Candidates(Header([Simple(tag, None), Simple(lang, Some(zero))]), weigh);
            && cs == [Candidate(lang + "_" + region, 1.0), Candidate(lang, 0.0)]
            && (forall r :: Answers(cs, [lang], default, r) <==> r == lang)
            && Declines(cs, lang)
  {
    PlainIsWellFormed(lang, zero);
    TwoAreRead(Simple(tag, None), Simple(lang, Some(zero)), weigh);
    BaseAnswers(lang, region, default);
  }

  lemma BaseAnswers(lang: string, region: string, default: string)
    requires lang != "" && '_' !in lang
    ensures var cs := [Candidate(lang + "_" + region, 1.0), Candidate(lang, 0.0)];
            && (forall r :: Answers(cs, [lang], default, r) <==> r == lang)
            && Declines(cs, lang)
  {
    var wide := lang + "_" + region;
    var cs := [Candidate(wide, 1.0), Candidate(lang, 0.0)];
    IndexOfIs(lang, '_', region);
    assert lang + ['_'] + region == wide && wide[..|lang|] == lang && |wide| > |lang|;
    assert Fits(Base, lang, wide) && !Fits(Exact, lang, wide);
    assert MatchOf([lang], wide) == Some(lang);
    assert MatchOf([lang], lang) == Some(lang);
    assert Winner(cs, [lang], cs[0]);
    forall r ensures Answers(cs, [lang], default, r) <==> r == lang {
      AnswersAre(cs, [lang], default, r);
    }
    FoldedFits(lang, lang);
    assert cs[1] in Weightless(cs) && Covers(cs[1], lang) && !Covers(cs[0], lang);
  }

  /** A range in other letters declines a locale that its base answers, as "en, en-us;q=0" does with en_US. */
  lemma DeclinedSpellingIsAnswered(lang: string, region: string, spelled: string, default: string)
    requires lang != "" && lang != "*" && region != spelled && Folded(region) == Folded(spelled)
    ensures var locale, cs := lang + "_" + region, [Candidate(lang, 1.0), Candidate(lang + "_" + spelled, 0.0)];
            && (forall r :: Answers(cs, [locale], default, r) <==> r == locale)
            && Declines(cs, locale)
  {
    var locale, cs := lang + "_" + region, [Candidate(lang, 1.0), Candidate(lang + "_" + spelled, 0.0)];
    assert lang <= locale && locale[|lang|] == '_';
    assert Fits(Region, locale, lang) && MatchOf([locale], lang) == Some(locale);
    assert Winner(cs, [locale], cs[0]);
    forall r ensures Answers(cs, [locale], default, r) <==> r == locale {
      AnswersAre(cs, [locale], default, r);
    }
    FoldedAppend(lang + "_", region);
    FoldedAppend(lang + "_", spelled);
    assert cs[1] in Weightless(cs) && Covers(cs[1], locale);
  }

  /** The range "*" without weight declines everything it is alone to cover, and leaves the code to answer the default. */
  lemma DeclinedByStarIsAnswered(zero: string, locales: seq<string>, default: string, weigh: Weigh)
    requires Plain(zero) && weigh(zero) == Some(0.0)
    requires forall l :: l in locales ==> !("*" <= l)
    ensures var cs := Candidates(Header([Simple("*", Some(zero))]), weigh);
            && (forall r :: Answers(cs, locales, default, r) <==> r == default)
            && Declines(cs, default)
  {
    StarIsRead(zero, weigh);
    StarAnswers(locales, default);
  }

  lemma StarIsRead(zero: string, weigh: Weigh)
    requires Plain(zero) && weigh(zero) == Some(0.0)
    ensures Candidates(Header([Simple("*", Some(zero))]), weigh) == [Candidate("*", 0.0)]
  {
    PlainIsWellFormed("*", zero);
    OneIsRead(Simple("*", Some(zero)), weigh);
    assert Normalized("*") == "*";
  }

  lemma StarAnswers(locales: seq<string>, default: string)
    requires forall l :: l in locales ==> !("*" <= l)
    ensures var cs := [Candidate("*", 0.0)];
            && (forall r :: Answers(cs, locales, default, r) <==> r == default)
            && Declines(cs, default)
  {
    var cs := [Candidate("*", 0.0)];
    MatchOfIs(locales, "*");
    assert NothingMatches(cs, locales);
    forall r ensures Answers(cs, locales, default, r) <==> r == default {
      AnswersAre(cs, locales, default, r);
    }
    assert cs[0] in Weightless(cs) && Covers(cs[0], default);
  }
}
