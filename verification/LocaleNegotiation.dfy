/**
 Choosing a locale for an Accept-Language header (section 5.3.5 of RFC 7231).

 weigh reads a quality value, or fails; reading decimal numbers is not modelled.
 */
module LocaleNegotiation {
  import opened Wrappers
  import opened Sequences
  import opened Searching

  type Weigh = string -> Option<real>

  datatype Candidate = Candidate(lang: string, q: real)

  // ------------------------------------------------------------------
  // Reading the header
  // ------------------------------------------------------------------

  predicate Blank(c: char) {
    c == ' ' || c == '\t'
  }

  function StripStart(s: string): string {
    if s != "" && Blank(s[0]) then StripStart(s[1..]) else s
  }

  function StripEnd(s: string): string {
    if s != "" && Blank(s[|s| - 1]) then StripEnd(s[..|s| - 1]) else s
  }

  function ToLower(c: char): char {
    if 'A' <= c <= 'Z' then c + 32 as char else c
  }

  function Lowered(s: string): (r: string)
    ensures |r| == |s|
  {
    seq(|s|, i requires 0 <= i < |s| => ToLower(s[i]))
  }

  function Underscored(s: string): (r: string)
    ensures |r| == |s|
  {
    seq(|s|, i requires 0 <= i < |s| => if s[i] == '-' then '_' else s[i])
  }

  /** en-US becomes en_US, and the base language is put in lower case. */
  function Normalized(tag: string): string {
    var lang := Underscored(tag);
    var k := IndexOf(lang, '_');
    if k.None? then Lowered(lang) else Lowered(lang[..k.value]) + lang[k.value..]
  }

  function Quality(text: Option<string>, weigh: Weigh): real {
    if text.Some? && weigh(text.value).Some? then weigh(text.value).value else 1.0
  }

  function Range(part: string, weigh: Weigh): Candidate {
    var semi := IndexOf(part, ';');
    if semi.None? then Candidate(Normalized(part), 1.0)
    else
      var lang, params := part[..semi.value], part[semi.value + 1..];
      var at := Find(params, "q=", 0);
      Candidate(Normalized(if StripEnd(lang) == "" then lang else StripEnd(lang)),
                Quality(if at.None? then None else Some(params[at.value + 2..]), weigh))
  }

  function Candidates(header: string, weigh: Weigh): seq<Candidate>
    decreases |header|
  {
    if header == "" then []
    else
      var comma := IndexOf(header, ',');
      var part := StripEnd(StripStart(if comma.Some? then header[..comma.value] else header));
      var others := Candidates(if comma.Some? then header[comma.value + 1..] else "", weigh);
      if part == "" then others else [Range(part, weigh)] + others
  }

  lemma CandidatesOfRest(header: string, weigh: Weigh, part: string, rest: string)
    requires header != ""
    requires var comma := IndexOf(header, ',');
             && part == StripEnd(StripStart(if comma.Some? then header[..comma.value] else header))
             && rest == if comma.Some? then header[comma.value + 1..] else ""
    ensures Candidates(header, weigh) ==
              if part == "" then Candidates(rest, weigh) else [Range(part, weigh)] + Candidates(rest, weigh)
  {}

  method Parse(header: string, weigh: Weigh) returns (candidates: seq<Candidate>)
    ensures candidates == Candidates(header, weigh)
  {
    candidates := [];
    var remaining := header;
    while remaining != ""
      invariant candidates + Candidates(remaining, weigh) == Candidates(header, weigh)
      decreases |remaining|
    {
      ghost var before := remaining;
      var comma := IndexOf(remaining, ',');
      var part := if comma.Some? then remaining[..comma.value] else remaining;
      remaining := if comma.Some? then remaining[comma.value + 1..] else "";
      part := StripEnd(StripStart(part));
      CandidatesOfRest(before, weigh, part, remaining);
      if part == "" {
        continue;
      }
      var candidate := ReadRange(part, weigh);
      AppendAssoc(candidates, [candidate], Candidates(remaining, weigh));
      candidates := candidates + [candidate];
    }
  }

  method ReadRange(part: string, weigh: Weigh) returns (candidate: Candidate)
    ensures candidate == Range(part, weigh)
  {
    var lang, q := part, 1.0;
    var semi := IndexOf(part, ';');
    if semi.Some? {
      lang := part[..semi.value];
      if StripEnd(lang) != "" {
        lang := StripEnd(lang);
      }
      var params := part[semi.value + 1..];
      var at := Find(params, "q=", 0);
      if at.Some? {
        var value := weigh(params[at.value + 2..]);
        if value.Some? {
          q := value.value;
        }
      }
    }
    candidate := Candidate(Normalized(lang), q);
  }

  // ------------------------------------------------------------------
  // Tags
  // ------------------------------------------------------------------

  const UPPER := "ABCDEFGHIJKLMNOPQRSTUVWXYZ"
  const LOWER := "abcdefghijklmnopqrstuvwxyz"

  lemma LettersAre(i: nat)
    requires i < 26
    ensures UPPER[i] == 'A' + i as char && LOWER[i] == 'a' + i as char
  {}

  /** The other case of a capital letter; anything else is its own lower case. */
  lemma LowerCaseIs(c: char)
    ensures c in UPPER ==> exists i :: 0 <= i < 26 && c == UPPER[i] && ToLower(c) == LOWER[i]
    ensures c !in UPPER ==> ToLower(c) == c
  {
    if 'A' <= c <= 'Z' {
      var i := c as nat - 'A' as nat;
      LettersAre(i);
      assert c == UPPER[i] && ToLower(c) == LOWER[i];
    } else if c in UPPER {
      var i :| 0 <= i < |UPPER| && UPPER[i] == c;
      LettersAre(i);
    }
  }

  /** Character i lies in the base language: no separator comes before it or is it. */
  predicate InBase(tag: string, i: nat)
    requires i < |tag|
  {
    forall j :: 0 <= j <= i ==> tag[j] != '-' && tag[j] != '_'
  }

  /** Character by character: hyphens become underscores, the base language lower case, and the rest stays. */
  predicate Normalizes(tag: string, lang: string) {
    && |lang| == |tag|
    && forall i :: 0 <= i < |tag| ==>
         lang[i] == if tag[i] == '-' then '_' else if InBase(tag, i) then ToLower(tag[i]) else tag[i]
  }

  /** The base language ends where the first underscore is once hyphens are underscores. */
  lemma BaseEnds(tag: string, i: nat)
    requires i < |tag|
    ensures var k := IndexOf(Underscored(tag), '_'); InBase(tag, i) <==> k.None? || i < k.value
  {
    var lang := Underscored(tag);
    var k := IndexOf(lang, '_');
    if k.None? || i < k.value {
      forall j | 0 <= j <= i ensures tag[j] != '-' && tag[j] != '_' {
        assert lang[j] in if k.None? then lang else lang[..k.value];
      }
    } else {
      assert tag[k.value] == '-' || tag[k.value] == '_';
    }
  }

  lemma NormalizedIs(tag: string)
    ensures Normalizes(tag, Normalized(tag))
  {
    var lang := Underscored(tag);
    var k := IndexOf(lang, '_');
    forall i | 0 <= i < |tag|
      ensures Normalized(tag)[i] == if tag[i] == '-' then '_' else if InBase(tag, i) then ToLower(tag[i]) else tag[i]
    {
      BaseEnds(tag, i);
    }
  }

  /** No other tag is the normal form. */
  lemma NormalFormIs(tag: string, lang: string)
    requires Normalizes(tag, lang)
    ensures lang == Normalized(tag)
  {
    NormalizedIs(tag);
  }

  // ------------------------------------------------------------------
  // A header and what it says
  // ------------------------------------------------------------------

  /**
   One element of a header: a language tag and perhaps the text of its quality value, with
   blanks around them and whatever other parameters lead up to "q="; or nothing but blanks.
   */
  datatype Item =
    | Item(tag: string, weight: Option<string>, before: string, between: string, lead: string, after: string)
    | Gap(blanks: string)

  function Simple(tag: string, weight: Option<string>): Item {
    Item(tag, weight, "", "", "", "")
  }

  predicate Plain(s: string) {
    forall c :: c in s ==> c != ',' && c != ';' && c != ' ' && c != '\t'
  }

  predicate Blanks(s: string) {
    forall c :: c in s ==> c == ' ' || c == '\t'
  }

  predicate EndsBlank(s: string) {
    s != "" && (s[|s| - 1] == ' ' || s[|s| - 1] == '\t')
  }

  predicate WellFormed(item: Item) {
    match item
    case Gap(blanks) => Blanks(blanks)
    case Item(tag, weight, before, between, lead, after) =>
      && tag != "" && Plain(tag) && Blanks(before) && Blanks(between) && Blanks(after)
      && ',' !in lead && 'q' !in lead
      && (weight.Some? ==> ',' !in weight.value && !EndsBlank(weight.value))
  }

  function Core(item: Item): string
    requires item.Item?
  {
    item.tag + if item.weight.Some? then item.between + [';'] + (item.lead + "q=" + item.weight.value) else ""
  }

  function Text(item: Item): string {
    if item.Gap? then item.blanks else item.before + Core(item) + item.after
  }

  function Header(items: seq<Item>): string {
    if items == [] then "" else if |items| == 1 then Text(items[0]) else Text(items[0]) + [','] + Header(items[1..])
  }

  /** The elements that name a language. */
  function Named(items: seq<Item>): seq<Item> {
    if items == [] then [] else (if items[0].Item? then [items[0]] else []) + Named(items[1..])
  }

  /** The tag's normal form, with the quality value, which is 1 if it is missing or unreadable. */
  predicate Reads(item: Item, c: Candidate, weigh: Weigh)
    requires item.Item?
  {
    && Normalizes(item.tag, c.lang)
    && c.q == match item.weight
              case None => 1.0
              case Some(text) => match weigh(text) case None => 1.0 case Some(q) => q
  }

  lemma {:induction false} IndexOfIs(before: string, c: char, after: string)
    requires c !in before
    ensures IndexOf(before + [c] + after, c) == Some(|before|)
    decreases |before|
  {
    if before != "" {
      assert (before + [c] + after)[1..] == before[1..] + [c] + after;
      IndexOfIs(before[1..], c, after);
    }
  }

  lemma {:induction false} StripsStart(blanks: string, s: string)
    requires Blanks(blanks) && (s != "" ==> !Blank(s[0]))
    ensures StripStart(blanks + s) == s
    decreases |blanks|
  {
    if blanks == "" {
      assert blanks + s == s;
    } else {
      assert blanks[0] in blanks && forall c :: c in blanks[1..] ==> c in blanks;
      assert (blanks + s)[1..] == blanks[1..] + s;
      StripsStart(blanks[1..], s);
    }
  }

  lemma {:induction false} StripsEnd(s: string, blanks: string)
    requires Blanks(blanks) && (s != "" ==> !Blank(s[|s| - 1]))
    ensures StripEnd(s + blanks) == s
    decreases |blanks|
  {
    if blanks == "" {
      assert s + blanks == s;
    } else {
      var n := |blanks| - 1;
      assert blanks[n] in blanks && forall c :: c in blanks[..n] ==> c in blanks;
      assert (s + blanks)[..|s| + n] == s + blanks[..n];
      StripsEnd(s, blanks[..n]);
    }
  }

  lemma PlainEnds(s: string)
    requires s != "" && Plain(s)
    ensures !Blank(s[0]) && !Blank(s[|s| - 1])
  {
    assert s[0] in s && s[|s| - 1] in s;
  }

  lemma CoreEnds(item: Item)
    requires item.Item? && WellFormed(item)
    ensures Core(item) != "" && !Blank(Core(item)[0]) && !Blank(Core(item)[|Core(item)| - 1])
  {
    var core, tag := Core(item), item.tag;
    PlainEnds(tag);
    assert core[0] == tag[0];
    if item.weight.Some? {
      var value := item.weight.value;
      assert core == tag + item.between + [';'] + item.lead + "q=" + value;
      if value != "" {
        assert core[|core| - 1] == value[|value| - 1];
      } else {
        assert core[|core| - 1] == '=';
      }
    }
  }

  lemma TextIsStripped(item: Item)
    requires WellFormed(item)
    ensures StripEnd(StripStart(Text(item))) == if item.Gap? then "" else Core(item)
  {
    if item.Gap? {
      StripsStart(item.blanks, "");
      assert item.blanks + "" == item.blanks;
    } else {
      CoreEnds(item);
      var core := Core(item);
      assert Text(item) == item.before + (core + item.after);
      StripsStart(item.before, core + item.after);
      StripsEnd(core, item.after);
    }
  }

  lemma NoCommaInCore(item: Item)
    requires item.Item? && WellFormed(item)
    ensures ',' !in Core(item)
  {
    assert ',' !in item.tag && ',' !in item.between;
    if item.weight.Some? {
      assert ',' !in item.lead + "q=" + item.weight.value;
    }
  }

  lemma NoCommaIn(item: Item)
    requires WellFormed(item)
    ensures ',' !in Text(item)
  {
    if item.Item? {
      NoCommaInCore(item);
    }
  }

  /** The value is what follows the first "q=". */
  lemma ValueIsFound(lead: string, value: string)
    requires 'q' !in lead
    ensures var params := lead + "q=" + value;
            Find(params, "q=", 0) == Some(|lead|) && params[|lead| + 2..] == value
  {
    var params := lead + "q=" + value;
    assert params[|lead|..|lead| + 2] == "q=";
    forall j | 0 <= j < |lead| ensures !MatchAt(params, "q=", j) {
      assert params[j] == lead[j] && lead[j] in lead;
      assert params[j..j + 2][0] == params[j];
    }
    FindIs(params, "q=", 0, Some(|lead|));
  }

  lemma CoreIsRange(item: Item, weigh: Weigh)
    requires item.Item? && WellFormed(item)
    ensures Reads(item, Range(Core(item), weigh), weigh)
  {
    var core, tag := Core(item), item.tag;
    NormalizedIs(tag);
    PlainEnds(tag);
    if item.weight.Some? {
      var lang, params := tag + item.between, item.lead + "q=" + item.weight.value;
      assert core == lang + [';'] + params;
      assert ';' !in lang;
      IndexOfIs(lang, ';', params);
      assert core[..|lang|] == lang && core[|lang| + 1..] == params;
      StripsEnd(tag, item.between);
      ValueIsFound(item.lead, item.weight.value);
    } else {
      assert core == tag && ';' !in tag;
      assert IndexOf(tag, ';') == None;
    }
  }

  /** What is read of the first element. */
  function ReadFirst(item: Item, weigh: Weigh): seq<Candidate> {
    if item.Gap? then [] else [Range(Core(item), weigh)]
  }

  lemma CandidatesOfFirst(item: Item, rest: string, weigh: Weigh)
    requires WellFormed(item)
    ensures Candidates(Text(item) + [','] + rest, weigh) == ReadFirst(item, weigh) + Candidates(rest, weigh)
  {
    var first := Text(item);
    var header := first + [','] + rest;
    NoCommaIn(item);
    IndexOfIs(first, ',', rest);
    TextIsStripped(item);
    if item.Item? { CoreEnds(item); }
    assert header[..|first|] == first && header[|first| + 1..] == rest;
    CandidatesOfRest(header, weigh, if item.Gap? then "" else Core(item), rest);
  }

  lemma CandidatesOfLast(item: Item, weigh: Weigh)
    requires WellFormed(item)
    ensures Candidates(Text(item), weigh) == ReadFirst(item, weigh)
  {
    NoCommaIn(item);
    TextIsStripped(item);
    if item.Item? {
      CoreEnds(item);
      assert |Text(item)| >= |Core(item)|;
    }
    if Text(item) != "" {
      CandidatesOfRest(Text(item), weigh, if item.Gap? then "" else Core(item), "");
    }
  }

  ghost predicate ReadsAll(items: seq<Item>, cs: seq<Candidate>, weigh: Weigh) {
    && |cs| == |items|
    && forall i :: 0 <= i < |items| ==> items[i].Item? && Reads(items[i], cs[i], weigh)
  }

  /**
   A header written from tags and quality values, with blanks, empty elements and other
   parameters before "q=", is read back as just those tags, normalised, with those values.
   */
  lemma {:induction false} HeaderIsRead(items: seq<Item>, weigh: Weigh)
    requires forall i :: 0 <= i < |items| ==> WellFormed(items[i])
    ensures ReadsAll(Named(items), Candidates(Header(items), weigh), weigh)
    decreases |items|
  {
    if items != [] {
      HeaderIsRead(items[1..], weigh);
      FirstIsRead(items, weigh);
      if items[0].Item? {
        CoreIsRange(items[0], weigh);
      }
    }
  }

  lemma FirstIsRead(items: seq<Item>, weigh: Weigh)
    requires items != [] && WellFormed(items[0])
    ensures Candidates(Header(items), weigh) == ReadFirst(items[0], weigh) + Candidates(Header(items[1..]), weigh)
  {
    if |items| > 1 {
      CandidatesOfFirst(items[0], Header(items[1..]), weigh);
    } else {
      CandidatesOfLast(items[0], weigh);
      assert items[1..] == [];
    }
  }

  // ------------------------------------------------------------------
  // Matching
  // ------------------------------------------------------------------

  datatype Tier = Exact | Base | Region

  predicate Fits(tier: Tier, locale: string, lang: string) {
    match tier
    case Exact => locale == lang
    case Base => '_' in lang && locale == lang[..IndexOf(lang, '_').value]
    case Region => lang <= locale && (|locale| == |lang| || locale[|lang|] == '_')
  }

  /** The first locale that fits in the best tier in which any does. */
  function FirstIn(tier: Tier, locales: seq<string>, lang: string): (r: Option<string>)
    ensures r.Some? ==> r.value in locales && Fits(tier, r.value, lang)
    ensures r.None? ==> forall l :: l in locales ==> !Fits(tier, l, lang)
  {
    if locales == [] then None
    else if Fits(tier, locales[0], lang) then Some(locales[0])
    else FirstIn(tier, locales[1..], lang)
  }

  function MatchOf(locales: seq<string>, lang: string): Option<string> {
    if FirstIn(Exact, locales, lang).Some? then FirstIn(Exact, locales, lang)
    else if FirstIn(Base, locales, lang).Some? then FirstIn(Base, locales, lang)
    else FirstIn(Region, locales, lang)
  }

  method FindFirst(tier: Tier, locales: seq<string>, lang: string) returns (r: Option<string>)
    ensures r == FirstIn(tier, locales, lang)
  {
    var i := 0;
    while i < |locales|
      invariant 0 <= i <= |locales|
      invariant FirstIn(tier, locales, lang) == FirstIn(tier, locales[i..], lang)
    {
      if Fits(tier, locales[i], lang) {
        return Some(locales[i]);
      }
      i := i + 1;
    }
    r := None;
  }

  method Match(locales: seq<string>, lang: string) returns (r: Option<string>)
    ensures r == MatchOf(locales, lang)
  {
    r := FindFirst(Exact, locales, lang);
    if r.Some? {
      return;
    }
    if '_' in lang {
      r := FindFirst(Base, locales, lang);
      if r.Some? {
        return;
      }
    }
    r := FindFirst(Region, locales, lang);
  }

  // ------------------------------------------------------------------
  // Negotiation
  // ------------------------------------------------------------------

  ghost predicate Descending(cs: seq<Candidate>) {
    forall i, j :: 0 <= i < j < |cs| ==> cs[i].q >= cs[j].q
  }

  lemma InsertAt(sorted: seq<Candidate>, k: nat, c: Candidate)
    requires Descending(sorted) && k <= |sorted|
    requires forall m :: 0 <= m < k ==> sorted[m].q >= c.q
    requires k < |sorted| ==> sorted[k].q <= c.q
    ensures var r := sorted[..k] + [c] + sorted[k..];
            Descending(r) && multiset(r) == multiset(sorted) + multiset{c}
  {
    InsertIsDescending(sorted, k, c);
    assert multiset(sorted) == multiset(sorted[..k]) + multiset(sorted[k..]) by {
      assert sorted == sorted[..k] + sorted[k..];
    }
  }

  lemma InsertIsDescending(sorted: seq<Candidate>, k: nat, c: Candidate)
    requires Descending(sorted) && k <= |sorted|
    requires forall m :: 0 <= m < k ==> sorted[m].q >= c.q
    requires k < |sorted| ==> sorted[k].q <= c.q
    ensures Descending(sorted[..k] + [c] + sorted[k..])
  {
    var r := sorted[..k] + [c] + sorted[k..];
    forall i | 0 <= i < |r| ensures r[i] == if i < k then sorted[i] else if i == k then c else sorted[i - 1] {}
  }

  method PlaceFor(sorted: seq<Candidate>, q: real) returns (k: nat)
    ensures k <= |sorted| && (forall m :: 0 <= m < k ==> sorted[m].q >= q) && (k < |sorted| ==> sorted[k].q < q)
  {
    k := 0;
    while k < |sorted| && sorted[k].q >= q
      invariant 0 <= k <= |sorted| && forall m :: 0 <= m < k ==> sorted[m].q >= q
    {
      k := k + 1;
    }
  }

  ghost predicate SortOf(sorted: seq<Candidate>, cs: seq<Candidate>) {
    multiset(sorted) == multiset(cs) && Descending(sorted)
  }

  /** Callers rely on the contract alone, so what follows holds for any sort, stable or not. */
  method SortByWeight(cs: seq<Candidate>) returns (sorted: seq<Candidate>)
    ensures SortOf(sorted, cs)
  {
    sorted := [];
    var i := 0;
    while i < |cs|
      invariant 0 <= i <= |cs| && multiset(sorted) == multiset(cs[..i]) && Descending(sorted)
    {
      var k := PlaceFor(sorted, cs[i].q);
      assert cs[..i + 1] == cs[..i] + [cs[i]];
      InsertAt(sorted, k, cs[i]);
      sorted := sorted[..k] + [cs[i]] + sorted[k..];
      i := i + 1;
    }
    assert cs[..i] == cs;
  }

  /** A heaviest candidate among those that match some locale. */
  ghost predicate Winner(cs: seq<Candidate>, locales: seq<string>, c: Candidate) {
    && c in cs && MatchOf(locales, c.lang).Some?
    && forall d :: d in cs && MatchOf(locales, d.lang).Some? ==> d.q <= c.q
  }

  lemma FirstMatchWins(cs: seq<Candidate>, sorted: seq<Candidate>, locales: seq<string>, i: nat)
    requires SortOf(sorted, cs)
    requires i <= |sorted| && forall k :: 0 <= k < i ==> MatchOf(locales, sorted[k].lang).None?
    ensures i < |sorted| && MatchOf(locales, sorted[i].lang).Some? ==> Winner(cs, locales, sorted[i])
    ensures i == |sorted| ==> forall c :: c in cs ==> MatchOf(locales, c.lang).None?
  {
    assert forall c :: c in cs <==> c in multiset(cs);
    forall c | c in cs ensures exists k :: 0 <= k < |sorted| && sorted[k] == c {
      assert c in multiset(sorted);
      assert c in sorted;
    }
    if i < |sorted| {
      assert sorted[i] in multiset(sorted);
    }
  }

  /** What the matching loop answers for a sorted list. */
  function AnswerOf(sorted: seq<Candidate>, locales: seq<string>, default: string): string {
    if sorted == [] then default
    else if MatchOf(locales, sorted[0].lang).Some? then MatchOf(locales, sorted[0].lang).value
    else AnswerOf(sorted[1..], locales, default)
  }

  /** Some sort of the candidates makes the code answer r. */
  ghost predicate Answers(cs: seq<Candidate>, locales: seq<string>, default: string, r: string) {
    exists sorted :: SortOf(sorted, cs) && AnswerOf(sorted, locales, default) == r
  }

  ghost predicate NothingMatches(cs: seq<Candidate>, locales: seq<string>) {
    forall c :: c in cs ==> MatchOf(locales, c.lang).None?
  }

  /** The default if there is no header, no locale or no match, and else the match of a winner. */
  method Negotiate(header: string, locales: seq<string>, default: string, weigh: Weigh) returns (r: string)
    ensures if header == "" || locales == [] || NothingMatches(Candidates(header, weigh), locales) then r == default
            else exists c :: Winner(Candidates(header, weigh), locales, c) && MatchOf(locales, c.lang) == Some(r)
    ensures Answers(Candidates(header, weigh), locales, default, r)
  {
    if header == "" || locales == [] {
      AnswersAre(Candidates(header, weigh), locales, default, default);
      return default;
    }
    var candidates := Parse(header, weigh);
    var sorted := SortByWeight(candidates);
    var i := 0;
    while i < |sorted|
      invariant 0 <= i <= |sorted|
      invariant AnswerOf(sorted, locales, default) == AnswerOf(sorted[i..], locales, default)
      invariant forall k :: 0 <= k < i ==> MatchOf(locales, sorted[k].lang).None?
    {
      FirstMatchWins(candidates, sorted, locales, i);
      var found := Match(locales, sorted[i].lang);
      if found.Some? {
        return found.value;
      }
      i := i + 1;
    }
    FirstMatchWins(candidates, sorted, locales, i);
    r := default;
  }

  /** The answer is available and fits the winner; whatever is strictly heavier than the winner fits nothing. */
  lemma NothingHeavierFits(cs: seq<Candidate>, locales: seq<string>, winner: Candidate, r: string)
    requires Winner(cs, locales, winner) && MatchOf(locales, winner.lang) == Some(r)
    ensures r in locales && exists t :: Fits(t, r, winner.lang)
    ensures forall c, l, t :: c in cs && c.q > winner.q && l in locales ==> !Fits(t, l, c.lang)
  {
    MatchOfIs(locales, winner.lang);
    forall c | c in cs && c.q > winner.q ensures forall l, t :: l in locales ==> !Fits(t, l, c.lang) {
      MatchOfIs(locales, c.lang);
    }
  }

  /** In which tier, in terms of the texts: equal, the part before the first underscore, or followed by an underscore. */
  lemma FitsIff(tier: Tier, locale: string, lang: string)
    ensures Fits(tier, locale, lang) <==>
              match tier
              case Exact => locale == lang
              case Base => '_' !in locale && exists region :: lang == locale + ['_'] + region
              case Region => locale == lang || exists region :: locale == lang + ['_'] + region
  {
    if tier == Base {
      if Fits(Base, locale, lang) {
        var k := IndexOf(lang, '_').value;
        assert lang == locale + ['_'] + lang[k + 1..];
      }
      if region :| '_' !in locale && lang == locale + ['_'] + region {
        IndexOfIs(locale, '_', region);
        assert lang[|locale|] == '_' && lang[..|locale|] == locale;
      }
    } else if tier == Region {
      if Fits(Region, locale, lang) && |locale| > |lang| {
        assert locale == lang + ['_'] + locale[|lang| + 1..];
      }
    }
  }

  /** The k-th locale comes before the j-th as a match of the tag: in a better tier, or in the same and earlier. */
  predicate Precedes(t: Tier, k: nat, u: Tier, j: nat) {
    Order(t) < Order(u) || (t == u && k <= j)
  }

  lemma {:induction false} FirstInIs(tier: Tier, locales: seq<string>, lang: string) returns (k: nat)
    requires FirstIn(tier, locales, lang).Some?
    ensures k < |locales| && FirstIn(tier, locales, lang) == Some(locales[k]) && Fits(tier, locales[k], lang)
    ensures forall j :: 0 <= j < k ==> !Fits(tier, locales[j], lang)
  {
    k := 0;
    if !Fits(tier, locales[0], lang) {
      k := FirstInIs(tier, locales[1..], lang);
      k := k + 1;
    }
  }

  /**
   A tag is matched by the locale that is first in the best tier in which any fits it, and
   unmatched only if none fits at all.
   */
  lemma MatchOfIs(locales: seq<string>, lang: string)
    ensures MatchOf(locales, lang).None? <==> forall l, t :: l in locales ==> !Fits(t, l, lang)
    ensures MatchOf(locales, lang).Some? ==>
              exists k, t :: 0 <= k < |locales| && MatchOf(locales, lang).value == locales[k] && Fits(t, locales[k], lang)
                             && forall j, u :: 0 <= j < |locales| && Fits(u, locales[j], lang) ==> Precedes(t, k, u, j)
  {
    var r := MatchOf(locales, lang);
    if r.Some? {
      var t := if FirstIn(Exact, locales, lang).Some? then Exact
               else if FirstIn(Base, locales, lang).Some? then Base else Region;
      var k := FirstInIs(t, locales, lang);
      assert Fits(t, locales[k], lang);
      forall j, u | 0 <= j < |locales| && Fits(u, locales[j], lang) ensures Precedes(t, k, u, j) {
        assert locales[j] in locales;
      }
    }
  }

  function Order(t: Tier): nat {
    match t case Exact => 0 case Base => 1 case Region => 2
  }

  // ------------------------------------------------------------------
  // Every answer that some sort gives
  // ------------------------------------------------------------------

  /** The list with c before the first element that is not heavier. */
  function Inserted(sorted: seq<Candidate>, c: Candidate): seq<Candidate> {
    if sorted == [] || sorted[0].q <= c.q then [c] + sorted else [sorted[0]] + Inserted(sorted[1..], c)
  }

  function Sorted(cs: seq<Candidate>): seq<Candidate> {
    if cs == [] then [] else Inserted(Sorted(cs[1..]), cs[0])
  }

  lemma {:induction false} InsertedElements(sorted: seq<Candidate>, c: Candidate)
    ensures multiset(Inserted(sorted, c)) == multiset(sorted) + multiset{c}
    ensures forall d :: d in Inserted(sorted, c) ==> d in sorted || d == c
  {
    if sorted != [] && sorted[0].q > c.q {
      InsertedElements(sorted[1..], c);
      assert sorted == [sorted[0]] + sorted[1..];
    }
  }

  lemma {:induction false} InsertedIsSorted(sorted: seq<Candidate>, c: Candidate)
    requires Descending(sorted)
    ensures Descending(Inserted(sorted, c))
  {
    if sorted != [] && sorted[0].q > c.q {
      var tail := Inserted(sorted[1..], c);
      InsertedIsSorted(sorted[1..], c);
      InsertedElements(sorted[1..], c);
      forall k | 0 <= k < |tail| ensures tail[k].q <= sorted[0].q {
        assert tail[k] in tail;
      }
    }
  }

  lemma {:induction false} SortedIsSort(cs: seq<Candidate>)
    ensures SortOf(Sorted(cs), cs)
  {
    if cs != [] {
      SortedIsSort(cs[1..]);
      InsertedIsSorted(Sorted(cs[1..]), cs[0]);
      InsertedElements(Sorted(cs[1..]), cs[0]);
      assert cs == [cs[0]] + cs[1..];
    }
  }

  lemma {:induction false} AnswerWithInserted(sorted: seq<Candidate>, c: Candidate, locales: seq<string>, default: string)
    requires MatchOf(locales, c.lang).Some?
    requires forall d :: d in sorted && d.q > c.q ==> MatchOf(locales, d.lang).None?
    ensures AnswerOf(Inserted(sorted, c), locales, default) == MatchOf(locales, c.lang).value
  {
    if sorted != [] && sorted[0].q > c.q {
      AnswerWithInserted(sorted[1..], c, locales, default);
    }
  }

  /** Any winner can come first: sort the others, and put it before those of equal weight. */
  lemma WinnerCanAnswer(cs: seq<Candidate>, locales: seq<string>, default: string, c: Candidate)
    requires Winner(cs, locales, c)
    ensures Answers(cs, locales, default, MatchOf(locales, c.lang).value)
  {
    var i :| 0 <= i < |cs| && cs[i] == c;
    var others := cs[..i] + cs[i + 1..];
    assert cs == cs[..i] + [c] + cs[i + 1..];
    assert multiset(cs) == multiset(others) + multiset{c};
    var sorted := Sorted(others);
    SortedIsSort(others);
    InsertedIsSorted(sorted, c);
    InsertedElements(sorted, c);
    forall d | d in sorted && d.q > c.q ensures MatchOf(locales, d.lang).None? {
      assert d in multiset(sorted);
      assert d in multiset(cs);
    }
    AnswerWithInserted(sorted, c, locales, default);
    assert SortOf(Inserted(sorted, c), cs);
  }

  lemma {:induction false} AnswerOfIs(sorted: seq<Candidate>, locales: seq<string>, default: string) returns (i: nat)
    ensures i <= |sorted| && forall k :: 0 <= k < i ==> MatchOf(locales, sorted[k].lang).None?
    ensures if i == |sorted| then AnswerOf(sorted, locales, default) == default
            else MatchOf(locales, sorted[i].lang) == Some(AnswerOf(sorted, locales, default))
  {
    i := 0;
    if sorted != [] && MatchOf(locales, sorted[0].lang).None? {
      i := AnswerOfIs(sorted[1..], locales, default);
      i := i + 1;
    }
  }

  /** The answers that some sort gives are the winners' matches, or the default if nothing matches. */
  lemma AnswersAre(cs: seq<Candidate>, locales: seq<string>, default: string, r: string)
    ensures Answers(cs, locales, default, r) <==>
              if NothingMatches(cs, locales) then r == default
              else exists c :: Winner(cs, locales, c) && MatchOf(locales, c.lang) == Some(r)
  {
    SortedIsSort(cs);
    forall sorted | SortOf(sorted, cs)
      ensures if NothingMatches(cs, locales) then AnswerOf(sorted, locales, default) == default
              else exists c :: Winner(cs, locales, c)
                               && MatchOf(locales, c.lang) == Some(AnswerOf(sorted, locales, default))
    {
      var i := AnswerOfIs(sorted, locales, default);
      FirstMatchWins(cs, sorted, locales, i);
      if i < |sorted| {
        assert sorted[i] in multiset(sorted);
        assert sorted[i] in cs;
      }
    }
    forall c | Winner(cs, locales, c) ensures Answers(cs, locales, default, MatchOf(locales, c.lang).value) {
      WinnerCanAnswer(cs, locales, default, c);
    }
  }

  // ------------------------------------------------------------------
  // A tag whose normal form is on offer
  // ------------------------------------------------------------------

  lemma SimpleText(tag: string, weight: Option<string>)
    ensures Header([Simple(tag, weight)]) == tag + if weight.Some? then ";q=" + weight.value else ""
  {
    assert ";q=" == [';'] + "q=";
    assert Text(Simple(tag, weight)) == Core(Simple(tag, weight));
  }

  lemma NamedOne(item: Item)
    requires item.Item?
    ensures Named([item]) == [item]
  {
    assert [item][1..] == [];
  }

  lemma OneIsRead(item: Item, weigh: Weigh)
    requires item.Item? && WellFormed(item)
    ensures Candidates(Header([item]), weigh) == [Candidate(Normalized(item.tag), Quality(item.weight, weigh))]
  {
    HeaderIsRead([item], weigh);
    NamedOne(item);
    NormalFormIs(item.tag, Candidates(Header([item]), weigh)[0].lang);
  }

  lemma TwoAreRead(first: Item, second: Item, weigh: Weigh)
    requires first.Item? && second.Item? && WellFormed(first) && WellFormed(second)
    ensures Candidates(Header([first, second]), weigh)
         == [Candidate(Normalized(first.tag), Quality(first.weight, weigh)),
             Candidate(Normalized(second.tag), Quality(second.weight, weigh))]
  {
    var items := [first, second];
    HeaderIsRead(items, weigh);
    assert items[1..] == [second];
    NamedOne(second);
    var cs := Candidates(Header(items), weigh);
    NormalFormIs(first.tag, cs[0].lang);
    NormalFormIs(second.tag, cs[1].lang);
  }

  lemma TagIsRead(tag: string, locale: string, weigh: Weigh)
    requires tag != "" && Plain(tag) && Normalizes(tag, locale)
    ensures Candidates(tag, weigh) == [Candidate(locale, 1.0)]
  {
    SimpleText(tag, None);
    assert tag + "" == tag;
    OneIsRead(Simple(tag, None), weigh);
    NormalFormIs(tag, locale);
  }

  lemma OnlyExactAnswers(locale: string, locales: seq<string>, default: string)
    requires locale in locales
    ensures forall r :: Answers([Candidate(locale, 1.0)], locales, default, r) <==> r == locale
  {
    var cs := [Candidate(locale, 1.0)];
    assert Fits(Exact, locale, locale);
    assert MatchOf(locales, locale) == Some(locale) && Winner(cs, locales, cs[0]);
    forall r ensures Answers(cs, locales, default, r) <==> r == locale {
      AnswersAre(cs, locales, default, r);
    }
  }

  /** A header that names one locale on offer, up to hyphens and the case of its base, is answered in it by every sort. */
  lemma OfferedTagIsAnswered(tag: string, locale: string, locales: seq<string>, default: string, weigh: Weigh)
    requires tag != "" && Plain(tag) && Normalizes(tag, locale) && locale in locales
    ensures forall r :: Answers(Candidates(tag, weigh), locales, default, r) <==> r == locale
  {
    TagIsRead(tag, locale, weigh);
    OnlyExactAnswers(locale, locales, default);
  }

  /** The header zh-CN is answered in zh_CN. */
  lemma ChineseIsAnswered(locales: seq<string>, default: string, weigh: Weigh)
    requires "zh_CN" in locales
    ensures forall r :: Answers(Candidates("zh-CN", weigh), locales, default, r) <==> r == "zh_CN"
  {
    var tag := "zh-CN";
    assert tag[0] == 'z' && tag[2] == '-' && !InBase(tag, 3) && !InBase(tag, 4);
    assert Normalizes(tag, "zh_CN");
    OfferedTagIsAnswered(tag, "zh_CN", locales, default, weigh);
  }
}
