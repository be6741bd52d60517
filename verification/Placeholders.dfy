/**
 Placeholder substitution of message templates: one replace-all pass per
 argument, compared with replacing all placeholders at once.
 */
module Placeholders {
  import opened Wrappers
  import opened Sequences
  import opened Searching

  // ------------------------------------------------------------------
  // Decimal numbers
  // ------------------------------------------------------------------

  function Digit(d: nat): char
    requires d < 10
  {
    (d + 48) as char
  }

  function Decimal(n: nat): string {
    if n < 10 then [Digit(n)] else Decimal(n / 10) + [Digit(n % 10)]
  }

  function Value(s: string): nat {
    if s == "" then 0
    else Value(s[..|s| - 1]) * 10 + (if '0' <= s[|s| - 1] <= '9' then s[|s| - 1] as nat - 48 else 0)
  }

  lemma {:induction false} ValueOfDecimal(n: nat)
    ensures Value(Decimal(n)) == n
    ensures NoBraces(Decimal(n))
  {
    var s := Decimal(n);
    if n < 10 {
      assert s[..|s| - 1] == "";
    } else {
      ValueOfDecimal(n / 10);
      assert s[..|s| - 1] == Decimal(n / 10);
    }
  }

  lemma DecimalInjective(m: nat, n: nat)
    ensures Decimal(m) == Decimal(n) <==> m == n
  {
    ValueOfDecimal(m);
    ValueOfDecimal(n);
  }

  // ------------------------------------------------------------------
  // Replacing
  // ------------------------------------------------------------------

  /** Every occurrence replaced, from left to right; replaced text is not searched again. */
  function ReplaceAll(s: string, p: string, r: string): string
    requires p != ""
    decreases |s|
  {
    var k := Find(s, p, 0);
    if k.None? then s else s[..k.value] + r + ReplaceAll(s[k.value + |p|..], p, r)
  }

  function Placeholder(i: nat): string {
    "{" + Decimal(i) + "}"
  }

  function SubstituteFrom(s: string, args: seq<string>, i: nat): string
    requires i <= |args|
    decreases |args| - i
  {
    if i == |args| then s else SubstituteFrom(ReplaceAll(s, Placeholder(i), args[i]), args, i + 1)
  }

  lemma ReplaceFirst(mid: string, p: string, tail: string, r: string)
    requires p != "" && Find(mid + p + tail, p, 0) == Some(|mid|)
    ensures ReplaceAll(mid + p + tail, p, r) == mid + r + ReplaceAll(tail, p, r)
  {
    SplitAppend(mid + p, tail);
    AppendAssoc(mid, p, tail);
    SplitAppend(mid, p + tail);
  }

  lemma ReplaceNone(s: string, p: string, r: string)
    requires p != "" && Find(s, p, 0) == None
    ensures ReplaceAll(s, p, r) == s
  {}

  /** The text when pos characters are done and every match in the rest is replaced. */
  function Completed(s: string, p: string, r: string, pos: nat): string
    requires p != "" && pos <= |s|
  {
    s[..pos] + ReplaceAll(s[pos..], p, r)
  }

  lemma CompletedIs(head: string, rest: string, p: string, r: string)
    requires p != ""
    ensures Completed(head + rest, p, r, |head|) == head + ReplaceAll(rest, p, r)
  {
    SplitAppend(head, rest);
  }

  /** std::string::replace at a match, and where the search goes on: the same is left to do after it. */
  method ReplaceAt(s: string, p: string, r: string, pos: nat, at: nat) returns (s': string, pos': nat)
    requires p != "" && pos <= |s| && Find(s, p, pos) == Some(at)
    ensures pos' <= |s'| && |s'| - pos' < |s| - pos
    ensures Completed(s', p, r, pos') == Completed(s, p, r, pos)
  {
    PassStep(s, p, r, pos, at);
    s' := s[..at] + r + s[at + |p|..];
    pos' := at + |r|;
  }

  lemma PassStep(s: string, p: string, r: string, pos: nat, at: nat)
    requires p != "" && pos <= |s| && Find(s, p, pos) == Some(at)
    ensures pos <= at && at + |p| <= |s|
    ensures var s', pos' := s[..at] + r + s[at + |p|..], at + |r|;
            pos' <= |s'| && |s'| - pos' < |s| - pos && Completed(s', p, r, pos') == Completed(s, p, r, pos)
  {
    FindShift(s, p, pos);
    FindFinds(s, p, pos);
    var head, mid, tail := s[..pos], s[pos..at], s[at + |p|..];
    SplitThree(s, pos, at, at + |p|);
    assert s[pos..] == mid + p + tail && s[..at] == head + mid;
    ReplaceFirst(mid, p, tail, r);
    AppendAssoc4(head, mid, r, ReplaceAll(tail, p, r));
    CompletedIs(s[..at] + r, tail, p, r);
  }

  lemma PassDone(s: string, p: string, r: string, pos: nat)
    requires p != "" && pos <= |s| && Find(s, p, pos) == None
    ensures Completed(s, p, r, pos) == s
  {
    FindShift(s, p, pos);
    ReplaceNone(s[pos..], p, r);
  }

  lemma PassStart(s: string, p: string, r: string)
    requires p != ""
    ensures Completed(s, p, r, 0) == ReplaceAll(s, p, r)
  {
    assert s[0..] == s;
  }

  method ReplacePass(s: string, p: string, r: string) returns (result: string)
    requires p != ""
    ensures result == ReplaceAll(s, p, r)
  {
    result := s;
    var pos: nat := 0;
    PassStart(s, p, r);
    var k := Find(result, p, pos);
    while k.Some?
      invariant pos <= |result|
      invariant k == Find(result, p, pos)
      invariant Completed(result, p, r, pos) == ReplaceAll(s, p, r)
      decreases |result| - pos
    {
      result, pos := ReplaceAt(result, p, r, pos, k.value);
      k := Find(result, p, pos);
    }
    PassDone(result, p, r, pos);
  }

  method Substitute(tpl: string, args: seq<string>) returns (result: string)
    ensures result == SubstituteFrom(tpl, args, 0)
  {
    result := tpl;
    for i := 0 to |args|
      invariant SubstituteFrom(tpl, args, 0) == SubstituteFrom(result, args, i)
    {
      result := ReplacePass(result, Placeholder(i), args[i]);
    }
  }

  // ------------------------------------------------------------------
  // Templates as tokens
  // ------------------------------------------------------------------

  datatype Token = Lit(text: string) | Hole(name: string)

  predicate NoBraces(s: string) {
    forall i :: 0 <= i < |s| ==> s[i] != '{' && s[i] != '}'
  }

  predicate NoOpening(s: string) {
    forall i :: 0 <= i < |s| ==> s[i] != '{'
  }

  /** Literals contain no opening brace, placeholder names no brace at all. */
  predicate Flat(ts: seq<Token>) {
    forall i :: 0 <= i < |ts| ==> if ts[i].Lit? then NoOpening(ts[i].text) else NoBraces(ts[i].name)
  }

  /** The name's placeholder occurs nowhere but where a token puts it. */
  predicate Distinct(ts: seq<Token>, name: string) {
    ts == []
    || (&& (forall k :: 0 <= k < |Text(ts[0])| && MatchAt(Template(ts), "{" + name + "}", k) ==> ts[0] == Hole(name) && k == 0)
        && Distinct(ts[1..], name))
  }

  /**
   No literal and no argument filled in so far forms the placeholder of an argument from
   i on, other than one that its argument leaves as it is.
   */
  predicate DistinctFrom(ts: seq<Token>, args: seq<string>, i: nat)
    requires i <= |args|
    decreases |args| - i
  {
    i == |args|
    || ((Distinct(ts, Decimal(i)) || args[i] == Placeholder(i)) && DistinctFrom(Fill(ts, Decimal(i), args[i]), args, i + 1))
  }

  function Text(t: Token): string {
    if t.Lit? then t.text else "{" + t.name + "}"
  }

  function Template(ts: seq<Token>): string {
    if ts == [] then "" else Text(ts[0]) + Template(ts[1..])
  }

  /** The argument a name stands for, counting arguments from i on. */
  function Lookup(name: string, args: seq<string>, i: nat): Option<string>
    requires i <= |args|
    decreases |args| - i
  {
    if i == |args| then None
    else if name == Decimal(i) then Some(args[i])
    else Lookup(name, args, i + 1)
  }

  lemma {:induction false} LookupIs(name: string, args: seq<string>, i: nat, k: nat)
    requires i <= k < |args| && name == Decimal(k)
    ensures Lookup(name, args, i) == Some(args[k])
    decreases k - i
  {
    DecimalInjective(i, k);
    if i < k { LookupIs(name, args, i + 1, k); }
  }

  lemma {:induction false} LookupNone(name: string, args: seq<string>, i: nat)
    requires i <= |args|
    requires forall k :: i <= k < |args| ==> name != Decimal(k)
    ensures Lookup(name, args, i) == None
    decreases |args| - i
  {
    if i < |args| { LookupNone(name, args, i + 1); }
  }

  /** Every token rendered on its own: a name without argument stays as it is. */
  function Render(ts: seq<Token>, args: seq<string>, i: nat): string
    requires i <= |args|
  {
    if ts == [] then ""
    else
      var found := if ts[0].Hole? then Lookup(ts[0].name, args, i) else None;
      (if found.Some? then found.value else Text(ts[0])) + Render(ts[1..], args, i)
  }

  // ------------------------------------------------------------------
  // One pass on tokens
  // ------------------------------------------------------------------

  function Fill(ts: seq<Token>, name: string, arg: string): seq<Token> {
    if ts == [] then []
    else [if ts[0] == Hole(name) then Lit(arg) else ts[0]] + Fill(ts[1..], name, arg)
  }

  /** Text in which no occurrence starts is copied. */
  lemma SkipPrefix(prefix: string, rest: string, p: string, r: string)
    requires p != ""
    requires forall k :: 0 <= k < |prefix| ==> !MatchAt(prefix + rest, p, k)
    ensures ReplaceAll(prefix + rest, p, r) == prefix + ReplaceAll(rest, p, r)
  {
    FindAfter(prefix, rest, p);
    if Find(rest, p, 0).None? {
      ReplaceNone(rest, p, r);
      ReplaceNone(prefix + rest, p, r);
    } else {
      FindFinds(rest, p, 0);
      SkipToMatch(prefix, rest, p, r, Find(rest, p, 0).value);
    }
  }

  lemma SkipToMatch(prefix: string, rest: string, p: string, r: string, k: nat)
    requires p != "" && MatchAt(rest, p, k)
    requires Find(rest, p, 0) == Some(k) && Find(prefix + rest, p, 0) == Some(|prefix| + k)
    ensures ReplaceAll(prefix + rest, p, r) == prefix + ReplaceAll(rest, p, r)
  {
    var mid, tail := rest[..k], rest[k + |p|..];
    SplitThree(rest, 0, k, k + |p|);
    assert rest[0..] == rest && rest[0..k] == mid;
    AppendAssoc4(prefix, mid, p, tail);
    ReplaceFirst(mid, p, tail, r);
    ReplaceFirst(prefix + mid, p, tail, r);
    AppendAssoc4(prefix, mid, r, ReplaceAll(tail, p, r));
  }

  lemma NoMatch(s: string, p: string, k: nat, j: nat)
    requires j < |p|
    requires k + j < |s| ==> s[k + j] != p[j]
    ensures !MatchAt(s, p, k)
  {
    if k + |p| <= |s| { assert s[k..k + |p|][j] == s[k + j]; }
  }

  lemma HoleMatchesOwnName(name: string, other: string, rest: string)
    requires NoBraces(name) && NoBraces(other)
    ensures MatchAt("{" + name + "}" + rest, "{" + other + "}", 0) <==> name == other
  {
    var s, p := "{" + name + "}" + rest, "{" + other + "}";
    if name == other {
      assert s[0..|p|] == p;
    } else if |name| < |other| {
      assert s[|name| + 1] == '}' && p[|name| + 1] == other[|name|];
      NoMatch(s, p, 0, |name| + 1);
    } else if |other| < |name| {
      assert p[|other| + 1] == '}' && s[|other| + 1] == name[|other|];
      NoMatch(s, p, 0, |other| + 1);
    } else {
      var i :| 0 <= i < |name| && name[i] != other[i];
      assert s[i + 1] == name[i] && p[i + 1] == other[i];
      NoMatch(s, p, 0, i + 1);
    }
  }

  lemma {:induction false} FlatIsDistinct(ts: seq<Token>, name: string)
    requires Flat(ts) && NoBraces(name)
    ensures Distinct(ts, name)
  {
    if ts != [] {
      var p, first, rest := "{" + name + "}", Text(ts[0]), Template(ts[1..]);
      FlatIsDistinct(ts[1..], name);
      forall k | 0 <= k < |first| && !(ts[0] == Hole(name) && k == 0) ensures !MatchAt(first + rest, p, k) {
        if ts[0].Hole? && k == 0 {
          HoleMatchesOwnName(ts[0].name, name, rest);
        } else {
          assert (first + rest)[k] == first[k] != '{';
          NoMatch(first + rest, p, k, 0);
        }
      }
    }
  }

  lemma FillFirst(p: string, rest: string, arg: string)
    requires p != ""
    ensures ReplaceAll(p + rest, p, arg) == arg + ReplaceAll(rest, p, arg)
  {
    var s := [] + p + rest;
    assert s == p + rest && s[0..|p|] == p;
    assert MatchAt(s, p, 0);
    ReplaceFirst([], p, rest, arg);
    assert [] + arg == arg;
  }

  lemma {:induction false} PassFills(ts: seq<Token>, name: string, arg: string)
    requires Distinct(ts, name)
    ensures ReplaceAll(Template(ts), "{" + name + "}", arg) == Template(Fill(ts, name, arg))
  {
    var p := "{" + name + "}";
    if ts != [] {
      var first, rest := Text(ts[0]), Template(ts[1..]);
      PassFills(ts[1..], name, arg);
      if ts[0] == Hole(name) {
        FillFirst(p, rest, arg);
      } else {
        assert Template(ts) == first + rest;
        forall k | 0 <= k < |first| ensures !MatchAt(first + rest, p, k) {}
        SkipPrefix(first, rest, p, arg);
      }
    }
  }

  lemma {:induction false} FillWithItself(ts: seq<Token>, name: string)
    ensures Template(Fill(ts, name, "{" + name + "}")) == Template(ts)
  {
    if ts != [] { FillWithItself(ts[1..], name); }
  }

  /** One step of replace-all: a match at the front is replaced, any other character is copied. */
  lemma ReplaceHead(s: string, p: string, r: string)
    requires p != "" && s != ""
    ensures if MatchAt(s, p, 0) then ReplaceAll(s, p, r) == r + ReplaceAll(s[|p|..], p, r)
            else ReplaceAll(s, p, r) == [s[0]] + ReplaceAll(s[1..], p, r)
  {
    if MatchAt(s, p, 0) {
      FillFirst(p, s[|p|..], r);
      assert p + s[|p|..] == s;
    } else {
      assert [s[0]] + s[1..] == s;
      SkipPrefix([s[0]], s[1..], p, r);
    }
  }

  lemma {:induction false} ReplaceWithItself(s: string, p: string)
    requires p != ""
    ensures ReplaceAll(s, p, p) == s
    decreases |s|
  {
    if s != "" {
      ReplaceHead(s, p, p);
      if MatchAt(s, p, 0) {
        ReplaceWithItself(s[|p|..], p);
      } else {
        ReplaceWithItself(s[1..], p);
      }
    }
  }

  // ------------------------------------------------------------------
  // A pass fills exactly the placeholders only if there are no others
  // ------------------------------------------------------------------

  /** The first character of p is not repeated in it, so that two matches of p never overlap. */
  predicate Unbordered(p: string) {
    p != "" && forall i :: 1 <= i < |p| ==> p[i] != p[0]
  }

  lemma NoOverlap(s: string, p: string, k: nat, j: nat)
    requires Unbordered(p) && MatchAt(s, p, k) && 1 <= j < |p|
    ensures !MatchAt(s, p, k + j)
  {
    assert s[k + j] == s[k..k + |p|][j] == p[j];
    NoMatch(s, p, k + j, 0);
  }

  /** How many matches of p there are in s. */
  function Matches(s: string, p: string): nat {
    if s == "" then 0 else (if MatchAt(s, p, 0) then 1 else 0) + Matches(s[1..], p)
  }

  /** How many of them, in first + rest, start in the first part. */
  function MatchesFrom(first: string, rest: string, p: string): nat {
    if first == "" then 0 else (if MatchAt(first + rest, p, 0) then 1 else 0) + MatchesFrom(first[1..], rest, p)
  }

  lemma {:induction false} MatchesSplit(first: string, rest: string, p: string)
    ensures Matches(first + rest, p) == MatchesFrom(first, rest, p) + Matches(rest, p)
    decreases |first|
  {
    if first == "" {
      assert first + rest == rest;
    } else {
      MatchesSplit(first[1..], rest, p);
      assert (first + rest)[1..] == first[1..] + rest;
    }
  }

  predicate NoneStarts(first: string, rest: string, p: string) {
    forall k :: 0 <= k < |first| ==> !MatchAt(first + rest, p, k)
  }

  lemma MatchInTail(first: string, rest: string, p: string, k: nat)
    requires first != ""
    ensures MatchAt(first[1..] + rest, p, k) <==> MatchAt(first + rest, p, k + 1)
  {
    assert (first + rest)[1..] == first[1..] + rest;
    MatchShift(first + rest, p, 1, k);
  }

  lemma NoneStartsCons(first: string, rest: string, p: string)
    requires first != ""
    ensures NoneStarts(first, rest, p) <==> !MatchAt(first + rest, p, 0) && NoneStarts(first[1..], rest, p)
  {
    if NoneStarts(first, rest, p) {
      forall k | 0 <= k < |first| - 1 ensures !MatchAt(first[1..] + rest, p, k) {
        MatchInTail(first, rest, p, k);
      }
    }
    if !MatchAt(first + rest, p, 0) && NoneStarts(first[1..], rest, p) {
      forall k | 0 <= k < |first| ensures !MatchAt(first + rest, p, k) {
        if k > 0 { MatchInTail(first, rest, p, k - 1); }
      }
    }
  }

  lemma {:induction false} NoMatchesFrom(first: string, rest: string, p: string)
    ensures MatchesFrom(first, rest, p) == 0 <==> NoneStarts(first, rest, p)
    decreases |first|
  {
    if first != "" {
      NoMatchesFrom(first[1..], rest, p);
      NoneStartsCons(first, rest, p);
    }
  }

  /** A match is counted once, and its inside holds no other. */
  lemma MatchesAfterMatch(p: string, rest: string)
    requires Unbordered(p)
    ensures Matches(p + rest, p) == 1 + Matches(rest, p)
  {
    var s := p + rest;
    assert s[0..|p|] == p;
    MatchesSplit(p, rest, p);
    assert s[1..] == p[1..] + rest;
    forall k | 0 <= k < |p| - 1 ensures !MatchAt(p[1..] + rest, p, k) {
      NoOverlap(s, p, 0, k + 1);
      MatchShift(s, p, 1, k);
    }
    NoMatchesFrom(p[1..], rest, p);
  }

  lemma {:induction false} ReplaceLength(s: string, p: string, r: string)
    requires Unbordered(p)
    ensures |ReplaceAll(s, p, r)| == |s| + Matches(s, p) * (|r| - |p|)
    decreases |s|
  {
    if s != "" {
      ReplaceHead(s, p, r);
      if MatchAt(s, p, 0) {
        assert s == p + s[|p|..];
        ReplaceLength(s[|p|..], p, r);
        MatchesAfterMatch(p, s[|p|..]);
        OneMoreTimes(Matches(s[|p|..], p), |r| - |p|);
      } else {
        ReplaceLength(s[1..], p, r);
      }
    }
  }

  lemma OneMoreTimes(n: nat, d: int)
    ensures (n + 1) * d == n * d + d
  {}

  function Holes(ts: seq<Token>, name: string): nat {
    if ts == [] then 0 else (if ts[0] == Hole(name) then 1 else 0) + Holes(ts[1..], name)
  }

  lemma {:induction false} FillLength(ts: seq<Token>, name: string, arg: string)
    ensures |Template(Fill(ts, name, arg))| == |Template(ts)| + Holes(ts, name) * (|arg| - (|name| + 2))
  {
    if ts != [] {
      FillLength(ts[1..], name, arg);
      OneMoreTimes(Holes(ts[1..], name), |arg| - (|name| + 2));
    }
  }

  lemma PlaceholderIsUnbordered(name: string)
    requires NoBraces(name)
    ensures Unbordered("{" + name + "}")
  {
    var p := "{" + name + "}";
    forall i | 1 <= i < |p| ensures p[i] != '{' {
      if i <= |name| { assert p[i] == name[i - 1]; }
    }
  }

  /** Every placeholder is a match; there are no others exactly when the placeholders are distinct. */
  lemma {:induction false} MatchesAreHoles(ts: seq<Token>, name: string)
    requires NoBraces(name)
    ensures var n := Matches(Template(ts), "{" + name + "}");
            n >= Holes(ts, name) && (n == Holes(ts, name) <==> Distinct(ts, name))
  {
    var p := "{" + name + "}";
    PlaceholderIsUnbordered(name);
    if ts != [] {
      var first, rest := Text(ts[0]), Template(ts[1..]);
      MatchesAreHoles(ts[1..], name);
      assert Template(ts) == first + rest;
      if ts[0] == Hole(name) {
        MatchesAfterMatch(p, rest);
        assert (first + rest)[0..|p|] == p;
        forall k | 1 <= k < |first| ensures !MatchAt(first + rest, p, k) {
          NoOverlap(first + rest, p, 0, k);
        }
      } else {
        MatchesSplit(first, rest, p);
        NoMatchesFrom(first, rest, p);
      }
    }
  }

  lemma EqualProducts(m: nat, n: nat, d: int)
    requires m >= n && d != 0 && m * d == n * d
    ensures m == n
  {
    assert (m - n) * d == 0;
  }

  /** Other lengths: the text would have another length. */
  lemma LengthTells(ts: seq<Token>, name: string, arg: string)
    requires NoBraces(name) && |arg| != |name| + 2
    requires ReplaceAll(Template(ts), "{" + name + "}", arg) == Template(Fill(ts, name, arg))
    ensures Distinct(ts, name)
  {
    var p, n, h := "{" + name + "}", Matches(Template(ts), "{" + name + "}"), Holes(ts, name);
    PlaceholderIsUnbordered(name);
    ReplaceLength(Template(ts), p, arg);
    FillLength(ts, name, arg);
    MatchesAreHoles(ts, name);
    EqualProducts(n, h, |arg| - |p|);
  }

  lemma MatchAtFront(p: string, rest: string)
    ensures MatchAt(p + rest, p, 0)
  {
    assert (p + rest)[0..|p|] == p;
  }

  lemma MatchAfterMatch(s: string, p: string, k: nat)
    requires Unbordered(p) && MatchAt(s, p, 0) && MatchAt(s, p, k) && k > 0
    ensures k >= |p| && MatchAt(s[|p|..], p, k - |p|)
  {
    if k < |p| {
      NoOverlap(s, p, 0, k);
    } else {
      MatchShift(s, p, |p|, k - |p|);
    }
  }

  /** The same length: every match is overwritten where it stands. */
  lemma {:induction false} ReplacedInPlace(s: string, p: string, r: string, k: nat)
    requires Unbordered(p) && |r| == |p| && MatchAt(s, p, k)
    ensures MatchAt(ReplaceAll(s, p, r), r, k)
    decreases |s|
  {
    if k == 0 {
      ReplaceHead(s, p, r);
      MatchAtFront(r, ReplaceAll(s[|p|..], p, r));
    } else if MatchAt(s, p, 0) {
      MatchAfterMatch(s, p, k);
      ReplacedInPlace(s[|p|..], p, r, k - |p|);
      ReplacedBehind(s, p, r, k);
    } else {
      MatchShift(s, p, 1, k - 1);
      ReplacedInPlace(s[1..], p, r, k - 1);
      ReplacedBehindCopy(s, p, r, k);
    }
  }

  lemma ReplacedBehind(s: string, p: string, r: string, k: nat)
    requires p != "" && |r| == |p| <= k && MatchAt(s, p, 0) && MatchAt(ReplaceAll(s[|p|..], p, r), r, k - |p|)
    ensures MatchAt(ReplaceAll(s, p, r), r, k)
  {
    ReplaceHead(s, p, r);
    MatchBehind(r, ReplaceAll(s[|p|..], p, r), r, k - |p|);
  }

  lemma ReplacedBehindCopy(s: string, p: string, r: string, k: nat)
    requires p != "" && s != "" && k > 0 && !MatchAt(s, p, 0) && MatchAt(ReplaceAll(s[1..], p, r), r, k - 1)
    ensures MatchAt(ReplaceAll(s, p, r), r, k)
  {
    ReplaceHead(s, p, r);
    MatchBehind([s[0]], ReplaceAll(s[1..], p, r), r, k - 1);
  }

  lemma MatchBehind(prefix: string, s: string, p: string, k: nat)
    ensures MatchAt(prefix + s, p, |prefix| + k) <==> MatchAt(s, p, k)
  {
    assert (prefix + s)[|prefix|..] == s;
    MatchShift(prefix + s, p, |prefix|, k);
  }

  lemma StartOfAppend(first: string, rest: string, rest': string, m: nat)
    requires |first| <= m <= |first| + |rest| && m - |first| <= |rest'|
    requires rest[..m - |first|] == rest'[..m - |first|]
    ensures (first + rest)[..m] == (first + rest')[..m]
  {
    assert (first + rest)[..m] == first + rest[..m - |first|];
    assert (first + rest')[..m] == first + rest'[..m - |first|];
  }

  lemma NoOpeningBehind(first: string, rest: string, m: nat)
    requires |first| <= m <= |first| + |rest| && NoOpening((first + rest)[..m])
    ensures NoOpening(rest[..m - |first|])
  {
    forall i | 0 <= i < m - |first| ensures rest[i] != '{' {
      assert (first + rest)[..m][|first| + i] == rest[i];
    }
  }

  lemma NoOpeningNoHole(t: Token, rest: string, m: nat)
    requires 0 < m <= |Text(t) + rest| && NoOpening((Text(t) + rest)[..m])
    ensures t.Lit?
  {
    assert (Text(t) + rest)[..m][0] == (Text(t) + rest)[0];
  }

  /** Filling leaves a start of the template without placeholders alone. */
  lemma {:induction false} FillKeepsStart(ts: seq<Token>, name: string, arg: string, m: nat)
    requires |arg| == |name| + 2 && m <= |Template(ts)| && NoOpening(Template(ts)[..m])
    ensures m <= |Template(Fill(ts, name, arg))| && Template(Fill(ts, name, arg))[..m] == Template(ts)[..m]
  {
    if m > 0 {
      var first, rest, rest' := Text(ts[0]), Template(ts[1..]), Template(Fill(ts[1..], name, arg));
      NoOpeningNoHole(ts[0], rest, m);
      assert Template(Fill(ts, name, arg)) == first + rest';
      if m > |first| {
        NoOpeningBehind(first, rest, m);
        FillKeepsStart(ts[1..], name, arg, m - |first|);
        StartOfAppend(first, rest, rest', m);
      } else {
        assert (first + rest)[..m] == first[..m] == (first + rest')[..m];
      }
    }
  }

  lemma SliceOfAppend(a: string, b: string, i: nat, j: nat)
    requires i <= j <= |a|
    ensures (a + b)[i..j] == a[i..j]
  {}

  lemma SameWindow(first: string, rest: string, rest': string, p: string, k: nat, m: nat)
    requires k < |first| && MatchAt(first + rest, p, k) && m + |first| >= k + |p|
    requires m <= |rest| && m <= |rest'| && rest[..m] == rest'[..m]
    ensures MatchAt(first + rest', p, k)
  {
    var start := first + rest[..m];
    assert first + rest == start + rest[m..];
    assert first + rest' == start + rest'[m..];
    SliceOfAppend(start, rest[m..], k, k + |p|);
    SliceOfAppend(start, rest'[m..], k, k + |p|);
  }

  /** A match that starts in a token other than the placeholder stays where it is. */
  lemma OtherStays(ts: seq<Token>, name: string, arg: string, k: nat)
    requires NoBraces(name) && |arg| == |name| + 2 && ts != [] && k < |Text(ts[0])|
    requires MatchAt(Template(ts), "{" + name + "}", k) && !(ts[0] == Hole(name) && k == 0)
    ensures MatchAt(Template(Fill(ts, name, arg)), "{" + name + "}", k)
  {
    var p, first, rest := "{" + name + "}", Text(ts[0]), Template(ts[1..]);
    OtherIsOutside(ts[0], rest, name, k);
    var m: nat := if k + |p| > |first| then k + |p| - |first| else 0;
    if m > 0 {
      StartIsInside(first, rest, name, k, m);
    }
    FillKeepsStart(ts[1..], name, arg, m);
    SameWindow(first, rest, Template(Fill(ts[1..], name, arg)), p, k, m);
  }

  lemma MatchInBoth(first: string, rest: string, first': string, rest': string, p: string, i: nat) returns (k: nat)
    requires |first| == |first'| && MatchAt(rest, p, i) && MatchAt(rest', p, i)
    ensures MatchAt(first + rest, p, k) && MatchAt(first' + rest', p, k)
  {
    k := |first| + i;
    MatchBehind(first, rest, p, i);
    MatchBehind(first', rest', p, i);
  }

  /** The first token and the others, before and after the filling. */
  lemma FirstAndOthers(ts: seq<Token>, name: string, arg: string) returns (first: string)
    requires |arg| == |name| + 2 && ts != []
    ensures |first| == |Text(ts[0])|
    ensures Template(ts) == Text(ts[0]) + Template(ts[1..])
    ensures Template(Fill(ts, name, arg)) == first + Template(Fill(ts[1..], name, arg))
  {
    var filled := Fill(ts, name, arg);
    assert filled[1..] == Fill(ts[1..], name, arg);
    first := Text(filled[0]);
  }

  lemma FirstSurvives(ts: seq<Token>, name: string, arg: string) returns (k: nat)
    requires NoBraces(name) && |arg| == |name| + 2 && !Distinct(ts, name) && Distinct(ts[1..], name)
    ensures MatchAt(Template(ts), "{" + name + "}", k)
    ensures MatchAt(Template(Fill(ts, name, arg)), "{" + name + "}", k)
  {
    k :| 0 <= k < |Text(ts[0])| && MatchAt(Template(ts), "{" + name + "}", k) && !(ts[0] == Hole(name) && k == 0);
    OtherStays(ts, name, arg, k);
  }

  /** Where the placeholder occurs in other text, it occurs after the filling as well. */
  lemma {:induction false} OtherSurvives(ts: seq<Token>, name: string, arg: string) returns (k: nat)
    requires NoBraces(name) && |arg| == |name| + 2 && !Distinct(ts, name)
    ensures MatchAt(Template(ts), "{" + name + "}", k)
    ensures MatchAt(Template(Fill(ts, name, arg)), "{" + name + "}", k)
  {
    if Distinct(ts[1..], name) {
      k := FirstSurvives(ts, name, arg);
    } else {
      k := OtherSurvives(ts[1..], name, arg);
      var first := FirstAndOthers(ts, name, arg);
      k := MatchInBoth(Text(ts[0]), Template(ts[1..]), first, Template(Fill(ts[1..], name, arg)), "{" + name + "}", k);
    }
  }

  /** A pass leaves no match where there was one, unless the argument is the placeholder. */
  lemma MatchTells(s: string, name: string, arg: string, k: nat)
    requires NoBraces(name) && |arg| == |name| + 2
    requires MatchAt(s, "{" + name + "}", k) && MatchAt(ReplaceAll(s, "{" + name + "}", arg), "{" + name + "}", k)
    ensures arg == "{" + name + "}"
  {
    var p := "{" + name + "}";
    PlaceholderIsUnbordered(name);
    ReplacedInPlace(s, p, arg, k);
    SameMatch(ReplaceAll(s, p, arg), p, arg, k);
  }

  /** The same length: a match that is no placeholder makes a difference. */
  lemma PlaceTells(ts: seq<Token>, name: string, arg: string)
    requires NoBraces(name) && |arg| == |name| + 2 && !Distinct(ts, name)
    requires ReplaceAll(Template(ts), "{" + name + "}", arg) == Template(Fill(ts, name, arg))
    ensures arg == "{" + name + "}"
  {
    var k := OtherSurvives(ts, name, arg);
    MatchTells(Template(ts), name, arg, k);
  }

  lemma SameMatch(s: string, p: string, r: string, k: nat)
    requires |p| == |r| && MatchAt(s, p, k) && MatchAt(s, r, k)
    ensures p == r
  {}

  lemma OtherIsOutside(t: Token, rest: string, name: string, k: nat)
    requires NoBraces(name) && k < |Text(t)| && MatchAt(Text(t) + rest, "{" + name + "}", k)
    requires !(t == Hole(name) && k == 0)
    ensures t != Hole(name)
  {
    var p := "{" + name + "}";
    PlaceholderIsUnbordered(name);
    if t == Hole(name) {
      assert (p + rest)[0..|p|] == p;
      NoOverlap(p + rest, p, 0, k);
    }
  }

  lemma StartIsInside(first: string, rest: string, name: string, k: nat, m: nat)
    requires NoBraces(name) && k < |first| && MatchAt(first + rest, "{" + name + "}", k)
    requires m == k + |name| + 2 - |first|
    ensures m <= |rest| && NoOpening(rest[..m])
  {
    var p := "{" + name + "}";
    PlaceholderIsUnbordered(name);
    forall i | 0 <= i < m ensures rest[i] != '{' {
      assert rest[i] == (first + rest)[|first| + i] == (first + rest)[k..k + |p|][|first| + i - k];
    }
  }

  /**
   A pass fills just the placeholders of its name exactly when their text occurs nowhere
   else, or when the argument is that text itself.
   */
  lemma PassFillsIff(ts: seq<Token>, name: string, arg: string)
    requires NoBraces(name)
    ensures ReplaceAll(Template(ts), "{" + name + "}", arg) == Template(Fill(ts, name, arg))
        <==> Distinct(ts, name) || arg == "{" + name + "}"
  {
    var p := "{" + name + "}";
    if Distinct(ts, name) {
      PassFills(ts, name, arg);
    } else if arg == p {
      FillWithItself(ts, name);
      ReplaceWithItself(Template(ts), p);
    } else if |arg| != |p| {
      if ReplaceAll(Template(ts), p, arg) == Template(Fill(ts, name, arg)) {
        LengthTells(ts, name, arg);
      }
    } else {
      if ReplaceAll(Template(ts), p, arg) == Template(Fill(ts, name, arg)) {
        PlaceTells(ts, name, arg);
      }
    }
  }

  // ------------------------------------------------------------------
  // Main result
  // ------------------------------------------------------------------

  lemma {:induction false} FillKeepsFlat(ts: seq<Token>, name: string, arg: string)
    requires Flat(ts) && NoOpening(arg)
    ensures Flat(Fill(ts, name, arg))
  {
    if ts != [] { FillKeepsFlat(ts[1..], name, arg); }
  }

  /** Filling argument i first and rendering with the later ones renders with all of them. */
  lemma {:induction false} RenderAfterFill(ts: seq<Token>, args: seq<string>, i: nat)
    requires i < |args|
    ensures Render(Fill(ts, Decimal(i), args[i]), args, i + 1) == Render(ts, args, i)
  {
    if ts != [] {
      RenderAfterFill(ts[1..], args, i);
      assert Fill(ts, Decimal(i), args[i])[1..] == Fill(ts[1..], Decimal(i), args[i]);
    }
  }

  lemma {:induction false} RenderWithoutArguments(ts: seq<Token>, args: seq<string>)
    ensures Render(ts, args, |args|) == Template(ts)
  {
    if ts != [] { RenderWithoutArguments(ts[1..], args); }
  }

  /** Every pass from i on acts token by token. */
  predicate PassesFill(ts: seq<Token>, args: seq<string>, i: nat)
    requires i <= |args|
    decreases |args| - i
  {
    i == |args|
    || (&& ReplaceAll(Template(ts), Placeholder(i), args[i]) == Template(Fill(ts, Decimal(i), args[i]))
        && PassesFill(Fill(ts, Decimal(i), args[i]), args, i + 1))
  }

  lemma {:induction false} PassesFillIff(ts: seq<Token>, args: seq<string>, i: nat)
    requires i <= |args|
    ensures PassesFill(ts, args, i) <==> DistinctFrom(ts, args, i)
    decreases |args| - i
  {
    if i < |args| {
      ValueOfDecimal(i);
      PassFillsIff(ts, Decimal(i), args[i]);
      PassesFillIff(Fill(ts, Decimal(i), args[i]), args, i + 1);
    }
  }

  /**
   Replacing the placeholders one argument after the other gives the template with every
   placeholder replaced at once, a number without argument kept, as long as no literal and
   no argument forms the placeholder of a later argument.
   */
  lemma {:induction false} DistinctIsSimultaneous(ts: seq<Token>, args: seq<string>, i: nat)
    requires i <= |args| && DistinctFrom(ts, args, i)
    ensures SubstituteFrom(Template(ts), args, i) == Render(ts, args, i)
    decreases |args| - i
  {
    if i == |args| {
      RenderWithoutArguments(ts, args);
    } else {
      ValueOfDecimal(i);
      PassFillsIff(ts, Decimal(i), args[i]);
      DistinctIsSimultaneous(Fill(ts, Decimal(i), args[i]), args, i + 1);
      RenderAfterFill(ts, args, i);
    }
  }

  lemma {:induction false} FlatIsDistinctFrom(ts: seq<Token>, args: seq<string>, i: nat)
    requires Flat(ts) && i <= |args|
    requires forall k :: i <= k < |args| ==> NoOpening(args[k])
    ensures DistinctFrom(ts, args, i)
    decreases |args| - i
  {
    if i < |args| {
      ValueOfDecimal(i);
      FlatIsDistinct(ts, Decimal(i));
      FillKeepsFlat(ts, Decimal(i), args[i]);
      FlatIsDistinctFrom(Fill(ts, Decimal(i), args[i]), args, i + 1);
    }
  }

  /** In particular when literals and arguments hold no opening brace. */
  lemma SequentialIsSimultaneous(ts: seq<Token>, args: seq<string>)
    requires Flat(ts) && forall k :: 0 <= k < |args| ==> NoOpening(args[k])
    ensures SubstituteFrom(Template(ts), args, 0) == Render(ts, args, 0)
  {
    FlatIsDistinctFrom(ts, args, 0);
    DistinctIsSimultaneous(ts, args, 0);
  }

  lemma FillsAlone(name: string, arg: string)
    requires NoBraces(name)
    ensures Template([Hole(name)]) == "{" + name + "}"
    ensures ReplaceAll("{" + name + "}", "{" + name + "}", arg) == arg
  {
    var p := "{" + name + "}";
    assert p + "" == p && arg + "" == arg;
    FillFirst(p, "", arg);
  }

  /** An argument that looks like a later placeholder is replaced again. */
  lemma ArgumentIsReplacedAgain(late: string)
    ensures SubstituteFrom(Template([Hole("0")]), ["{1}", late], 0) == late
    ensures Render([Hole("0")], ["{1}", late], 0) == "{1}"
  {
    assert Decimal(0) == "0" && Decimal(1) == "1";
    FillsAlone("0", "{1}");
    FillsAlone("1", late);
    TwoPasses(Template([Hole("0")]), "{1}", late);
  }

  lemma TwoPasses(s: string, first: string, second: string)
    ensures SubstituteFrom(s, [first, second], 0)
         == ReplaceAll(ReplaceAll(s, Placeholder(0), first), Placeholder(1), second)
  {
    var args := [first, second];
    var once := ReplaceAll(s, Placeholder(0), first);
    assert SubstituteFrom(s, args, 0) == SubstituteFrom(once, args, 1);
    assert SubstituteFrom(once, args, 1) == SubstituteFrom(ReplaceAll(once, Placeholder(1), second), args, 2);
  }

  lemma FilledInsideBraces(p: string)
    requires p == "{0}"
    ensures ReplaceAll("{" + (p + "}"), p, "1") == "{1}"
  {
    var rest := p + "}";
    assert ("{" + rest)[1] == '{' && p[1] == '0';
    NoMatch("{" + rest, p, 0, 1);
    SkipPrefix("{", rest, p, "1");
    assert rest[0..|p|] == p;
    FindIs(rest, p, 0, Some(0));
    assert [] + p + "}" == rest;
    ReplaceFirst([], p, "}", "1");
    assert ReplaceAll("}", p, "1") == "}";
  }

  /** A filled placeholder inside braces of a literal forms a new one. */
  lemma NestedPlaceholderIsReplaced(late: string)
    ensures SubstituteFrom("{" + (Template([Hole("0")]) + "}"), ["1", late], 0) == late
  {
    assert Decimal(0) == "0" && Decimal(1) == "1";
    var p := Template([Hole("0")]);
    assert p == "{" + "0" + "}" == Placeholder(0) == "{0}";
    FilledInsideBraces(p);
    FillsAlone("1", late);
    TwoPasses("{" + (p + "}"), "1", late);
  }
}
