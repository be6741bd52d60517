/** Searching in strings, as std::string::find does. */
module Searching {
  import opened Wrappers

  function IndexOf(s: string, c: char): (r: Option<nat>)
    ensures r.Some? ==> r.value < |s| && s[r.value] == c && c !in s[..r.value]
    ensures r.None? ==> c !in s
  {
    if s == "" then None
    else if s[0] == c then Some(0)
    else
      var r := IndexOf(s[1..], c);
      if r.None? then None else Some(r.value + 1)
  }

  /** Position of the first character, from i on, for which the test holds; |s| if none. */
  function FindWhere(s: string, test: char -> bool, i: nat): (k: nat)
    requires i <= |s|
    ensures i <= k <= |s|
    ensures k < |s| ==> test(s[k])
    ensures forall j :: i <= j < k ==> !test(s[j])
    decreases |s| - i
  {
    if i == |s| || test(s[i]) then i else FindWhere(s, test, i + 1)
  }

  lemma {:induction false} FindWhereIs(s: string, test: char -> bool, i: nat, k: nat)
    requires i <= k <= |s|
    requires forall j :: i <= j < k ==> !test(s[j])
    requires k < |s| ==> test(s[k])
    ensures FindWhere(s, test, i) == k
    decreases k - i
  {
    if i < k { FindWhereIs(s, test, i + 1, k); }
  }

  predicate MatchAt(s: string, p: string, k: nat) {
    k + |p| <= |s| && s[k..k + |p|] == p
  }

  /** std::string::find. */
  function Find(s: string, p: string, pos: nat): (r: Option<nat>)
    ensures r.Some? ==> pos <= r.value <= r.value + |p| <= |s|
    decreases |s| - pos
  {
    if pos + |p| > |s| then None
    else if MatchAt(s, p, pos) then Some(pos)
    else Find(s, p, pos + 1)
  }

  /** It finds the first match at or after pos, if there is one. */
  lemma {:induction false} FindFinds(s: string, p: string, pos: nat)
    ensures var r := Find(s, p, pos);
            && (r.Some? ==> pos <= r.value && MatchAt(s, p, r.value))
            && (forall j :: pos <= j && (r.Some? ==> j < r.value) ==> !MatchAt(s, p, j))
    decreases |s| - pos
  {
    if pos + |p| <= |s| && !MatchAt(s, p, pos) { FindFinds(s, p, pos + 1); }
  }

  lemma MatchShift(s: string, p: string, pos: nat, k: nat)
    requires pos <= |s|
    ensures MatchAt(s[pos..], p, k) <==> MatchAt(s, p, pos + k)
  {
    if pos + k + |p| <= |s| {
      assert s[pos..][k..k + |p|] == s[pos + k..pos + k + |p|];
    }
  }

  lemma {:induction false} FindIs(s: string, p: string, pos: nat, r: Option<nat>)
    requires r.Some? ==> pos <= r.value && MatchAt(s, p, r.value)
    requires forall j :: pos <= j && (r.Some? ==> j < r.value) ==> !MatchAt(s, p, j)
    ensures Find(s, p, pos) == r
    decreases |s| - pos
  {
    if pos + |p| <= |s| && !MatchAt(s, p, pos) { FindIs(s, p, pos + 1, r); }
  }

  function Shifted(k: Option<nat>, n: nat): Option<nat> {
    if k.Some? then Some(n + k.value) else None
  }

  lemma {:induction false} FindSkips(s: string, p: string, pos: nat, end: nat)
    requires pos <= end && forall k :: pos <= k < end ==> !MatchAt(s, p, k)
    ensures Find(s, p, pos) == Find(s, p, end)
    decreases end - pos
  {
    if pos < end {
      FindSkips(s, p, pos + 1, end);
    }
  }

  /** Without a match inside the prefix, the first match is that of the rest. */
  lemma FindAfter(prefix: string, rest: string, p: string)
    requires forall k :: 0 <= k < |prefix| ==> !MatchAt(prefix + rest, p, k)
    ensures Find(prefix + rest, p, 0) == Find(prefix + rest, p, |prefix|) == Shifted(Find(rest, p, 0), |prefix|)
  {
    var s := prefix + rest;
    FindSkips(s, p, 0, |prefix|);
    assert s[|prefix|..] == rest;
    FindShift(s, p, |prefix|);
  }

  lemma FindShift(s: string, p: string, pos: nat)
    requires pos <= |s|
    ensures Find(s, p, pos) == Shifted(Find(s[pos..], p, 0), pos)
  {
    var r := Shifted(Find(s[pos..], p, 0), pos);
    FindFinds(s[pos..], p, 0);
    forall j | pos <= j ensures MatchAt(s, p, j) <==> MatchAt(s[pos..], p, j - pos) {
      MatchShift(s, p, pos, j - pos);
    }
    FindIs(s, p, pos, r);
  }
}
