/** Decisions taken by vote among database nodes: which nodes lose when their affected-row
    counts differ, and which message kind to believe when the nodes answer differently. */
module Voting {
  import opened Options

  /** How often v occurs in s. */
  function Count(s: seq<int>, v: int): nat {
    if s == [] then 0 else Count(s[..|s| - 1], v) + (if s[|s| - 1] == v then 1 else 0)
  }

  /** How many of the nodes reported a row count; a negative entry is a node that is down. */
  function Healthy(rows: seq<int>): nat {
    if rows == [] then 0 else Healthy(rows[..|rows| - 1]) + (if rows[|rows| - 1] >= 0 then 1 else 0)
  }

  lemma {:induction false} CountSplit(s: seq<int>, k: nat, v: int)
    requires k <= |s|
    ensures Count(s, v) == Count(s[..k], v) + Count(s[k..], v)
  {
    if k == |s| {
      assert s[..k] == s;
    } else {
      var t := s[..|s| - 1];
      CountSplit(t, k, v);
      assert t[..k] == s[..k];
      assert t[k..] == s[k..][..|s| - k - 1];
    }
  }

  lemma {:induction false} CountPositive(s: seq<int>, v: int)
    ensures Count(s, v) > 0 <==> v in s
    ensures Count(s, v) <= |s|
  {
    if s != [] {
      CountPositive(s[..|s| - 1], v);
      assert s == s[..|s| - 1] + [s[|s| - 1]];
    }
  }

  lemma {:induction false} TwoGroupsFit(rows: seq<int>, v: int, w: int)
    requires v >= 0 && w >= 0 && v != w
    ensures Count(rows, v) + Count(rows, w) <= Healthy(rows)
  {
    if rows != [] {
      TwoGroupsFit(rows[..|rows| - 1], v, w);
    }
  }

  lemma {:induction false} GroupFits(rows: seq<int>, v: int)
    requires v >= 0
    ensures Count(rows, v) <= Healthy(rows)
  {
    if rows != [] {
      GroupFits(rows[..|rows| - 1], v);
    }
  }

  // ---------------------------------------------------------------------------------------
  // Affected-row counts
  // ---------------------------------------------------------------------------------------

  /** Node i reported a count, and nobody's count is shared by more nodes than i's. */
  ghost predicate InLargestGroup(rows: seq<int>, i: nat) {
    i < |rows| && rows[i] >= 0 && Count(rows, rows[i]) >= 2 &&
    forall k :: 0 <= k < |rows| && rows[k] >= 0 ==> Count(rows, rows[k]) <= Count(rows, rows[i])
  }

  /** The nodes of the largest groups; several groups of the same size all belong. */
  ghost function LargestGroupNodes(rows: seq<int>): set<nat> {
    set i: nat | i < |rows| && InLargestGroup(rows, i)
  }

  /** The largest groups (of two nodes or more) together outnumber half of the healthy nodes. */
  ghost predicate LargestGroupsCarry(rows: seq<int>) {
    2 * |LargestGroupNodes(rows)| > Healthy(rows)
  }

  /** v is the row count whose reporters survive: that of the lowest node in a largest group when
      the largest groups carry the vote, the master's otherwise. */
  ghost predicate Wins(rows: seq<int>, master: int, v: int)
    requires master < |rows|
  {
    if LargestGroupsCarry(rows) then
      exists i :: 0 <= i < |rows| && InLargestGroup(rows, i) && v == rows[i] &&
                  forall k :: 0 <= k < i ==> !InLargestGroup(rows, k)
    else
      master >= 0 && v == rows[master]
  }

  /** The nodes, in ascending order, that reported a count other than v. */
  function Losers(rows: seq<int>, v: int): seq<nat> {
    if rows == [] then [] else
      var i := |rows| - 1;
      Losers(rows[..i], v) + if rows[i] >= 0 && rows[i] != v then [i] else []
  }

  lemma {:induction false} LosersAre(rows: seq<int>, v: int)
    ensures forall i: nat :: i in Losers(rows, v) <==> i < |rows| && rows[i] >= 0 && rows[i] != v
    ensures forall a, b :: 0 <= a < b < |Losers(rows, v)| ==> Losers(rows, v)[a] < Losers(rows, v)[b]
  {
    if rows != [] {
      var i := |rows| - 1;
      LosersAre(rows[..i], v);
      var before, last := Losers(rows[..i], v), if rows[i] >= 0 && rows[i] != v then [i] else [];
      assert Losers(rows, v) == before + last;
      hide Losers;
      forall a, b | 0 <= a < b < |before + last| ensures (before + last)[a] < (before + last)[b] {
        if b == |before| { assert before[a] in before; }
      }
      forall k: nat ensures k in before + last <==> k < |rows| && rows[k] >= 0 && rows[k] != v {
        assert k in before <==> k < i && rows[..i][k] >= 0 && rows[..i][k] != v;
      }
    }
  }

  // Votes collected for the first i nodes.
  ghost predicate VotesCast(rows: seq<int>, votes: seq<int>, i: nat) {
    |votes| == |rows| && i <= |rows| &&
    forall k :: 0 <= k < i ==> votes[k] == if rows[k] < 0 then -1 else Count(rows, rows[k])
  }

  /** (top, value) is the best among the first i nodes: the largest group size of two or more and
      the count of the lowest node that has it, or (0, 0) when there is none. */
  ghost predicate Leads(rows: seq<int>, i: nat, top: nat, value: int)
    requires i <= |rows|
  {
    && (forall k :: 0 <= k < i && rows[k] >= 0 ==> Count(rows, rows[k]) <= top || Count(rows, rows[k]) < 2)
    && if top == 0 then true
       else top >= 2 && exists k :: 0 <= k < i && rows[k] == value && value >= 0 && Count(rows, value) == top &&
                                    forall j :: 0 <= j < k && rows[j] >= 0 ==> Count(rows, rows[j]) < top
  }

  lemma {:induction false} HealthyStep(rows: seq<int>, i: nat)
    requires i < |rows|
    ensures Healthy(rows[..i + 1]) == Healthy(rows[..i]) + (if rows[i] >= 0 then 1 else 0)
  {
    assert rows[..i + 1][..i] == rows[..i];
  }

  lemma {:induction false} CountStep(s: seq<int>, i: nat, v: int)
    requires i < |s|
    ensures Count(s[..i + 1], v) == Count(s[..i], v) + (if s[i] == v then 1 else 0)
    ensures Count(s[..i + 1], v) <= Count(s, v)
  {
    assert s[..i + 1][..i] == s[..i];
    CountSplit(s, i + 1, v);
  }

  lemma TopVoteIsLargest(rows: seq<int>, votes: seq<int>, top: nat, value: int, i: nat)
    requires VotesCast(rows, votes, |rows|) && Leads(rows, |rows|, top, value) && i < |rows|
    ensures votes[i] == top <==> InLargestGroup(rows, i)
  {
    CountPositive(rows, rows[i]);
    hide Count;
  }

  // The second counting loop: entries of votes[..i] equal to a top of two or more are largest-group nodes.
  lemma {:induction false} CountTopVotes(rows: seq<int>, votes: seq<int>, top: nat, value: int, i: nat)
    requires VotesCast(rows, votes, |rows|) && Leads(rows, |rows|, top, value) && i <= |rows|
    ensures Count(votes[..i], top) == |set k: nat | k < i && InLargestGroup(rows, k)|
  {
    var here := set k: nat | k < i && InLargestGroup(rows, k);
    if i == 0 {
      assert here == {};
    } else {
      CountTopVotes(rows, votes, top, value, i - 1);
      CountStep(votes, i - 1, top);
      var before := set k: nat | k < i - 1 && InLargestGroup(rows, k);
      TopVoteIsLargest(rows, votes, top, value, i - 1);
      hide InLargestGroup, Count, VotesCast, Leads;
      if InLargestGroup(rows, i - 1) {
        assert here == before + {i - 1};
      } else {
        assert here == before;
      }
    }
  }

  // Adds node i's vote: how many nodes report the same count, and whether that beats the best so far.
  method CastVote(rows: seq<int>, i: nat, top0: nat, value0: int) returns (vote: int, maxvotes: nat, majority: int)
    requires i < |rows| && rows[i] >= 0
    ensures vote == Count(rows, rows[i])
    ensures if vote >= 2 && vote > top0 then maxvotes == vote && majority == rows[i]
            else maxvotes == top0 && majority == value0
  {
    var me := rows[i];
    vote, maxvotes, majority := 1, top0, value0;
    CountPositive(rows, me);
    for j := 0 to |rows|
      invariant vote == Count(rows[..j], me) + if j <= i then 1 else 0
      invariant 1 <= vote
      invariant if vote >= 2 && vote > top0 then maxvotes == vote && majority == me
                else maxvotes == top0 && majority == value0
    {
      CountStep(rows, j, me);
      if i != j && me == rows[j] {
        vote := vote + 1;
        if vote > maxvotes {
          maxvotes := vote;
          majority := me;
        }
      }
    }
    assert rows[..|rows|] == rows;
  }

  // The two outer loops of find_victim_nodes: the votes, the best group, and how many nodes share its size.
  method CollectVotes(rows: seq<int>) returns (healthy: nat, maxvotes: nat, majority: int, cnt: nat)
    ensures healthy == Healthy(rows)
    ensures Leads(rows, |rows|, maxvotes, majority)
    ensures cnt == |LargestGroupNodes(rows)| && maxvotes != 1
  {
    var votes := new int[|rows|];
    healthy, maxvotes, majority := 0, 0, 0;
    for i := 0 to |rows|
      invariant healthy == Healthy(rows[..i])
      invariant VotesCast(rows, votes[..], i)
      invariant Leads(rows, i, maxvotes, majority)
    {
      HealthyStep(rows, i);
      if rows[i] < 0 {
        votes[i] := -1;
        continue;
      }
      healthy := healthy + 1;
      votes[i], maxvotes, majority := CastVote(rows, i, maxvotes, majority);
    }
    assert rows[..|rows|] == rows;
    ghost var cast := votes[..];
    cnt := 0;
    for i := 0 to |rows|
      invariant votes[..] == cast
      invariant cnt == Count(cast[..i], maxvotes)
    {
      CountStep(cast, i, maxvotes);
      if votes[i] == maxvotes {
        cnt := cnt + 1;
      }
    }
    CountTopVotes(rows, cast, maxvotes, majority, |rows|);
    assert LargestGroupNodes(rows) == set k: nat | k < |rows| && InLargestGroup(rows, k);
  }

  ghost predicate LowestOfLargest(rows: seq<int>, w: nat) {
    InLargestGroup(rows, w) && forall k :: 0 <= k < w ==> !InLargestGroup(rows, k)
  }

  /** list names the nodes that reported another count than node w, and no others. */
  ghost predicate Differ(rows: seq<int>, w: nat, list: seq<nat>) {
    w < |rows| && forall i: nat :: i in list <==> i < |rows| && rows[i] >= 0 && rows[i] != rows[w]
  }

  /** Picks the nodes to degenerate after the nodes reported different affected-row counts.
      None stands for the NULL of "no one wins and there is no master to follow". */
  method FindVictimNodes(rows: seq<int>, master: int) returns (victims: Option<seq<nat>>)
    requires master < |rows|
    ensures victims.None? <==> !LargestGroupsCarry(rows) && master < 0
    ensures victims.Some? ==> exists v :: Wins(rows, master, v) && victims.value == Losers(rows, v)
    // Whoever reported another count than the winners: the lowest node of a largest group, or the master.
    ensures LargestGroupsCarry(rows) ==> victims.Some? && exists w: nat :: LowestOfLargest(rows, w) && Differ(rows, w, victims.value)
    ensures !LargestGroupsCarry(rows) && master >= 0 ==> victims.Some? && Differ(rows, master, victims.value)
  {
    var healthy, maxvotes, majority, cnt := CollectVotes(rows);
    if 2 * cnt <= healthy {
      if master < 0 { return None; }
      majority := rows[master];
    } else {
      LeaderWins(rows, maxvotes, majority);
    }
    var list := [];
    for i := 0 to |rows|
      invariant list == Losers(rows[..i], majority)
    {
      assert rows[..i + 1][..i] == rows[..i];
      if rows[i] >= 0 && rows[i] != majority {
        list := list + [i];
      }
    }
    assert rows[..|rows|] == rows;
    victims := Some(list);
    WinnersStay(rows, master, majority);
  }

  lemma WinnersStay(rows: seq<int>, master: int, v: int)
    requires master < |rows| && Wins(rows, master, v)
    ensures if LargestGroupsCarry(rows) then exists w: nat :: LowestOfLargest(rows, w) && Differ(rows, w, Losers(rows, v))
            else master >= 0 && Differ(rows, master, Losers(rows, v))
  {
    LosersAre(rows, v);
    if LargestGroupsCarry(rows) {
      var w: nat :| w < |rows| && InLargestGroup(rows, w) && v == rows[w] && forall k :: 0 <= k < w ==> !InLargestGroup(rows, k);
      assert LowestOfLargest(rows, w) && Differ(rows, w, Losers(rows, v));
    }
  }

  lemma {:induction false} LeaderWins(rows: seq<int>, top: nat, value: int)
    requires Leads(rows, |rows|, top, value) && LargestGroupsCarry(rows)
    ensures exists i :: 0 <= i < |rows| && InLargestGroup(rows, i) && value == rows[i] &&
                        forall k :: 0 <= k < i ==> !InLargestGroup(rows, k)
  {
    assert LargestGroupNodes(rows) != {};
    var m: nat :| m in LargestGroupNodes(rows);
    assert top != 0;
    var i :| 0 <= i < |rows| && rows[i] == value && value >= 0 && Count(rows, value) == top &&
             forall j :: 0 <= j < i && rows[j] >= 0 ==> Count(rows, rows[j]) < top;
    assert InLargestGroup(rows, i);
  }

  /** Whatever wins, the healthy survivors all report the winning count. */
  lemma SurvivorsAgree(rows: seq<int>, v: int, i: nat, j: nat)
    requires i < |rows| && j < |rows| && rows[i] >= 0 && rows[j] >= 0
    requires i !in Losers(rows, v) && j !in Losers(rows, v)
    ensures rows[i] == rows[j] == v
  {
    LosersAre(rows, v);
  }

  /** As long as the master is healthy the vote never condemns every healthy node. */
  lemma SomebodySurvives(rows: seq<int>, master: int, v: int) returns (i: nat)
    requires 0 <= master < |rows| && rows[master] >= 0 && Wins(rows, master, v)
    ensures i < |rows| && rows[i] == v && rows[i] >= 0 && i !in Losers(rows, v)
  {
    LosersAre(rows, v);
    if LargestGroupsCarry(rows) {
      i :| 0 <= i < |rows| && InLargestGroup(rows, i) && v == rows[i];
    } else {
      i := master;
    }
  }

  /** A count reported by more than half of two or more healthy nodes is the winner, master or no master. */
  lemma StrictMajorityWins(rows: seq<int>, master: int, v: int, w: int)
    requires master < |rows| && v >= 0 && Healthy(rows) >= 2 && 2 * Count(rows, v) > Healthy(rows)
    ensures Wins(rows, master, w) <==> w == v
    ensures LargestGroupsCarry(rows)
  {
    CountPositive(rows, v);
    forall k | 0 <= k < |rows| && rows[k] >= 0 && rows[k] != v
      ensures Count(rows, rows[k]) < Count(rows, v)
    {
      TwoGroupsFit(rows, v, rows[k]);
    }
    assert forall k :: 0 <= k < |rows| ==> (InLargestGroup(rows, k) <==> rows[k] == v);
    OccurrencesAre(rows, v);
    assert LargestGroupNodes(rows) == set k: nat | k < |rows| && rows[k] == v;
    var low := LowestOccurrence(rows, v);
  }

  lemma {:induction false} OccurrencesAre(rows: seq<int>, v: int)
    ensures |set k: nat | k < |rows| && rows[k] == v| == Count(rows, v)
  {
    var all := set k: nat | k < |rows| && rows[k] == v;
    if rows == [] {
      assert all == {};
    } else {
      var n := |rows| - 1;
      OccurrencesAre(rows[..n], v);
      var before := set k: nat | k < n && rows[..n][k] == v;
      assert all == if rows[n] == v then before + {n} else before;
    }
  }

  lemma {:induction false} LowestOccurrence(rows: seq<int>, v: int) returns (i: nat)
    requires v in rows
    ensures i < |rows| && rows[i] == v && forall k :: 0 <= k < i ==> rows[k] != v
  {
    if v in rows[..|rows| - 1] {
      i := LowestOccurrence(rows[..|rows| - 1], v);
    } else {
      i := |rows| - 1;
    }
  }

  /** The vote spares a healthy node exactly if the largest groups carry it or the master it falls to is healthy. */
  lemma SomebodySurvivesIff(rows: seq<int>, master: int, v: int)
    requires master < |rows| && Wins(rows, master, v)
    ensures (exists i: nat :: i < |rows| && rows[i] >= 0 && i !in Losers(rows, v)) <==>
            LargestGroupsCarry(rows) || rows[master] >= 0
  {
    LosersAre(rows, v);
    if LargestGroupsCarry(rows) {
      var i: nat :| i < |rows| && InLargestGroup(rows, i) && v == rows[i];
      assert i !in Losers(rows, v);
    } else if rows[master] >= 0 {
      assert master !in Losers(rows, v);
    }
  }

  /** A count that the largest groups carry is a majority exactly if they are one group. */
  lemma MajorityCarriesIff(rows: seq<int>, master: int, v: int)
    requires master < |rows| && LargestGroupsCarry(rows) && Wins(rows, master, v)
    ensures 2 * Count(rows, v) > Healthy(rows) <==> forall k: nat :: k < |rows| && InLargestGroup(rows, k) ==> rows[k] == v
  {
    var i: nat :| i < |rows| && InLargestGroup(rows, i) && v == rows[i];
    if forall k: nat :: k < |rows| && InLargestGroup(rows, k) ==> rows[k] == v {
      OccurrencesAre(rows, v);
      assert LargestGroupNodes(rows) == set k: nat | k < |rows| && rows[k] == v;
    } else {
      var k: nat :| k < |rows| && InLargestGroup(rows, k) && rows[k] != v;
      TwoGroupsFit(rows, v, rows[k]);
    }
  }

  /** There may be more than one: two groups of two out of five nodes carry the vote together, and the
      group with the lower node wins although it holds two votes of five. */
  lemma PluralityCarries()
    ensures Wins([2, 1, 1, 2, 3], 4, 2) && 2 * Count([2, 1, 1, 2, 3], 2) <= Healthy([2, 1, 1, 2, 3])
  {
    var rows := [2, 1, 1, 2, 3];
    CountList(rows, 1);
    CountList(rows, 2);
    CountList(rows, 3);
    assert Healthy(rows) <= 5 by { HealthyBound(rows); }
    assert InLargestGroup(rows, 0) && InLargestGroup(rows, 1) && InLargestGroup(rows, 2) && InLargestGroup(rows, 3);
    assert LargestGroupNodes(rows) >= {0, 1, 2, 3};
    SubsetSize({0, 1, 2, 3}, LargestGroupNodes(rows));
    assert Healthy(rows) >= 4 by { TwoGroupsFit(rows, 1, 2); }
  }

  lemma CountList(rows: seq<int>, v: int)
    requires |rows| == 5
    ensures Count(rows, v) == (if rows[0] == v then 1 else 0) + (if rows[1] == v then 1 else 0) +
                              (if rows[2] == v then 1 else 0) + (if rows[3] == v then 1 else 0) +
                              (if rows[4] == v then 1 else 0)
  {
    assert rows[..0] == [];
    CountStep(rows, 0, v);
    CountStep(rows, 1, v);
    CountStep(rows, 2, v);
    CountStep(rows, 3, v);
    CountStep(rows, 4, v);
    assert rows[..5] == rows;
  }

  lemma {:induction false} HealthyBound(rows: seq<int>)
    ensures Healthy(rows) <= |rows|
  {
    if rows != [] {
      HealthyBound(rows[..|rows| - 1]);
    }
  }

  lemma {:induction false} SubsetSize<T>(a: set<T>, b: set<T>)
    requires a <= b
    ensures |a| <= |b|
  {
    if a != {} {
      var x :| x in a;
      SubsetSize(a - {x}, b - {x});
    }
  }

  // ---------------------------------------------------------------------------------------
  // Message kinds
  // ---------------------------------------------------------------------------------------

  const KIND_VALUES := 256

  /** The kind byte read from each node; 0 for a node that was not part of the query. */
  ghost predicate KindList(kinds: seq<int>) {
    forall i :: 0 <= i < |kinds| ==> 0 <= kinds[i] < KIND_VALUES
  }

  function Executed(kinds: seq<int>): nat {
    if kinds == [] then 0 else Executed(kinds[..|kinds| - 1]) + (if kinds[|kinds| - 1] != 0 then 1 else 0)
  }

  ghost predicate Unanimous(kinds: seq<int>, k: int) {
    forall i :: 0 <= i < |kinds| && kinds[i] != 0 ==> kinds[i] == k
  }

  ghost predicate Majority(kinds: seq<int>, k: int) {
    k != 0 && 2 * Count(kinds, k) > |kinds|
  }

  /** k is believed: everybody says so, or more than half of all nodes do, or the master does
      (0 if the master took no part). */
  ghost predicate Believed(kinds: seq<int>, master: nat, k: int)
    requires master < |kinds|
  {
    if exists u :: u in kinds && u != 0 && Unanimous(kinds, u) then k in kinds && k != 0 && Unanimous(kinds, k)
    else if exists m :: Majority(kinds, m) then Majority(kinds, k)
    else k == kinds[master]
  }

  /** The executed nodes, ascending, whose kind is not k. */
  function Dissenters(kinds: seq<int>, k: int): seq<nat> {
    if kinds == [] then [] else
      var i := |kinds| - 1;
      Dissenters(kinds[..i], k) + if kinds[i] != 0 && kinds[i] != k then [i] else []
  }

  lemma {:induction false} DissentersAre(kinds: seq<int>, k: int)
    ensures forall i: nat :: i in Dissenters(kinds, k) <==> i < |kinds| && kinds[i] != 0 && kinds[i] != k
    ensures forall a, b :: 0 <= a < b < |Dissenters(kinds, k)| ==> Dissenters(kinds, k)[a] < Dissenters(kinds, k)[b]
  {
    if kinds != [] {
      var i := |kinds| - 1;
      DissentersAre(kinds[..i], k);
      var before, last := Dissenters(kinds[..i], k), if kinds[i] != 0 && kinds[i] != k then [i] else [];
      assert Dissenters(kinds, k) == before + last;
      hide Dissenters;
      forall a, b | 0 <= a < b < |before + last| ensures (before + last)[a] < (before + last)[b] {
        if b == |before| { assert before[a] in before; }
      }
      forall j: nat ensures j in before + last <==> j < |kinds| && kinds[j] != 0 && kinds[j] != k {
        assert j in before <==> j < i && kinds[..i][j] != 0 && kinds[..i][j] != k;
      }
    }
  }

  lemma {:induction false} CountExecuted(kinds: seq<int>, k: int)
    requires k != 0
    ensures Count(kinds, k) <= Executed(kinds) <= |kinds|
    ensures Count(kinds, k) == Executed(kinds) <==> Unanimous(kinds, k)
  {
    if kinds != [] {
      var n := |kinds| - 1;
      CountExecuted(kinds[..n], k);
      assert Unanimous(kinds, k) <==> Unanimous(kinds[..n], k) && (kinds[n] != 0 ==> kinds[n] == k);
    }
  }

  lemma {:induction false} TwoKindsFit(kinds: seq<int>, j: int, k: int)
    requires j != k
    ensures Count(kinds, j) + Count(kinds, k) <= |kinds|
  {
    if kinds != [] {
      TwoKindsFit(kinds[..|kinds| - 1], j, k);
    }
  }

  // The reading loop: the first kind to reach the highest tally, that tally, and who took part.
  method TallyKinds(kinds: seq<int>) returns (maxKind: int, maxCount: int, executed: nat, first: int)
    requires KindList(kinds) && exists i :: 0 <= i < |kinds| && kinds[i] != 0
    ensures 0 <= first < |kinds| && kinds[first] != 0 && executed == Executed(kinds)
    ensures 0 < maxKind < KIND_VALUES && maxCount == Count(kinds, maxKind) && maxCount > 0
    ensures forall k :: 0 < k < KIND_VALUES ==> Count(kinds, k) <= maxCount
  {
    var tally := new int[KIND_VALUES](_ => 0);
    maxKind, maxCount, executed, first := 0, 0, 0, -1;
    for i := 0 to |kinds|
      invariant forall k :: 0 < k < KIND_VALUES ==> tally[k] == Count(kinds[..i], k) && tally[k] <= maxCount
      invariant executed == Executed(kinds[..i])
      invariant if first < 0 then maxCount == 0 && forall k :: 0 <= k < i ==> kinds[k] == 0
                else first < i && kinds[first] != 0 && 0 < maxKind < KIND_VALUES && maxCount == tally[maxKind] > 0
    {
      assert kinds[..i + 1][..i] == kinds[..i];
      forall k | 0 < k < KIND_VALUES
        ensures Count(kinds[..i + 1], k) == Count(kinds[..i], k) + (if kinds[i] == k then 1 else 0)
      {
        CountStep(kinds, i, k);
      }
      if kinds[i] != 0 {
        var kind := kinds[i];
        executed := executed + 1;
        if first < 0 { first := i; }
        tally[kind] := tally[kind] + 1;
        if tally[kind] > maxCount {
          maxKind := kind;
          maxCount := tally[kind];
        }
      }
    }
    assert kinds[..|kinds|] == kinds;
  }

  /** Decides the kind for the whole set of nodes and lists the nodes to degenerate.
      sentTo[i] says whether node i was a target; only targets were read from. */
  method ReadKindFromBackend(kinds: seq<int>, sentTo: seq<bool>, inProgress: bool, master: nat)
    returns (decided: int, degenerate: seq<nat>)
    requires KindList(kinds) && |sentTo| == |kinds| && master < |kinds|
    requires exists i :: 0 <= i < |kinds| && kinds[i] != 0
    requires forall i :: 0 <= i < |kinds| && inProgress && !sentTo[i] ==> kinds[i] == 0
    ensures Believed(kinds, master, decided)
    ensures degenerate == Dissenters(kinds, decided)
    // What all that answered say, or more than half of the nodes; else what the master says.
    ensures forall u :: u in kinds && u != 0 && (forall i :: 0 <= i < |kinds| ==> kinds[i] in {0, u}) ==> decided == u
    ensures forall m :: m in kinds && m != 0 && 2 * Count(kinds, m) > |kinds| ==> decided == m
    ensures (forall u :: u in kinds && u != 0 ==> 2 * Count(kinds, u) <= |kinds| && exists i :: 0 <= i < |kinds| && kinds[i] !in {0, u}) ==>
              decided == kinds[master]
    ensures forall i: nat :: i in degenerate <==> i < |kinds| && kinds[i] != 0 && kinds[i] != decided
  {
    var maxKind, maxCount, executed, first := TallyKinds(kinds);
    DecisionFacts(kinds, maxKind, maxCount);
    degenerate := [];
    if maxCount != executed {
      decided := if 2 * maxCount <= |kinds| then kinds[master] else maxKind;
      for i := 0 to |kinds|
        invariant degenerate == Dissenters(kinds[..i], decided)
      {
        assert kinds[..i + 1][..i] == kinds[..i];
        if inProgress && !sentTo[i] { continue; }
        if kinds[i] != 0 && decided != kinds[i] {
          degenerate := degenerate + [i];
        }
      }
      assert kinds[..|kinds|] == kinds;
    } else {
      decided := kinds[first];
      NoDissent(kinds, decided);
    }
    BelievedIs(kinds, master, decided);
    DissentersAre(kinds, decided);
    hide Believed, Dissenters, Executed, Count;
  }

  lemma BelievedIs(kinds: seq<int>, master: nat, k: int)
    requires master < |kinds| && Believed(kinds, master, k)
    ensures forall u :: u in kinds && u != 0 && (forall i :: 0 <= i < |kinds| ==> kinds[i] in {0, u}) ==> k == u
    ensures forall m :: m in kinds && m != 0 && 2 * Count(kinds, m) > |kinds| ==> k == m
    ensures (forall u :: u in kinds && u != 0 ==> 2 * Count(kinds, u) <= |kinds| && exists i :: 0 <= i < |kinds| && kinds[i] !in {0, u}) ==>
              k == kinds[master]
  {
    forall u | u in kinds && u != 0 && (forall i :: 0 <= i < |kinds| ==> kinds[i] in {0, u}) ensures k == u {
      assert Unanimous(kinds, u);
    }
    forall m | m in kinds && m != 0 && 2 * Count(kinds, m) > |kinds| ensures k == m {
      assert Majority(kinds, m);
      CountPositive(kinds, m);
      CountPositive(kinds, k);
      if k != m { TwoKindsFit(kinds, k, m); }
    }
    if forall u :: u in kinds && u != 0 ==> 2 * Count(kinds, u) <= |kinds| && exists i :: 0 <= i < |kinds| && kinds[i] !in {0, u} {
      forall m ensures !Majority(kinds, m) { CountPositive(kinds, m); }
    }
  }

  lemma DecisionFacts(kinds: seq<int>, maxKind: int, maxCount: int)
    requires KindList(kinds) && 0 < maxKind < KIND_VALUES && maxCount == Count(kinds, maxKind)
    requires forall k :: 0 < k < KIND_VALUES ==> Count(kinds, k) <= maxCount
    requires maxCount > 0
    ensures maxKind in kinds
    ensures maxCount == Executed(kinds) <==> Unanimous(kinds, maxKind)
    ensures (exists u :: u in kinds && u != 0 && Unanimous(kinds, u)) ==> Unanimous(kinds, maxKind)
    ensures forall m :: Majority(kinds, m) <==> 2 * maxCount > |kinds| && m == maxKind
  {
    CountPositive(kinds, maxKind);
    CountExecuted(kinds, maxKind);
    forall m | m != 0
      ensures Majority(kinds, m) <==> 2 * maxCount > |kinds| && m == maxKind
    {
      CountPositive(kinds, m);
      assert m in kinds ==> m < KIND_VALUES;
      if m != maxKind {
        TwoKindsFit(kinds, m, maxKind);
      }
    }
  }

  lemma {:induction false} NoDissent(kinds: seq<int>, k: int)
    requires Unanimous(kinds, k)
    ensures Dissenters(kinds, k) == []
  {
    if kinds != [] {
      NoDissent(kinds[..|kinds| - 1], k);
    }
  }

  /** The vote condemns every node that took part exactly when there is neither unanimity nor a
      majority and the master itself took no part. */
  lemma AllCondemnedIff(kinds: seq<int>, master: nat, k: int)
    requires KindList(kinds) && master < |kinds| && Believed(kinds, master, k)
    requires exists i :: 0 <= i < |kinds| && kinds[i] != 0
    ensures (forall i :: 0 <= i < |kinds| && kinds[i] != 0 ==> i in Dissenters(kinds, k)) <==>
            kinds[master] == 0 && (forall u :: u in kinds && u != 0 ==> !Unanimous(kinds, u)) &&
            (forall m :: !Majority(kinds, m))
  {
    DissentersAre(kinds, k);
    if k != 0 {
      CountPositive(kinds, k);
    }
  }

  /** pool_where_to_send makes the lowest target the virtual master; when that node answered,
      some node always survives the vote. */
  lemma LowestTargetSurvivesVote(kinds: seq<int>, master: nat, k: int)
    requires KindList(kinds) && master < |kinds| && Believed(kinds, master, k) && kinds[master] != 0
    ensures exists i :: 0 <= i < |kinds| && kinds[i] != 0 && i !in Dissenters(kinds, k)
  {
    AllCondemnedIff(kinds, master, k);
  }
}
