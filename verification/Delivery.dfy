/** How a statement reaches its targets: who gets it, how often, and in which order. */
module Delivery {
  import opened Options
  import opened Statements
  import opened Postgres
  import opened SessionModel
  import opened Batches

  /** The nodes that are to get the statement: targets it is not withheld from. */
  predicate Gets(cfg: Config, s: State, k: nat)
    requires Sized(cfg, s) && s.context.Some? && k < cfg.n
  {
    Valid(cfg, s, k) && !Withheld(cfg, s, k)
  }

  /** Of the live targets only COMMIT and ROLLBACK leave any out: those that are not in a block, if the session is
      being reset, and in master/slave mode those of them that are not the master. In raw mode the master is the
      one node there is. */
  lemma GetsIff(cfg: Config, s: State, k: nat)
    requires Sized(cfg, s) && s.context.Some? && s.inProgress && k < cfg.n
    ensures Gets(cfg, s, k) <==>
            (if cfg.mode == Raw then k == cfg.realMaster else s.context.value.where[k] && cfg.live[k]) &&
            ((s.context.value.stmt != Transaction(CommitTx) && s.context.value.stmt != Transaction(RollbackTx)) ||
             s.conn[k].tstate != Idle || (!s.reset && (cfg.mode != MasterSlave || k == s.context.value.vmaster)))
  {
  }

  function GetMask(cfg: Config, s: State, sendType: int, node: nat): (m: seq<bool>)
    requires Sized(cfg, s) && s.context.Some?
    ensures |m| == cfg.n
  {
    seq(cfg.n, k requires 0 <= k < cfg.n => Gets(cfg, s, k) && Selected(sendType, node, k))
  }

  lemma SendKeeps(c: Conn, q: Query, a: Answer)
    ensures SendQuery(c, q, a) == c.(remote := SendQuery(c, q, a).remote, queue := SendQuery(c, q, a).queue)
  {
  }

  /** Node k is the same to a later call of pool_send_and_wait as to an earlier one. */
  ghost predicate SameAt(cfg: Config, s: State, t: State, k: nat)
    requires Sized(cfg, s) && s.context.Some? && Sized(cfg, t) && t.context.Some? && k < cfg.n
  {
    t.conn[k] == s.conn[k] && (t.context.value.where[k] <==> s.context.value.where[k])
  }

  ghost predicate SameQuery(s: State, t: State) {
    s.context.Some? && t.context.Some? && t == s.(conn := t.conn, context := t.context, log := t.log) &&
    t.context.value == s.context.value.(where := t.context.value.where)
  }

  lemma SameReceives(cfg: Config, s: State, t: State, k: nat)
    requires Sized(cfg, s) && Sized(cfg, t) && SameQuery(s, t) && k < cfg.n && SameAt(cfg, s, t, k)
    ensures (Valid(cfg, t, k) <==> Valid(cfg, s, k)) && (Withheld(cfg, t, k) <==> Withheld(cfg, s, k))
    ensures Gets(cfg, t, k) <==> Gets(cfg, s, k)
  {
  }

  /** Waiting changes no connection and no target. */
  lemma WaitingKeeps(cfg: Config, s: State, sendType: int, m: nat, v: seq<Verdicts>)
    requires Sized(cfg, s) && s.context.Some? && |v| == cfg.n
    ensures var t := SendAndWait(cfg, s, sendType, m, v).s;
            var r := SendAll(cfg, s, sendType, m, v);
            t.conn == r.conn && t.context == r.context && Sized(cfg, t)
  {
    hide SendAll, Receivers, Waits, Stalls;
  }

  /** A call leaves the nodes it does not select as they were. */
  lemma NotSelected(cfg: Config, s: State, sendType: int, m: nat, v: seq<Verdicts>, k: nat)
    requires Sized(cfg, s) && s.context.Some? && |v| == cfg.n && k < cfg.n && !Selected(sendType, m, k)
    ensures SameAt(cfg, s, SendAndWait(cfg, s, sendType, m, v).s, k)
  {
    WaitingKeeps(cfg, s, sendType, m, v);
    hide SendQuery, Valid, Withheld, Receivers, Waits, SendAndWait;
  }

  lemma SelectedForm(cfg: Config, s: State, sendType: int, m: nat, v: seq<Verdicts>, k: nat)
    requires Sized(cfg, s) && s.context.Some? && |v| == cfg.n && k < cfg.n && Selected(sendType, m, k)
    ensures var t := SendAndWait(cfg, s, sendType, m, v).s;
            t.conn[k] == (if Gets(cfg, s, k) then SendQuery(s.conn[k], TheQuery(s), v[k].main) else s.conn[k]) &&
            (t.context.value.where[k] <==> s.context.value.where[k] && !(Valid(cfg, s, k) && Withheld(cfg, s, k)))
  {
    WaitingKeeps(cfg, s, sendType, m, v);
    hide SendQuery, Valid, Withheld, Receivers, Waits, SendAndWait;
  }

  /** The two calls split the nodes between them, so that the second finds its part as it was. */
  lemma SecondCall(cfg: Config, s: State, first: int, second: int, m: nat, v: seq<Verdicts>)
    requires Sized(cfg, s) && s.context.Some? && |v| == cfg.n
    requires (first == 1 && second == -1) || (first == -1 && second == 1)
    ensures var t := SendAndWait(cfg, s, first, m, v).s;
            SameQuery(s, t) && GetMask(cfg, t, second, m) == GetMask(cfg, s, second, m)
  {
    hide SendQuery, Valid, Withheld, Gets;
    var t := SendAndWait(cfg, s, first, m, v).s;
    forall k | 0 <= k < cfg.n && Selected(second, m, k)
      ensures Gets(cfg, t, k) <==> Gets(cfg, s, k)
    {
      NotSelected(cfg, s, first, m, v, k);
      SameReceives(cfg, s, t, k);
    }
    assert forall k :: 0 <= k < cfg.n ==> (GetMask(cfg, t, second, m)[k] <==> GetMask(cfg, s, second, m)[k]);
  }

  lemma ChosenLost(mask: seq<bool>, v: seq<Verdicts>)
    requires |mask| == |v|
    ensures (exists a :: 0 <= a < |Chosen(mask)| && v[Chosen(mask)[a]].main.Lost?) <==>
            (exists k :: 0 <= k < |mask| && mask[k] && v[k].main.Lost?)
  {
    ChosenAre(mask);
    hide Chosen;
    if forall k :: 0 <= k < |mask| && mask[k] ==> !v[k].main.Lost? {
      forall a | 0 <= a < |Chosen(mask)| ensures !v[Chosen(mask)[a]].main.Lost? {
        assert Chosen(mask)[a] in Chosen(mask);
      }
    } else {
      var k :| 0 <= k < |mask| && mask[k] && v[k].main.Lost?;
      var a := IndexOfChosen(mask, k);
      assert v[Chosen(mask)[a]].main.Lost?;
    }
  }

  lemma IndexOfChosen(mask: seq<bool>, k: nat) returns (a: nat)
    requires k < |mask| && mask[k]
    ensures a < |Chosen(mask)| && Chosen(mask)[a] == k
  {
    ChosenAre(mask);
    hide Chosen;
    assert k in Chosen(mask);
    a :| a < |Chosen(mask)| && Chosen(mask)[a] == k;
  }

  /** What one call of pool_send_and_wait leaves in the log: the statement for every node of the mask,
      then the waiting for the same nodes. */
  function Round(mask: seq<bool>, q: Query, v: seq<Verdicts>): seq<Event>
    requires |mask| == |v|
  {
    Sends(Chosen(mask), q) + Waits(Chosen(mask), v)
  }

  /** One call, in terms of the nodes it selects. */
  lemma CallForm(cfg: Config, s: State, sendType: int, m: nat, v: seq<Verdicts>)
    requires Sized(cfg, s) && s.context.Some? && |v| == cfg.n
    ensures var o := SendAndWait(cfg, s, sendType, m, v);
            var mask := GetMask(cfg, s, sendType, m);
            SameQuery(s, o.s) &&
            (!Stalls(cfg, s, sendType, m) ==>
               o.s.log == s.log + Round(mask, TheQuery(s), v) &&
               (o.status == Continue <==> forall k :: 0 <= k < cfg.n && mask[k] ==> !v[k].main.Lost?))
  {
    hide SendQuery, Valid, Withheld, Waits, Chosen;
    var mask := GetMask(cfg, s, sendType, m);
    assert mask == seq(cfg.n, k requires 0 <= k < cfg.n => Receives(cfg, s, sendType, m, k));
    ChosenLost(mask, v);
  }

  /** What the session has sent when a statement has gone out: COMMIT and ROLLBACK to the master last,
      anything else to the master first, or to all at once when there is only one child process. */
  function Delivered(cfg: Config, s: State, v: seq<Verdicts>): seq<Event>
    requires Sized(cfg, s) && s.context.Some? && |v| == cfg.n
  {
    var m := MasterNode(cfg, s);
    var master := Round(GetMask(cfg, s, 1, m), TheQuery(s), v);
    var others := Round(GetMask(cfg, s, -1, m), TheQuery(s), v);
    if cfg.mode == Raw then master
    else if IsCommit(s.context.value.stmt) then others + master
    else if cfg.singleChild then Round(GetMask(cfg, s, 0, 0), TheQuery(s), v)
    else master + others
  }

  /** The waiting is for nodes that are sent to: always so outside raw mode, where the master is the real one. */
  ghost predicate Awaitable(cfg: Config, s: State)
    requires Sized(cfg, s) && s.context.Some?
  {
    cfg.mode == Raw ==> MasterNode(cfg, s) == cfg.realMaster && !Stalls(cfg, s, 1, cfg.realMaster)
  }

  ghost predicate NoneLost(cfg: Config, s: State, v: seq<Verdicts>)
    requires Sized(cfg, s) && s.context.Some? && |v| == cfg.n
  {
    forall k :: 0 <= k < cfg.n && Gets(cfg, s, k) ==> !v[k].main.Lost?
  }

  /** Two calls in a row, which raw mode never makes. */
  lemma TwoCalls(cfg: Config, s: State, first: int, second: int, v: seq<Verdicts>)
    requires Sized(cfg, s) && s.context.Some? && |v| == cfg.n
    requires (first == 1 && second == -1) || (first == -1 && second == 1)
    ensures var m := MasterNode(cfg, s);
            var one := SendAndWait(cfg, s, first, m, v);
            var two := SendAndWait(cfg, one.s, second, m, v);
            var rounds := Round(GetMask(cfg, s, first, m), TheQuery(s), v) + Round(GetMask(cfg, s, second, m), TheQuery(s), v);
            SameQuery(s, one.s) && SameQuery(s, two.s) &&
            (cfg.mode != Raw ==>
               ((one.status == Continue && two.status == Continue) <==> NoneLost(cfg, s, v)) && two.s.log == s.log + rounds) &&
            forall k :: 0 <= k < cfg.n ==>
              two.s.conn[k] == (if Gets(cfg, s, k) then SendQuery(s.conn[k], TheQuery(s), v[k].main) else s.conn[k]) &&
              (two.s.context.value.where[k] <==> s.context.value.where[k] && !(Valid(cfg, s, k) && Withheld(cfg, s, k)))
  {
    hide SendQuery, Valid, Withheld, Gets, Round, SendAndWait;
    var m := MasterNode(cfg, s);
    var one := SendAndWait(cfg, s, first, m, v);
    CallForm(cfg, s, first, m, v);
    SecondCall(cfg, s, first, second, m, v);
    CallForm(cfg, one.s, second, m, v);
    var two := SendAndWait(cfg, one.s, second, m, v);
    forall k | 0 <= k < cfg.n
      ensures two.s.conn[k] == (if Gets(cfg, s, k) then SendQuery(s.conn[k], TheQuery(s), v[k].main) else s.conn[k])
      ensures two.s.context.value.where[k] <==> s.context.value.where[k] && !(Valid(cfg, s, k) && Withheld(cfg, s, k))
    {
      if Selected(first, m, k) {
        SelectedForm(cfg, s, first, m, v, k);
        NotSelected(cfg, one.s, second, m, v, k);
      } else {
        NotSelected(cfg, s, first, m, v, k);
        SelectedForm(cfg, one.s, second, m, v, k);
        SameReceives(cfg, s, one.s, k);
      }
    }
    assert forall k :: 0 <= k < cfg.n ==> (Gets(cfg, s, k) <==> GetMask(cfg, s, first, m)[k] || GetMask(cfg, s, second, m)[k]);
  }

  lemma RawGetsMaster(cfg: Config, s: State)
    requires Sized(cfg, s) && s.context.Some? && cfg.mode == Raw && Awaitable(cfg, s)
    ensures forall k :: 0 <= k < cfg.n && Valid(cfg, s, k) ==> k == MasterNode(cfg, s)
    ensures forall k :: 0 <= k < cfg.n && Gets(cfg, s, k) ==> k == MasterNode(cfg, s)
  {
  }

  lemma RawCall(cfg: Config, s: State, v: seq<Verdicts>)
    requires Sized(cfg, s) && s.context.Some? && |v| == cfg.n && cfg.mode == Raw && Awaitable(cfg, s)
    ensures var m := MasterNode(cfg, s);
            var o := SendAndWait(cfg, s, 1, m, v);
            (o.status == Continue <==> NoneLost(cfg, s, v)) &&
            SameQuery(s, o.s) && o.s.log == s.log + Round(GetMask(cfg, s, 1, m), TheQuery(s), v) &&
            forall k :: 0 <= k < cfg.n ==>
              o.s.conn[k] == (if Gets(cfg, s, k) then SendQuery(s.conn[k], TheQuery(s), v[k].main) else s.conn[k]) &&
              (o.s.context.value.where[k] <==> s.context.value.where[k] && !(Valid(cfg, s, k) && Withheld(cfg, s, k)))
  {
    RawGetsMaster(cfg, s);
    hide SendQuery, Valid, Withheld, Gets, Round, SendAndWait, Stalls;
    var m := MasterNode(cfg, s);
    var o := SendAndWait(cfg, s, 1, m, v);
    CallForm(cfg, s, 1, m, v);
    forall k | 0 <= k < cfg.n
      ensures o.s.conn[k] == if Gets(cfg, s, k) then SendQuery(s.conn[k], TheQuery(s), v[k].main) else s.conn[k]
      ensures o.s.context.value.where[k] <==> s.context.value.where[k] && !(Valid(cfg, s, k) && Withheld(cfg, s, k))
    {
      if k == m { SelectedForm(cfg, s, 1, m, v, k); } else { NotSelected(cfg, s, 1, m, v, k); }
    }
  }

  /** SimpleQuery's two calls deliver the statement to every live target that it is not withheld from,
      to each of them once, and to nobody else; nodes it is withheld from cease to be targets. */
  lemma DispatchDelivers(cfg: Config, s: State, v: seq<Verdicts>)
    requires Sized(cfg, s) && s.context.Some? && |v| == cfg.n && Awaitable(cfg, s)
    ensures var o := Dispatch(cfg, s, v);
            (o.status == Continue <==> NoneLost(cfg, s, v)) &&
            (o.status == Continue ==>
               SameQuery(s, o.s) && o.s.log == s.log + Delivered(cfg, s, v) &&
               forall k :: 0 <= k < cfg.n ==>
                 o.s.conn[k] == (if Gets(cfg, s, k) then SendQuery(s.conn[k], TheQuery(s), v[k].main) else s.conn[k]) &&
                 (o.s.context.value.where[k] <==> s.context.value.where[k] && !(Valid(cfg, s, k) && Withheld(cfg, s, k))))
  {
    assert cfg.mode != Raw ==> !Stalls(cfg, s, 0, 0);
    hide SendQuery, Valid, Withheld, Gets, Round, SendAndWait, Stalls;
    if cfg.mode == Raw {
      RawCall(cfg, s, v);
    } else if IsCommit(s.context.value.stmt) {
      TwoCalls(cfg, s, -1, 1, v);
    } else if cfg.singleChild {
      CallForm(cfg, s, 0, 0, v);
      forall k | 0 <= k < cfg.n
        ensures SendAndWait(cfg, s, 0, 0, v).s.conn[k] ==
                if Gets(cfg, s, k) then SendQuery(s.conn[k], TheQuery(s), v[k].main) else s.conn[k]
        ensures SendAndWait(cfg, s, 0, 0, v).s.context.value.where[k] <==>
                s.context.value.where[k] && !(Valid(cfg, s, k) && Withheld(cfg, s, k))
      {
        SelectedForm(cfg, s, 0, 0, v, k);
      }
    } else {
      TwoCalls(cfg, s, 1, -1, v);
    }
  }

  /** Whether or not all goes well, a node is sent the statement at most once. */
  lemma DispatchTouches(cfg: Config, s: State, v: seq<Verdicts>, k: nat)
    requires Sized(cfg, s) && s.context.Some? && |v| == cfg.n && Awaitable(cfg, s) && k < cfg.n
    ensures var c := Dispatch(cfg, s, v).s.conn[k];
            c == s.conn[k] || (Gets(cfg, s, k) && c == SendQuery(s.conn[k], TheQuery(s), v[k].main))
  {
    hide SendQuery, Valid, Withheld, Gets, SendAndWait;
    var m := MasterNode(cfg, s);
    TwoCalls(cfg, s, -1, 1, v);
    TwoCalls(cfg, s, 1, -1, v);
    forall sendType, node: nat | sendType in {-1, 0, 1} && node < cfg.n
      ensures var c := SendAndWait(cfg, s, sendType, node, v).s.conn[k];
              c == s.conn[k] || (Gets(cfg, s, k) && c == SendQuery(s.conn[k], TheQuery(s), v[k].main))
    {
      if Selected(sendType, node, k) { SelectedForm(cfg, s, sendType, node, v, k); }
      else { NotSelected(cfg, s, sendType, node, v, k); }
    }
  }

  // ---------------------------------------------------------------------------------------
  // Waiting for what was sent
  // ---------------------------------------------------------------------------------------

  function Awaited(nodes: seq<nat>): seq<Event> {
    seq(|nodes|, k requires 0 <= k < |nodes| => Waited(nodes[k]))
  }

  /** Waiting reaches every node exactly if none but the last breaks. */
  lemma {:induction false} WaitsForAllIff(nodes: seq<nat>, v: seq<Verdicts>)
    requires forall k :: 0 <= k < |nodes| ==> nodes[k] < |v|
    ensures Waits(nodes, v) == Awaited(nodes) <==> forall a :: 0 <= a < |nodes| - 1 ==> !v[nodes[a]].main.Lost?
  {
    if |nodes| > 1 {
      var rest := nodes[1..];
      WaitsForAllIff(rest, v);
      assert Awaited(nodes) == [Waited(nodes[0])] + Awaited(rest);
      assert forall a :: 0 <= a < |rest| - 1 ==> rest[a] == nodes[a + 1];
      if v[nodes[0]].main.Lost? {
        assert Waits(nodes, v) == [Waited(nodes[0])];
      } else {
        assert Waits(nodes, v) == [Waited(nodes[0])] + Waits(rest, v);
        assert Waits(nodes, v)[1..] == Waits(rest, v) && Awaited(nodes)[1..] == Awaited(rest);
        forall a | (forall b :: 0 <= b < |rest| - 1 ==> !v[rest[b]].main.Lost?) && 0 <= a < |nodes| - 1
          ensures !v[nodes[a]].main.Lost?
        {
          if a > 0 { assert rest[a - 1] == nodes[a]; }
        }
      }
    }
  }

  lemma StalledReceivesNobody(cfg: Config, s: State, sendType: int, m: nat)
    requires Sized(cfg, s) && s.context.Some? && Stalls(cfg, s, sendType, m)
    ensures Receivers(cfg, s, sendType, m) == []
  {
    var mask := seq(cfg.n, k requires 0 <= k < cfg.n => Receives(cfg, s, sendType, m, k));
    NoneChosen(mask);
  }

  lemma {:induction false} NoneChosen(mask: seq<bool>)
    requires forall k :: 0 <= k < |mask| ==> !mask[k]
    ensures Chosen(mask) == []
  {
    if mask != [] { NoneChosen(mask[..|mask| - 1]); }
  }

  /** A call waits for exactly the nodes that it sent to, in every mode, unless one of them breaks before
      the last or a COMMIT is withheld from the node of raw mode, which is waited for all the same. */
  lemma AwaitsWhatItSendsIff(cfg: Config, s: State, sendType: int, m: nat, v: seq<Verdicts>)
    requires Sized(cfg, s) && s.context.Some? && |v| == cfg.n
    ensures var nodes := Receivers(cfg, s, sendType, m);
            SendAndWait(cfg, s, sendType, m, v).s.log == SendAll(cfg, s, sendType, m, v).log + Awaited(nodes) <==>
            !Stalls(cfg, s, sendType, m) && forall a :: 0 <= a < |nodes| - 1 ==> !v[nodes[a]].main.Lost?
  {
    var nodes := Receivers(cfg, s, sendType, m);
    var r := SendAll(cfg, s, sendType, m, v);
    if Stalls(cfg, s, sendType, m) {
      StalledReceivesNobody(cfg, s, sendType, m);
      assert r.log + [Waited(cfg.realMaster)] != r.log + Awaited(nodes);
    } else {
      WaitsForAllIff(nodes, v);
      hide SendAll, Receivers, Waits, Stalls;
      assert (r.log + Waits(nodes, v))[|r.log|..] == Waits(nodes, v);
      assert (r.log + Awaited(nodes))[|r.log|..] == Awaited(nodes);
    }
  }

  /** Raw mode never opens a transaction of its own. */
  lemma RawOpensNothing(cfg: Config, s: State, v: seq<Verdicts>)
    requires Sized(cfg, s) && s.context.Some? && |v| == cfg.n && cfg.mode == Raw
    ensures SendOut(cfg, s, v).s.log == Dispatch(cfg, NotePrepare(s), v).s.log && SendOut(cfg, s, v).s.writing == s.writing
  {
    hide SendAndWait;
  }

  /** The exception exists: a session in raw mode that is reset while its only node is idle sends no ROLLBACK
      and waits for the node, which has nothing to say; the session ends. */
  lemma RawResetStalls(cfg: Config, s: State, v: seq<Verdicts>)
    requires Sized(cfg, s) && s.context.Some? && |v| == cfg.n && cfg.mode == Raw && s.context.value.vmaster == cfg.realMaster
    requires s.reset && IsCommit(s.context.value.stmt) && s.conn[cfg.realMaster].tstate == Idle && s.conn[cfg.realMaster].queue == []
    ensures var o := Dispatch(cfg, s, v);
            o.s.conn == s.conn && o.s.log == s.log + [Waited(cfg.realMaster)] && o.status == End
  {
    StalledReceivesNobody(cfg, s, 1, cfg.realMaster);
    assert s.log + Sends([], TheQuery(s)) == s.log;
    assert forall k :: 0 <= k < cfg.n ==> !Receives(cfg, s, 1, cfg.realMaster, k);
  }

  // ---------------------------------------------------------------------------------------
  // Exactly once, and in order
  // ---------------------------------------------------------------------------------------

  lemma {:induction false} SentOnce(nodes: seq<nat>, q: Query, k: nat)
    requires Ascending(nodes)
    ensures multiset(Sends(nodes, q))[Sent(k, q)] == (if k in nodes then 1 else 0)
    ensures multiset(Sends(nodes, q))[Waited(k)] == 0
  {
    if nodes == [] {
      assert Sends(nodes, q) == [];
    } else {
      var rest := nodes[1..];
      SentOnce(rest, q, k);
      assert Sends(nodes, q) == [Sent(nodes[0], q)] + Sends(rest, q);
      assert multiset(Sends(nodes, q)) == multiset([Sent(nodes[0], q)]) + multiset(Sends(rest, q));
      assert k in nodes <==> k == nodes[0] || k in rest;
      assert nodes[0] !in rest;
    }
  }

  lemma {:induction false} AwaitedOnce(nodes: seq<nat>, q: Query, v: seq<Verdicts>, k: nat)
    requires (forall a :: 0 <= a < |nodes| ==> nodes[a] < |v| && !v[nodes[a]].main.Lost?) && Ascending(nodes)
    ensures multiset(Waits(nodes, v))[Waited(k)] == (if k in nodes then 1 else 0)
    ensures multiset(Waits(nodes, v))[Sent(k, q)] == 0
    ensures forall e :: e in Waits(nodes, v) ==> e.node in nodes
  {
    if nodes != [] {
      var rest := nodes[1..];
      AwaitedOnce(rest, q, v, k);
      assert multiset(Waits(nodes, v)) == multiset([Waited(nodes[0])]) + multiset(Waits(rest, v));
      assert k in nodes <==> k == nodes[0] || k in rest;
      assert nodes[0] !in rest;
    }
  }

  lemma RoundOnce(mask: seq<bool>, q: Query, v: seq<Verdicts>, k: nat)
    requires |mask| == |v| && forall i :: 0 <= i < |mask| && mask[i] ==> !v[i].main.Lost?
    ensures multiset(Round(mask, q, v))[Sent(k, q)] == (if k < |mask| && mask[k] then 1 else 0)
    ensures multiset(Round(mask, q, v))[Waited(k)] == (if k < |mask| && mask[k] then 1 else 0)
    ensures forall i :: 0 <= i < |Round(mask, q, v)| ==> Round(mask, q, v)[i].node < |mask| && mask[Round(mask, q, v)[i].node]
  {
    ChosenAre(mask);
    var nodes := Chosen(mask);
    assert forall a :: 0 <= a < |nodes| ==> nodes[a] in nodes;
    SentOnce(nodes, q, k);
    AwaitedOnce(nodes, q, v, k);
    forall i | 0 <= i < |Round(mask, q, v)| ensures Round(mask, q, v)[i].node in nodes {
      if i >= |nodes| { assert Round(mask, q, v)[i] in Waits(nodes, v); }
    }
  }

  function Times(events: seq<Event>, e: Event): nat { multiset(events)[e] }

  lemma CallOnce(cfg: Config, s: State, sendType: int, m: nat, v: seq<Verdicts>, k: nat)
    requires Sized(cfg, s) && s.context.Some? && |v| == cfg.n && NoneLost(cfg, s, v)
    ensures var r := Round(GetMask(cfg, s, sendType, m), TheQuery(s), v);
            var times := if k < cfg.n && Gets(cfg, s, k) && Selected(sendType, m, k) then 1 else 0;
            Times(r, Sent(k, TheQuery(s))) == times && Times(r, Waited(k)) == times
  {
    hide Gets, Round;
    RoundOnce(GetMask(cfg, s, sendType, m), TheQuery(s), v, k);
  }

  /** A sum over the master's round and the others'. */
  lemma OnceInTwo(a: seq<Event>, b: seq<Event>, e: Event, gets: bool, master: bool)
    requires Times(a, e) == if gets && master then 1 else 0
    requires Times(b, e) == if gets && !master then 1 else 0
    ensures Times(a + b, e) == Times(b + a, e) == if gets then 1 else 0
  {
  }

  lemma DeliveredOnce(cfg: Config, s: State, v: seq<Verdicts>, k: nat, e: Event)
    requires Sized(cfg, s) && s.context.Some? && |v| == cfg.n && Awaitable(cfg, s) && NoneLost(cfg, s, v)
    requires e == Sent(k, TheQuery(s)) || e == Waited(k)
    ensures Times(Delivered(cfg, s, v), e) == (if k < cfg.n && Gets(cfg, s, k) then 1 else 0)
  {
    hide Gets, Round, Times, GetMask, NoneLost;
    var m := MasterNode(cfg, s);
    CallOnce(cfg, s, 0, 0, v, k);
    CallOnce(cfg, s, 1, m, v, k);
    CallOnce(cfg, s, -1, m, v, k);
    var master, others := Round(GetMask(cfg, s, 1, m), TheQuery(s), v), Round(GetMask(cfg, s, -1, m), TheQuery(s), v);
    if cfg.mode == Raw {
      RawGetsMaster(cfg, s);
      hide *;
    } else {
      OnceInTwo(master, others, e, k < cfg.n && Gets(cfg, s, k), k == m);
    }
  }

  /** The statement reaches every live target it is not withheld from exactly once, and is waited for
      there exactly once; no other node is sent it or waited for. */
  lemma ExactlyOnce(cfg: Config, s: State, v: seq<Verdicts>, k: nat)
    requires Sized(cfg, s) && s.context.Some? && |v| == cfg.n && Awaitable(cfg, s) && NoneLost(cfg, s, v)
    ensures multiset(Delivered(cfg, s, v))[Sent(k, TheQuery(s))] == (if k < cfg.n && Gets(cfg, s, k) then 1 else 0)
    ensures multiset(Delivered(cfg, s, v))[Waited(k)] == (if k < cfg.n && Gets(cfg, s, k) then 1 else 0)
  {
    DeliveredOnce(cfg, s, v, k, Sent(k, TheQuery(s)));
    DeliveredOnce(cfg, s, v, k, Waited(k));
    hide Delivered, Gets, Awaitable, NoneLost;
  }

  /** COMMIT and ROLLBACK reach the master only after every other node has been sent them and has
      answered; any other statement reaches the others only after the master has answered. */
  lemma MasterInItsPlace(cfg: Config, s: State, v: seq<Verdicts>, i: nat, j: nat)
    requires Sized(cfg, s) && s.context.Some? && |v| == cfg.n && Awaitable(cfg, s) && NoneLost(cfg, s, v)
    requires i < |Delivered(cfg, s, v)| && j < |Delivered(cfg, s, v)|
    requires Delivered(cfg, s, v)[i].node == MasterNode(cfg, s) != Delivered(cfg, s, v)[j].node
    ensures IsCommit(s.context.value.stmt) ==> j < i
    ensures !IsCommit(s.context.value.stmt) && !cfg.singleChild ==> i < j
  {
    hide Valid, Withheld, Gets, Round;
    var m := MasterNode(cfg, s);
    var q := TheQuery(s);
    RoundOnce(GetMask(cfg, s, 1, m), q, v, m);
    RoundOnce(GetMask(cfg, s, -1, m), q, v, m);
  }
}
