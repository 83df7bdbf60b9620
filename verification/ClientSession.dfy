/** The session as the child process keeps it: fields updated in place, nodes handled in loops. Every
    method does to the fields what its counterpart in SessionModel does to the session's state. */
module ClientSession {
  import opened Options
  import opened Statements
  import opened Postgres
  import opened SessionModel
  import opened CommitOrder
  import opened Delivery
  import Voting

  /** Chosen, from index i on. */
  function ChosenFrom(mask: seq<bool>, i: nat): (r: seq<nat>)
    requires i <= |mask|
    ensures forall a :: 0 <= a < |r| ==> r[a] < |mask|
    decreases |mask| - i
  {
    if i == |mask| then [] else (if mask[i] then [i] else []) + ChosenFrom(mask, i + 1)
  }

  lemma {:induction false} ChosenSplits(mask: seq<bool>, i: nat)
    requires i <= |mask|
    ensures Chosen(mask) == Chosen(mask[..i]) + ChosenFrom(mask, i)
    decreases |mask| - i
  {
    if i == |mask| {
      assert mask[..i] == mask;
    } else {
      ChosenSplits(mask, i + 1);
      assert mask[..i + 1][..i] == mask[..i];
    }
  }

  lemma ChosenAll(mask: seq<bool>)
    ensures Chosen(mask) == ChosenFrom(mask, 0)
  {
    ChosenSplits(mask, 0);
    assert mask[..0] == [];
  }

  /** What is left for a loop to do when it has come to node i. */
  function BatchFrom(action: Action, conn: seq<Conn>, mask: seq<bool>, i: nat, v: seq<Verdicts>): (b: Batch)
    requires i <= |mask| == |conn| == |v|
    ensures |b.conn| == |conn|
  {
    RunBatch(action, conn, ChosenFrom(mask, i), v)
  }

  /** The loop has done its part up to node i. */
  ghost predicate Underway(action: Action, conn0: seq<Conn>, log0: seq<Event>, mask: seq<bool>, v: seq<Verdicts>,
                           i: nat, conn: seq<Conn>, log: seq<Event>)
    requires i <= |mask| == |conn0| == |conn| == |v|
  {
    var all := BatchFrom(action, conn0, mask, 0, v);
    var rest := BatchFrom(action, conn, mask, i, v);
    all.conn == rest.conn && all.ok == rest.ok && log0 + all.log == log + rest.log &&
    forall k :: i <= k < |conn| ==> conn[k] == conn0[k]
  }

  /** The loop is through, or has stopped at a failure. */
  ghost predicate Through(action: Action, conn0: seq<Conn>, log0: seq<Event>, mask: seq<bool>, v: seq<Verdicts>,
                          ok: bool, conn: seq<Conn>, log: seq<Event>)
    requires |mask| == |conn0| == |v|
  {
    var all := BatchFrom(action, conn0, mask, 0, v);
    all.conn == conn && all.ok == ok && log0 + all.log == log
  }

  lemma Begins(action: Action, conn: seq<Conn>, log: seq<Event>, mask: seq<bool>, v: seq<Verdicts>)
    requires |mask| == |conn| == |v|
    ensures Underway(action, conn, log, mask, v, 0, conn, log)
  {
  }

  lemma Skips(action: Action, conn0: seq<Conn>, log0: seq<Event>, mask: seq<bool>, v: seq<Verdicts>,
              i: nat, conn: seq<Conn>, log: seq<Event>)
    requires i < |mask| == |conn0| == |conn| == |v| && !mask[i] && Underway(action, conn0, log0, mask, v, i, conn, log)
    ensures Underway(action, conn0, log0, mask, v, i + 1, conn, log)
  {
    assert [] + ChosenFrom(mask, i + 1) == ChosenFrom(mask, i + 1);
  }

  lemma Acts(action: Action, conn0: seq<Conn>, log0: seq<Event>, mask: seq<bool>, v: seq<Verdicts>,
             i: nat, conn: seq<Conn>, log: seq<Event>)
    requires i < |mask| == |conn0| == |conn| == |v| && mask[i] && Underway(action, conn0, log0, mask, v, i, conn, log)
    ensures var x := Act(action, conn[i], v[i]);
            if x.ok then Underway(action, conn0, log0, mask, v, i + 1, conn[i := x.c], log + [Sent(i, QueryOf(action)), Waited(i)])
            else BatchFrom(action, conn0, mask, 0, v) == Batch(conn[i := x.c], BatchFrom(action, conn0, mask, 0, v).log, false) &&
                 log0 + BatchFrom(action, conn0, mask, 0, v).log == log + Attempt(action, conn[i], i)
  {
    hide Act;
    var x := Act(action, conn[i], v[i]);
    var q := QueryOf(action);
    assert ([i] + ChosenFrom(mask, i + 1))[1..] == ChosenFrom(mask, i + 1);
    if x.ok {
      var rest := BatchFrom(action, conn[i := x.c], mask, i + 1, v);
      assert log + ([Sent(i, q), Waited(i)] + rest.log) == log + [Sent(i, q), Waited(i)] + rest.log;
    }
  }

  lemma Ends(action: Action, conn0: seq<Conn>, log0: seq<Event>, mask: seq<bool>, v: seq<Verdicts>,
             conn: seq<Conn>, log: seq<Event>)
    requires |mask| == |conn0| == |conn| == |v| && Underway(action, conn0, log0, mask, v, |mask|, conn, log)
    ensures Through(action, conn0, log0, mask, v, true, conn, log)
  {
    assert log + [] == log;
  }

  lemma Untouched(action: Action, conn0: seq<Conn>, log0: seq<Event>, mask: seq<bool>, v: seq<Verdicts>,
                  i: nat, conn: seq<Conn>, log: seq<Event>)
    requires i < |mask| == |conn0| == |conn| == |v| && Underway(action, conn0, log0, mask, v, i, conn, log)
    ensures conn[i] == conn0[i]
  {
  }

  predicate MayOpen(c: Conn) { !c.internal && c.tstate == Idle }

  lemma BeginMaskAt(cfg: Config, s: State, i: nat)
    requires Sized(cfg, s) && i < cfg.n
    ensures BeginMask(cfg, s)[i] <==> Target(cfg, s.context, s.inProgress, i) && MayOpen(s.conn[i])
  {
  }

  lemma NothingOpenedYet(conn: seq<Conn>)
    ensures NoneOpened(conn, conn)
  {
  }

  lemma OpenedByOne(conn0: seq<Conn>, conn: seq<Conn>, i: nat, v: Verdicts)
    requires i < |conn| == |conn0| && conn[i] == conn0[i] && MayOpen(conn0[i])
    ensures var x := Act(OpenInternal, conn0[i], v);
            NoneOpened(conn0, conn[i := x.c]) <==> NoneOpened(conn0, conn) && !x.ok
  {
    var x := Act(OpenInternal, conn0[i], v);
    assert x.c.internal == x.ok;
    var r := conn[i := x.c];
    assert forall k :: 0 <= k < |conn| && k != i ==> r[k] == conn[k];
    hide Act;
  }

  predicate MustClose(c: Conn) { c.tstate != Idle && c.internal }

  lemma CommitMaskAt(cfg: Config, s: State, i: nat)
    requires Sized(cfg, s) && i < cfg.n
    ensures CommitMask(cfg, s)[i] <==> Target(cfg, s.context, s.inProgress, i) && i != MasterNode(cfg, s) && MustClose(s.conn[i])
  {
  }

  lemma ErrorMaskAt(cfg: Config, s: State, skip: int, i: nat)
    requires Sized(cfg, s) && i < cfg.n
    ensures ErrorMask(cfg, s, skip)[i] <==> Target(cfg, s.context, s.inProgress, i) && i != skip
  {
  }

  lemma StandbyMaskAt(cfg: Config, s: State, i: nat)
    requires Sized(cfg, s) && i < cfg.n
    ensures StandbyMask(cfg, s)[i] <==> s.conn[i].tstate == InBlock && cfg.up[i] && i != cfg.MainNode()
  {
  }

  lemma RunOnIs(cfg: Config, s: State, action: Action, mask: seq<bool>, v: seq<Verdicts>)
    requires Sized(cfg, s) && |mask| == |v| == cfg.n
    ensures var o := RunOn(cfg, s, action, mask, v);
            o.s == s.(conn := o.s.conn, log := o.s.log) &&
            Through(action, s.conn, s.log, mask, v, o.status == Continue, o.s.conn, o.s.log)
  {
    ChosenAll(mask);
  }

  lemma AfterLoop(cfg: Config, s: State, action: Action, mask: seq<bool>, v: seq<Verdicts>, ok: bool, r: State)
    requires Sized(cfg, s) && |mask| == |v| == cfg.n && r == s.(conn := r.conn, log := r.log)
    requires Through(action, s.conn, s.log, mask, v, ok, r.conn, r.log)
    ensures RunOn(cfg, s, action, mask, v) == Outcome(r, if ok then Continue else End)
  {
    RunOnIs(cfg, s, action, mask, v);
    hide RunOn, BatchFrom;
  }

  lemma BatchOne(action: Action, conn: seq<Conn>, m: nat, v: seq<Verdicts>)
    requires |v| == |conn| && m < |conn|
    ensures var x := Act(action, conn[m], v[m]);
            RunBatch(action, conn, [m], v) ==
            Batch(conn[m := x.c], if x.ok then [Sent(m, QueryOf(action)), Waited(m)] else Attempt(action, conn[m], m), x.ok)
  {
    hide Act, Attempt;
    var x := Act(action, conn[m], v[m]);
    if x.ok {
      assert [m][1..] == [];
      assert RunBatch(action, conn[m := x.c], [], v) == Batch(conn[m := x.c], [], true);
      assert [Sent(m, QueryOf(action)), Waited(m)] + [] == [Sent(m, QueryOf(action)), Waited(m)];
    }
  }

  /** A loop for one node only is that node's turn. */
  lemma RunOnOne(cfg: Config, s: State, action: Action, m: nat, v: seq<Verdicts>)
    requires Sized(cfg, s) && |v| == cfg.n && m < cfg.n
    ensures var x := Act(action, s.conn[m], v[m]);
            var o := RunOn(cfg, s, action, Only(cfg, m), v);
            o.s == s.(conn := s.conn[m := x.c], log := o.s.log) && (o.status == Continue <==> x.ok) &&
            o.s.log == s.log + if x.ok then [Sent(m, QueryOf(action)), Waited(m)] else Attempt(action, s.conn[m], m)
  {
    OnlyOne(cfg.n, m);
    assert Only(cfg, m) == seq(cfg.n, k => k == m);
    hide Act, RunBatch, Chosen, Only, Attempt;
    BatchOne(action, s.conn, m, v);
  }

  lemma FollowSame(cfg: Config, s: State, t: State, stmt: Stmt, where: seq<bool>)
    requires Sized(cfg, s) && Sized(cfg, t) && |where| == cfg.n && t.sent == s.sent
    ensures FollowPrepare(cfg, s, stmt, where) == FollowPrepare(cfg, t, stmt, where)
  {
    hide AllLive, FindPrepared;
  }

  /** Node k after the sending loop of pool_send_and_wait, and whether it is still a target. */
  ghost predicate SentTo(cfg: Config, s: State, sendType: int, node: nat, v: seq<Verdicts>, k: nat, c: Conn, where: bool)
    requires Sized(cfg, s) && s.context.Some? && |v| == cfg.n && k < cfg.n
  {
    c == (if Receives(cfg, s, sendType, node, k) then SendQuery(s.conn[k], TheQuery(s), v[k].main) else s.conn[k]) &&
    (where <==> s.context.value.where[k] && !(Valid(cfg, s, k) && Selected(sendType, node, k) && Withheld(cfg, s, k)))
  }

  function ReceiveMask(cfg: Config, s: State, sendType: int, node: nat): (m: seq<bool>)
    requires Sized(cfg, s) && s.context.Some?
    ensures |m| == cfg.n && Chosen(m) == Receivers(cfg, s, sendType, node)
  {
    seq(cfg.n, k requires 0 <= k < cfg.n => Receives(cfg, s, sendType, node, k))
  }

  lemma SendAllIs(cfg: Config, s: State, sendType: int, node: nat, v: seq<Verdicts>, r: State)
    requires Sized(cfg, s) && s.context.Some? && |v| == cfg.n && r.context.Some?
    requires r == s.(conn := r.conn, context := r.context, log := r.log)
    requires r.context.value == s.context.value.(where := r.context.value.where)
    requires SentUpTo(cfg, s, sendType, node, v, cfg.n, r.conn, r.context.value.where)
    requires r.log == s.log + Sends(Receivers(cfg, s, sendType, node), TheQuery(s))
    ensures r == SendAll(cfg, s, sendType, node, v)
  {
    hide SendQuery, Receives, Receivers, Valid, Withheld;
    var t := SendAll(cfg, s, sendType, node, v);
    assert r.conn == t.conn && r.context.value.where == t.context.value.where;
  }

  /** The sending loop has dealt with the nodes below i. */
  ghost predicate SentUpTo(cfg: Config, s: State, sendType: int, node: nat, v: seq<Verdicts>, i: nat, conn: seq<Conn>, where: seq<bool>)
    requires Sized(cfg, s) && s.context.Some? && |v| == cfg.n
  {
    |conn| == |where| == cfg.n &&
    (forall k :: 0 <= k < i && k < cfg.n ==> SentTo(cfg, s, sendType, node, v, k, conn[k], where[k])) &&
    forall k :: i <= k < cfg.n ==> conn[k] == s.conn[k] && where[k] == s.context.value.where[k]
  }

  lemma SentUpToNext(cfg: Config, s: State, sendType: int, node: nat, v: seq<Verdicts>, i: nat,
                     conn: seq<Conn>, where: seq<bool>, c: Conn, stays: bool)
    requires Sized(cfg, s) && s.context.Some? && |v| == cfg.n && i < cfg.n
    requires SentUpTo(cfg, s, sendType, node, v, i, conn, where) && SentTo(cfg, s, sendType, node, v, i, c, stays)
    ensures SentUpTo(cfg, s, sendType, node, v, i + 1, conn[i := c], where[i := stays])
  {
    hide SentTo;
  }

  lemma SentUpToAt(cfg: Config, s: State, sendType: int, node: nat, v: seq<Verdicts>, i: nat, conn: seq<Conn>, where: seq<bool>)
    requires Sized(cfg, s) && s.context.Some? && |v| == cfg.n && SentUpTo(cfg, s, sendType, node, v, i, conn, where)
    ensures |conn| == |where| == cfg.n
    ensures i < cfg.n ==> conn[i] == s.conn[i] && where[i] == s.context.value.where[i]
    ensures i < cfg.n ==> conn[i := conn[i]] == conn && where[i := where[i]] == where
  {
    hide SentTo;
  }

  /** One round of the sending loop. */
  lemma SentToIs(cfg: Config, s: State, sendType: int, node: nat, v: seq<Verdicts>, i: nat)
    requires Sized(cfg, s) && s.context.Some? && |v| == cfg.n && i < cfg.n
    ensures var considered := Target(cfg, s.context, s.inProgress, i) && Selected(sendType, node, i);
            var held := Holds(cfg.mode, s.context.value.stmt, s.conn[i].tstate, i == MasterNode(cfg, s), s.reset);
            (ReceiveMask(cfg, s, sendType, node)[i] <==> considered && !held) &&
            SentTo(cfg, s, sendType, node, v, i,
                   if considered && !held then SendQuery(s.conn[i], TheQuery(s), v[i].main) else s.conn[i],
                   s.context.value.where[i] && !(considered && held))
  {
  }

  /** COMMIT and ROLLBACK are kept from the node. */
  predicate Holds(mode: Mode, stmt: Stmt, state: TState, master: bool, reset: bool) {
    IsCommit(stmt) && state == Idle && ((mode == MasterSlave && !master) || reset)
  }

  lemma {:induction false} OneMoreChosen(mask: seq<bool>, i: nat, q: Query)
    requires i < |mask|
    ensures Sends(Chosen(mask[..i + 1]), q) == Sends(Chosen(mask[..i]), q) + if mask[i] then [Sent(i, q)] else []
  {
    assert mask[..i + 1][..i] == mask[..i];
  }

  /** The waiting loop has come to node i without a loss. */
  ghost predicate WaitedUpTo(mask: seq<bool>, v: seq<Verdicts>, i: nat, log0: seq<Event>, log: seq<Event>)
    requires |mask| == |v| && i <= |mask|
  {
    log0 + Waits(ChosenFrom(mask, 0), v) == log + Waits(ChosenFrom(mask, i), v) && !LostIn(mask, v, i)
  }

  lemma WaitStep(mask: seq<bool>, v: seq<Verdicts>, i: nat, log0: seq<Event>, log: seq<Event>)
    requires i < |mask| == |v| && WaitedUpTo(mask, v, i, log0, log)
    ensures !mask[i] ==> WaitedUpTo(mask, v, i + 1, log0, log)
    ensures mask[i] && !v[i].main.Lost? ==> WaitedUpTo(mask, v, i + 1, log0, log + [Waited(i)])
    ensures mask[i] && v[i].main.Lost? ==>
              log + [Waited(i)] == log0 + Waits(ChosenFrom(mask, 0), v) && LostIn(mask, v, |mask|)
  {
    WaitsFrom(mask, v, i);
    LostStep(mask, v, i);
    hide ChosenFrom, Waits, LostIn;
    var rest := Waits(ChosenFrom(mask, i + 1), v);
    if mask[i] && !v[i].main.Lost? {
      Regroup(log, [Waited(i)], rest);
    }
  }

  lemma WaitsFrom(mask: seq<bool>, v: seq<Verdicts>, i: nat)
    requires i < |mask| == |v|
    ensures Waits(ChosenFrom(mask, i), v) ==
            if !mask[i] then Waits(ChosenFrom(mask, i + 1), v)
            else if v[i].main.Lost? then [Waited(i)] else [Waited(i)] + Waits(ChosenFrom(mask, i + 1), v)
  {
    if mask[i] {
      assert ([i] + ChosenFrom(mask, i + 1))[1..] == ChosenFrom(mask, i + 1);
    } else {
      assert [] + ChosenFrom(mask, i + 1) == ChosenFrom(mask, i + 1);
    }
  }

  lemma LostStep(mask: seq<bool>, v: seq<Verdicts>, i: nat)
    requires i < |mask| == |v|
    ensures LostIn(mask, v, i + 1) <==> LostIn(mask, v, i) || (mask[i] && v[i].main.Lost?)
    ensures LostIn(mask, v, i + 1) ==> LostIn(mask, v, |mask|)
  {
  }

  lemma WaitBegins(mask: seq<bool>, v: seq<Verdicts>, log: seq<Event>)
    requires |mask| == |v|
    ensures WaitedUpTo(mask, v, 0, log, log)
  {
    hide Waits, ChosenFrom;
  }

  lemma WaitedAll(mask: seq<bool>, v: seq<Verdicts>, log0: seq<Event>, log: seq<Event>)
    requires |mask| == |v| && WaitedUpTo(mask, v, |mask|, log0, log)
    ensures log == log0 + Waits(ChosenFrom(mask, 0), v) && !LostIn(mask, v, |mask|)
  {
    assert log + [] == log;
  }

  ghost predicate LostIn(mask: seq<bool>, v: seq<Verdicts>, i: nat)
    requires |mask| == |v|
  {
    exists k: nat :: k < i && k < |mask| && mask[k] && v[k].main.Lost?
  }

  lemma LostIsLost(mask: seq<bool>, v: seq<Verdicts>)
    requires |mask| == |v|
    ensures forall a :: 0 <= a < |Chosen(mask)| ==> Chosen(mask)[a] < |v|
    ensures LostIn(mask, v, |mask|) <==> exists a :: 0 <= a < |Chosen(mask)| && v[Chosen(mask)[a]].main.Lost?
  {
    ChosenLost(mask, v);
    hide Chosen;
  }

  lemma SendAndWaitIs(cfg: Config, s: State, sendType: int, node: nat, v: seq<Verdicts>, r: State, status: Status)
    requires Sized(cfg, s) && s.context.Some? && |v| == cfg.n && !Stalls(cfg, s, sendType, node)
    requires r == SendAll(cfg, s, sendType, node, v).(log := r.log)
    requires r.log == SendAll(cfg, s, sendType, node, v).log + Waits(Chosen(ReceiveMask(cfg, s, sendType, node)), v)
    requires status == End <==> LostIn(ReceiveMask(cfg, s, sendType, node), v, cfg.n)
    ensures SendAndWait(cfg, s, sendType, node, v) == Outcome(r, status)
  {
    LostIsLost(ReceiveMask(cfg, s, sendType, node), v);
    hide SendAll, Receivers, Waits, LostIn, Chosen, Receives, Stalls;
  }

  lemma StalledIs(cfg: Config, s: State, sendType: int, node: nat, v: seq<Verdicts>)
    requires Sized(cfg, s) && s.context.Some? && |v| == cfg.n && Stalls(cfg, s, sendType, node)
    ensures var r := SendAll(cfg, s, sendType, node, v);
            var m := cfg.realMaster;
            r.conn[m] == s.conn[m] &&
            SendAndWait(cfg, s, sendType, node, v) ==
            Outcome(r.(log := r.log + [Waited(m)]), if v[m].main.Lost? || r.conn[m].queue == [] then End else Continue)
  {
    hide Receivers, Waits, SendQuery;
  }

  lemma AnsweredIf(c: Conn, q: Query, a: Answer)
    requires !a.Lost?
    ensures SendQuery(c, q, a).queue != []
  {
    RespondShape(c.remote, q, a);
    hide Respond;
  }

  lemma SentFields(cfg: Config, s: State, sendType: int, node: nat, v: seq<Verdicts>, i: nat)
    requires Sized(cfg, s) && s.context.Some? && |v| == cfg.n && i < cfg.n
    ensures var t := SendAll(cfg, s, sendType, node, v);
            t.conn[i].tstate == s.conn[i].tstate && t.context.Some? && |t.context.value.where| == cfg.n &&
            (Receives(cfg, s, sendType, node, i) && !v[i].main.Lost? ==> t.conn[i].queue != []) &&
            (t.context.value.where[i] <==>
               s.context.value.where[i] && !(Valid(cfg, s, i) && Selected(sendType, node, i) && Withheld(cfg, s, i)))
  {
    SendKeeps(s.conn[i], TheQuery(s), v[i].main);
    if !v[i].main.Lost? { AnsweredIf(s.conn[i], TheQuery(s), v[i].main); }
    hide SendQuery, Valid, Withheld, Receives, Receivers, TheQuery;
  }

  /** After the sending loop, the nodes to wait for can be told by what is left. */
  lemma WaitMaskAt(cfg: Config, s: State, sendType: int, node: nat, v: seq<Verdicts>, i: nat)
    requires Sized(cfg, s) && s.context.Some? && s.inProgress && |v| == cfg.n && i < cfg.n
    ensures var t := SendAll(cfg, s, sendType, node, v);
            var waits := Target(cfg, t.context, true, i) && Selected(sendType, node, i) &&
                         !Holds(cfg.mode, s.context.value.stmt, t.conn[i].tstate, i == MasterNode(cfg, s), false);
            if Stalls(cfg, s, sendType, node) then waits <==> i == cfg.realMaster
            else (waits <==> ReceiveMask(cfg, s, sendType, node)[i]) && (waits && !v[i].main.Lost? ==> t.conn[i].queue != [])
  {
    SentFields(cfg, s, sendType, node, v, i);
    hide SendAll, IsCommit;
  }

  lemma SentMaster(cfg: Config, s: State, sendType: int, node: nat, v: seq<Verdicts>)
    requires Sized(cfg, s) && s.context.Some? && |v| == cfg.n
    ensures var t := SendAll(cfg, s, sendType, node, v);
            Sized(cfg, t) && MasterNode(cfg, t) == MasterNode(cfg, s) && t.context.Some? && t.context.value.stmt == s.context.value.stmt
  {
    hide SendAll;
  }

  lemma {:induction false} RemovedAt(sent: seq<Prepared>, name: string, i: nat)
    requires i <= |sent| && (forall k :: 0 <= k < i ==> sent[k].name != name) && (i < |sent| ==> sent[i].name == name)
    ensures RemovePrepared(sent, name) == if i < |sent| then sent[..i] + sent[i + 1..] else sent
  {
    if i > 0 {
      var rest := sent[1..];
      RemovedAt(rest, name, i - 1);
      assert sent == [sent[0]] + rest;
      if i < |sent| { assert sent[..i] + sent[i + 1..] == [sent[0]] + (rest[..i - 1] + rest[i..]); }
    }
  }

  /** The waiting loop has come to node i. */
  ghost predicate Awaiting(cfg: Config, s: State, sendType: int, node: nat, v: seq<Verdicts>, i: nat, log: seq<Event>)
    requires Sized(cfg, s) && s.context.Some? && |v| == cfg.n && i <= cfg.n
  {
    var t, m := SendAll(cfg, s, sendType, node, v), cfg.realMaster;
    if !Stalls(cfg, s, sendType, node) then WaitedUpTo(ReceiveMask(cfg, s, sendType, node), v, i, t.log, log)
    else if i <= m then log == t.log
    else log == t.log + [Waited(m)] && !v[m].main.Lost? && t.conn[m].queue != []
  }

  lemma AwaitBegins(cfg: Config, s: State, sendType: int, node: nat, v: seq<Verdicts>)
    requires Sized(cfg, s) && s.context.Some? && |v| == cfg.n
    ensures Awaiting(cfg, s, sendType, node, v, 0, SendAll(cfg, s, sendType, node, v).log)
  {
    hide SendAll, ReceiveMask, Stalls, WaitedUpTo;
    WaitBegins(ReceiveMask(cfg, s, sendType, node), v, SendAll(cfg, s, sendType, node, v).log);
  }

  lemma AwaitNext(cfg: Config, s: State, sendType: int, node: nat, v: seq<Verdicts>, i: nat, log: seq<Event>)
    requires Sized(cfg, s) && s.context.Some? && s.inProgress && |v| == cfg.n && i < cfg.n
    requires Awaiting(cfg, s, sendType, node, v, i, log)
    ensures var t := SendAll(cfg, s, sendType, node, v);
            var waits := Target(cfg, t.context, true, i) && Selected(sendType, node, i) &&
                         !Holds(cfg.mode, s.context.value.stmt, t.conn[i].tstate, i == MasterNode(cfg, s), false);
            var stops := v[i].main.Lost? || t.conn[i].queue == [];
            if !waits then Awaiting(cfg, s, sendType, node, v, i + 1, log)
            else if !stops then Awaiting(cfg, s, sendType, node, v, i + 1, log + [Waited(i)])
            else SendAndWait(cfg, s, sendType, node, v) == Outcome(t.(log := log + [Waited(i)]), End)
  {
    var t, mask := SendAll(cfg, s, sendType, node, v), ReceiveMask(cfg, s, sendType, node);
    WaitMaskAt(cfg, s, sendType, node, v, i);
    hide SendAll, ReceiveMask, Stalls, WaitedUpTo, LostIn, SendAndWait, Target, Holds, Waits;
    if Stalls(cfg, s, sendType, node) {
      StalledIs(cfg, s, sendType, node, v);
    } else {
      WaitStep(mask, v, i, t.log, log);
      if mask[i] && v[i].main.Lost? {
        ChosenAll(mask);
        SendAndWaitIs(cfg, s, sendType, node, v, t.(log := log + [Waited(i)]), End);
      }
    }
  }

  lemma AwaitEnds(cfg: Config, s: State, sendType: int, node: nat, v: seq<Verdicts>, log: seq<Event>)
    requires Sized(cfg, s) && s.context.Some? && |v| == cfg.n && Awaiting(cfg, s, sendType, node, v, cfg.n, log)
    ensures SendAndWait(cfg, s, sendType, node, v) == Outcome(SendAll(cfg, s, sendType, node, v).(log := log), Continue)
  {
    var t, mask := SendAll(cfg, s, sendType, node, v), ReceiveMask(cfg, s, sendType, node);
    hide SendAll, ReceiveMask, Stalls, WaitedUpTo, LostIn, SendAndWait, Waits;
    if Stalls(cfg, s, sendType, node) {
      StalledIs(cfg, s, sendType, node, v);
    } else {
      WaitedAll(mask, v, t.log, log);
      ChosenAll(mask);
      SendAndWaitIs(cfg, s, sendType, node, v, t.(log := log), Continue);
    }
  }

  lemma StillQuery(cfg: Config, s: State, noBalance: bool, asked: Isolation)
    requires Sized(cfg, s) && s.context.Some?
    ensures var r := WhereToSend(cfg, s, noBalance, asked);
            r.inProgress == s.inProgress && r.context.value.stmt == s.context.value.stmt && r.reset == s.reset
  {
    hide Route, FollowPrepare, FirstTarget;
  }

  /** r is s up to what of the messages at hand has been read. */
  ghost predicate UpToUnread(s: State, r: State) {
    r == s.(conn := r.conn) && |r.conn| == |s.conn| &&
    forall k :: 0 <= k < |s.conn| ==> r.conn[k] == s.conn[k].(queue := r.conn[k].queue)
  }

  lemma SameUpToUnread(s: State)
    ensures UpToUnread(s, s)
  {
  }

  /** The kind byte of a message. */
  function Code(k: Kind): (c: int)
    ensures 0 < c < Voting.KIND_VALUES
  {
    match k
    case KRow => 68
    case KNotice => 78
    case KComplete => 67
    case KError => 69
    case KEmpty => 73
    case KReady => 90
  }

  /** Node k after its kind byte has been asked for, and what was read. */
  ghost predicate KindRead(valid: bool, c0: Conn, c: Conn, kind: int) {
    if valid then KindReadable(c0) && c == ReadKind(c0) && kind == Code(KindOf(c0.queue[0].msg)) else c == c0 && kind == 0
  }

  /** The reading loop has come to node i. */
  ghost predicate KindsReadUpTo(cfg: Config, s: State, i: nat, conn: seq<Conn>, kinds: seq<int>)
    requires Sized(cfg, s)
  {
    |conn| == |kinds| == cfg.n &&
    (forall k :: 0 <= k < i && k < cfg.n ==> KindRead(Valid(cfg, s, k), s.conn[k], conn[k], kinds[k])) &&
    forall k :: i <= k < cfg.n ==> conn[k] == s.conn[k]
  }

  lemma KindsUpToUnread(cfg: Config, s: State, i: nat, conn: seq<Conn>, kinds: seq<int>)
    requires Sized(cfg, s) && KindsReadUpTo(cfg, s, i, conn, kinds)
    ensures UpToUnread(s, s.(conn := conn))
  {
    hide Valid, KindReadable, Code;
  }

  lemma KindsReadAt(cfg: Config, s: State, i: nat, conn: seq<Conn>, kinds: seq<int>)
    requires Sized(cfg, s) && i < cfg.n && KindsReadUpTo(cfg, s, i, conn, kinds)
    ensures conn[i] == s.conn[i]
  {
    hide Valid;
  }

  lemma KindsReadNext(cfg: Config, s: State, i: nat, conn: seq<Conn>, kinds: seq<int>, c: Conn, kind: int)
    requires Sized(cfg, s) && i < cfg.n && KindsReadUpTo(cfg, s, i, conn, kinds) && KindRead(Valid(cfg, s, i), s.conn[i], c, kind)
    ensures conn[i] == s.conn[i] && KindsReadUpTo(cfg, s, i + 1, conn[i := c], kinds[i := kind])
  {
    hide Valid;
  }

  /** No dissent means that all nodes that took part are of the master's kind. */
  lemma NoDissentIff(kinds: seq<int>, m: nat, decided: int)
    requires m < |kinds| && kinds[m] != 0 && Voting.Believed(kinds, m, decided)
    ensures Voting.Dissenters(kinds, decided) == [] <==> forall k :: 0 <= k < |kinds| && kinds[k] != 0 ==> kinds[k] == kinds[m]
  {
    Voting.DissentersAre(kinds, decided);
    var d := Voting.Dissenters(kinds, decided);
    hide Voting.Dissenters, Voting.Believed;
    if d == [] {
      forall k | 0 <= k < |kinds| && kinds[k] != 0 ensures kinds[k] == kinds[m] {
        assert k !in d && m !in d;
      }
    } else {
      assert d[0] in d;
      if forall k :: 0 <= k < |kinds| && kinds[k] != 0 ==> kinds[k] == kinds[m] {
        DecidedByAll(kinds, m, decided);
      }
    }
  }

  lemma AgreeIff(cfg: Config, s: State, conn: seq<Conn>, kinds: seq<int>)
    requires Sized(cfg, s) && |conn| == |kinds| == cfg.n && Valid(cfg, s, MasterNode(cfg, s))
    requires forall k :: 0 <= k < cfg.n ==> KindRead(Valid(cfg, s, k), s.conn[k], conn[k], kinds[k])
    ensures Agree(cfg, s) <==> forall k :: 0 <= k < cfg.n && kinds[k] != 0 ==> kinds[k] == kinds[MasterNode(cfg, s)]
  {
    var m := MasterNode(cfg, s);
    hide Valid, Code, ReadKind;
    forall k | 0 <= k < cfg.n && Valid(cfg, s, k)
      ensures kinds[k] != 0 && KindReadable(s.conn[k])
      ensures kinds[k] == kinds[m] <==> KindOf(s.conn[k].queue[0].msg) == KindOf(s.conn[m].queue[0].msg)
    {
      if kinds[k] == kinds[m] { CodesDiffer(KindOf(s.conn[k].queue[0].msg), KindOf(s.conn[m].queue[0].msg)); }
    }
  }

  lemma CodesDiffer(j: Kind, k: Kind)
    requires Code(j) == Code(k)
    ensures j == k
  {
  }

  /** When all nodes that took part agree with the master, that is what is believed. */
  lemma DecidedByAll(kinds: seq<int>, m: nat, decided: int)
    requires m < |kinds| && kinds[m] != 0 && Voting.Believed(kinds, m, decided)
    requires forall k :: 0 <= k < |kinds| && kinds[k] != 0 ==> kinds[k] == kinds[m]
    ensures decided == kinds[m]
  {
    assert kinds[m] in kinds && Voting.Unanimous(kinds, kinds[m]);
  }

  lemma ReadKindsIs(cfg: Config, s: State, conn: seq<Conn>, kinds: seq<int>)
    requires Sized(cfg, s) && KindsReadUpTo(cfg, s, cfg.n, conn, kinds)
    ensures (forall i :: 0 <= i < cfg.n && Valid(cfg, s, i) ==> KindReadable(s.conn[i])) && ReadKinds(cfg, s) == s.(conn := conn)
  {
    hide Valid, ReadKind;
    assert forall i :: 0 <= i < cfg.n && Valid(cfg, s, i) ==> KindReadable(s.conn[i]);
    assert ReadKinds(cfg, s).conn == conn;
  }

  lemma KindsAreKinds(cfg: Config, s: State, conn: seq<Conn>, kinds: seq<int>)
    requires Sized(cfg, s) && KindsReadUpTo(cfg, s, cfg.n, conn, kinds)
    ensures |kinds| == cfg.n && Voting.KindList(kinds)
    ensures forall i :: 0 <= i < cfg.n ==> (kinds[i] != 0 <==> Valid(cfg, s, i))
    ensures forall i :: 0 <= i < cfg.n && Valid(cfg, s, i) ==> KindReadable(s.conn[i])
  {
    hide Valid, ReadKind;
  }

  lemma InvalidDisagrees(cfg: Config, s: State)
    requires Sized(cfg, s) && !Valid(cfg, s, MasterNode(cfg, s))
    ensures !Agree(cfg, s)
  {
  }

  lemma DisagreeUnread(cfg: Config, s: State)
    requires Sized(cfg, s) && exists i :: 0 <= i < cfg.n && Valid(cfg, s, i) && !KindReadable(s.conn[i])
    ensures !Agree(cfg, s)
  {
  }

  lemma AgreedHead(cfg: Config, s: State)
    requires Sized(cfg, s) && Agree(cfg, s)
    ensures s.conn[MasterNode(cfg, s)].queue != []
  {
  }

  lemma AgreeByKinds(cfg: Config, s: State, conn: seq<Conn>, kinds: seq<int>)
    requires Sized(cfg, s) && KindsReadUpTo(cfg, s, cfg.n, conn, kinds) && Valid(cfg, s, MasterNode(cfg, s))
    ensures |kinds| == cfg.n
    ensures Agree(cfg, s) <==> forall k :: 0 <= k < |kinds| && kinds[k] != 0 ==> kinds[k] == kinds[MasterNode(cfg, s)]
  {
    forall k | 0 <= k < cfg.n ensures KindRead(Valid(cfg, s, k), s.conn[k], conn[k], kinds[k]) { }
    hide KindsReadUpTo, Valid, Code;
    AgreeIff(cfg, s, conn, kinds);
  }

  /** A loop that turns xs0 into xs1 element by element has come to index i. */
  ghost predicate TurnedUpTo<T>(xs0: seq<T>, xs1: seq<T>, i: nat, xs: seq<T>) {
    |xs0| == |xs1| == |xs| && (forall k :: 0 <= k < i && k < |xs| ==> xs[k] == xs1[k]) && forall k :: i <= k < |xs| ==> xs[k] == xs0[k]
  }

  lemma TurnNext<T>(xs0: seq<T>, xs1: seq<T>, i: nat, xs: seq<T>)
    requires TurnedUpTo(xs0, xs1, i, xs) && i < |xs|
    ensures xs[i] == xs0[i] && TurnedUpTo(xs0, xs1, i + 1, xs[i := xs1[i]])
    ensures xs0[i] == xs1[i] ==> TurnedUpTo(xs0, xs1, i + 1, xs)
  {
  }

  lemma Turned<T>(xs0: seq<T>, xs1: seq<T>, xs: seq<T>)
    requires TurnedUpTo(xs0, xs1, |xs|, xs)
    ensures xs == xs1
  {
  }

  lemma ReadBodiesAt(cfg: Config, s: State, i: nat)
    requires Sized(cfg, s) && AllOpened(cfg, s) && i < cfg.n
    ensures Target(cfg, s.context, s.inProgress, i) ==> BodyReadable(s.conn[i])
    ensures ReadBodies(cfg, s).conn[i] == if Target(cfg, s.context, s.inProgress, i) then ReadBody(s.conn[i]) else s.conn[i]
  {
  }

  lemma ReadKindsAt(cfg: Config, s: State, i: nat)
    requires Sized(cfg, s) && i < cfg.n && forall i :: 0 <= i < cfg.n && Valid(cfg, s, i) ==> KindReadable(s.conn[i])
    ensures Target(cfg, s.context, s.inProgress, i) ==> KindReadable(s.conn[i])
    ensures ReadKinds(cfg, s).conn[i] == if Target(cfg, s.context, s.inProgress, i) then ReadKind(s.conn[i]) else s.conn[i]
  {
  }

  lemma MarkStartedAt(cfg: Config, s: State, starts: bool, i: nat)
    requires Sized(cfg, s) && i < cfg.n
    ensures MarkStarted(cfg, s, starts)[i] ==
            if starts && Target(cfg, s.context, s.inProgress, i) then s.conn[i].(tstate := InBlock) else s.conn[i]
  {
  }

  lemma RowCountsAt(cfg: Config, s: State, i: nat)
    requires Sized(cfg, s) && AllOpened(cfg, s) && i < cfg.n
    ensures Target(cfg, s.context, s.inProgress, i) ==> s.conn[i].queue != []
    ensures RowCounts(cfg, s)[i] == if Target(cfg, s.context, s.inProgress, i) then RowsOf(s.conn[i].queue[0]) else -1
  {
  }

  /** Some node below i has counted differently. */
  ghost predicate DifferUpTo(cfg: Config, s: State, counts: seq<int>, i: nat)
    requires Sized(cfg, s) && |counts| == cfg.n
  {
    exists k :: 0 <= k < i && k < cfg.n && Valid(cfg, s, k) && counts[k] != counts[MasterNode(cfg, s)]
  }

  lemma DifferNext(cfg: Config, s: State, counts: seq<int>, i: nat)
    requires Sized(cfg, s) && |counts| == cfg.n && i < cfg.n
    ensures DifferUpTo(cfg, s, counts, i + 1) <==>
            DifferUpTo(cfg, s, counts, i) || (Target(cfg, s.context, s.inProgress, i) && counts[i] != counts[MasterNode(cfg, s)])
  {
  }

  lemma CompleteIs(cfg: Config, s0: State, s: State, r: State)
    requires Sized(cfg, s0) && AllOpened(cfg, s0) && Valid(cfg, s0, MasterNode(cfg, s0))
    requires s == NoteComplete(cfg, s0) && AllOpened(cfg, s) && Sized(cfg, s)
    requires r == ReadBodies(cfg, s).(ntuples := RowCounts(cfg, s), mismatch := s.mismatch || DifferUpTo(cfg, s, RowCounts(cfg, s), cfg.n))
    ensures r == CommandComplete(cfg, s0)
  {
    hide NoteComplete, ReadBodies, RowCounts, AllOpened, Valid;
  }

  lemma SameOpened(cfg: Config, s: State, t: State)
    requires Sized(cfg, s) && AllOpened(cfg, s) && t == s.(ntuples := t.ntuples, mismatch := t.mismatch)
    ensures Sized(cfg, t) && AllOpened(cfg, t)
    ensures ReadBodies(cfg, t) == ReadBodies(cfg, s).(ntuples := t.ntuples, mismatch := t.mismatch)
  {
    assert ReadBodies(cfg, t).conn == ReadBodies(cfg, s).conn;
  }

  lemma StillOpened(cfg: Config, s: State)
    requires Sized(cfg, s) && AllOpened(cfg, s) && Valid(cfg, s, MasterNode(cfg, s))
    ensures var n := NoteComplete(cfg, s);
            AllOpened(cfg, n) && Valid(cfg, n, MasterNode(cfg, n))
  {
    hide ListAfter, IsStart;
  }

  lemma RaiseIs(cfg: Config, s: State, v: seq<Verdicts>)
    requires Sized(cfg, s) && |v| == cfg.n
    ensures var p := cfg.PrimaryNode();
            RaiseError(cfg, s, v) ==
            if s.context == None || !IsSelect(s.context.value.stmt) then Outcome(s, Continue)
            else if cfg.mode == MasterSlave && s.conn[p].tstate == InBlock && p != s.context.value.vmaster then
              RunOn(cfg, s.(context := Some(s.context.value.(where := s.context.value.where[p := true]))), Provoke, Only(cfg, p), v)
            else if cfg.mode == Replication && s.conn[cfg.realMaster].tstate == InBlock && !cfg.replicateSelect then
              var t := s.(context := Some(s.context.value.(where := AllLive(cfg, s.context.value.where))));
              RunOn(cfg, t, Provoke, ErrorMask(cfg, t, cfg.realMaster), v)
            else Outcome(s, Continue)
  {
    hide RunOn, IsSelect, ErrorMask, AllLive;
  }

  lemma AlikeAt(cfg: Config, s: State, i: nat)
    requires Sized(cfg, s) && i < cfg.n && !AlikeNode(cfg, s, i)
    ensures !AllReadyAlike(cfg, s)
  {
  }

  /** Node i does not stand in the way of reading the same message from all nodes. */
  predicate AlikeNode(cfg: Config, s: State, i: nat)
    requires Sized(cfg, s) && i < cfg.n
  {
    Valid(cfg, s, i) ==>
      MasterNode(cfg, s) <= i && BodyReadable(s.conn[i]) && BodyReadable(s.conn[MasterNode(cfg, s)]) &&
      s.conn[i].queue[0].msg == s.conn[MasterNode(cfg, s)].queue[0].msg
  }

  lemma AlikeAll(cfg: Config, s: State)
    requires Sized(cfg, s) && BodyReadable(s.conn[MasterNode(cfg, s)])
    requires forall i :: 0 <= i < cfg.n ==> AlikeNode(cfg, s, i)
    ensures AllReadyAlike(cfg, s)
  {
    forall i | 0 <= i < cfg.n && Valid(cfg, s, i)
      ensures MasterNode(cfg, s) <= i && BodyReadable(s.conn[i]) && s.conn[i].queue[0].msg == s.conn[MasterNode(cfg, s)].queue[0].msg
    {
      assert AlikeNode(cfg, s, i);
    }
    hide Valid;
  }

  /** Node i does not stand in the way of reading the same kind from all nodes. */
  predicate ShowNode(cfg: Config, s: State, i: nat)
    requires Sized(cfg, s) && i < cfg.n
  {
    Valid(cfg, s, i) ==>
      MasterNode(cfg, s) <= i && KindReadable(s.conn[i]) && KindReadable(s.conn[MasterNode(cfg, s)]) &&
      KindOf(s.conn[i].queue[0].msg) == KindOf(s.conn[MasterNode(cfg, s)].queue[0].msg)
  }

  lemma ShowAt(cfg: Config, s: State, i: nat)
    requires Sized(cfg, s) && i < cfg.n && !ShowNode(cfg, s, i)
    ensures !(MasterIsLowestValid(cfg, s) && Agree(cfg, s))
  {
  }

  lemma ShowAll(cfg: Config, s: State)
    requires Sized(cfg, s) && Valid(cfg, s, MasterNode(cfg, s)) && KindReadable(s.conn[MasterNode(cfg, s)])
    requires forall i :: 0 <= i < cfg.n ==> ShowNode(cfg, s, i)
    ensures MasterIsLowestValid(cfg, s) && Agree(cfg, s)
  {
    forall i | 0 <= i < cfg.n && Valid(cfg, s, i)
      ensures MasterNode(cfg, s) <= i && KindReadable(s.conn[i])
      ensures KindOf(s.conn[i].queue[0].msg) == KindOf(s.conn[MasterNode(cfg, s)].queue[0].msg)
    {
      assert ShowNode(cfg, s, i);
    }
    hide Valid;
  }

  lemma SkipIs(cfg: Config, s: State)
    requires Sized(cfg, s)
    ensures Agree(cfg, s) ==> s.conn[MasterNode(cfg, s)].queue != []
    ensures Agree(cfg, s) ==> forall i :: 0 <= i < cfg.n && Valid(cfg, s, i) ==> KindReadable(s.conn[i])
    ensures SkipToReady(cfg, s) ==
            if !(MasterIsLowestValid(cfg, s) && Agree(cfg, s)) then Outcome(s, End)
            else if s.conn[MasterNode(cfg, s)].queue[0].msg.Ready? then Outcome(ReadKinds(cfg, s), Continue)
            else SkipToReady(cfg, DiscardPackets(cfg, s))
  {
    hide Valid;
  }

  lemma AbortIs(cfg: Config, s: State)
    requires Sized(cfg, s)
    ensures AllReadyAlike(cfg, s) ==> AllOpened(cfg, s)
    ensures AbortMismatched(cfg, s) ==
            if cfg.failoverOnMismatch || !AllReadyAlike(cfg, s) then Outcome(s, End)
            else
              var t := ReadBodies(cfg, s);
              var o := SkipToReady(cfg, ProvokeEach(cfg, t, ErrorMask(cfg, t, -1)));
              Outcome(if o.status == Continue then o.s.(mismatch := false) else o.s, o.status)
  {
    hide Valid, ProvokeEach, SkipToReady, ErrorMask;
  }

  /** The loop that provokes an error on every node has come to node i. */
  ghost predicate ProvokedUpTo(cfg: Config, s: State, mask: seq<bool>, i: nat, conn: seq<Conn>, log: seq<Event>)
    requires Sized(cfg, s) && |mask| == cfg.n && i <= cfg.n
  {
    |conn| == cfg.n && log == s.log + ProvokeLog(s.conn, mask, i) &&
    forall k :: 0 <= k < cfg.n ==> conn[k] == if k < i && mask[k] then DoError(s.conn[k]).c else s.conn[k]
  }

  lemma ProvokedNext(cfg: Config, s: State, mask: seq<bool>, i: nat, conn: seq<Conn>, log: seq<Event>)
    requires Sized(cfg, s) && |mask| == cfg.n && i < cfg.n && ProvokedUpTo(cfg, s, mask, i, conn, log)
    ensures |conn| == cfg.n && conn[i] == s.conn[i]
    ensures var x := DoError(s.conn[i]);
            if mask[i] then
              ProvokedUpTo(cfg, s, mask, i + 1, conn[i := x.c], log + [Sent(i, ErrorQuery)] + if x.ok then [Waited(i)] else [])
            else ProvokedUpTo(cfg, s, mask, i + 1, conn, log)
  {
    hide DoError;
    var before := ProvokeLog(s.conn, mask, i);
    if mask[i] {
      var events := [Sent(i, ErrorQuery)] + if DoError(s.conn[i]).ok then [Waited(i)] else [];
      assert ProvokeLog(s.conn, mask, i + 1) == before + events;
      assert s.log + before + events == s.log + (before + events);
    } else {
      assert ProvokeLog(s.conn, mask, i + 1) == before + [];
    }
  }

  lemma ProvokedAll(cfg: Config, s: State, mask: seq<bool>, r: State)
    requires Sized(cfg, s) && |mask| == cfg.n && r == s.(conn := r.conn, log := r.log)
    requires ProvokedUpTo(cfg, s, mask, cfg.n, r.conn, r.log)
    ensures Sized(cfg, r) && r == ProvokeEach(cfg, s, mask)
  {
    hide DoError;
    assert r.conn == ProvokeEach(cfg, s, mask).conn;
  }

  /** The nodes' states as their readiness messages give them. */
  function StatesTaken(cfg: Config, s: State): (r: seq<Conn>)
    requires Sized(cfg, s) && AllReady(cfg, s)
    ensures |r| == cfg.n
  {
    TakeStates(cfg, s).conn
  }

  lemma StatesTakenAt(cfg: Config, s: State, i: nat)
    requires Sized(cfg, s) && AllReady(cfg, s) && i < cfg.n
    ensures Target(cfg, s.context, s.inProgress, i) ==> BodyReadable(s.conn[i]) && s.conn[i].queue[0].msg.Ready?
    ensures StatesTaken(cfg, s)[i] ==
            if Target(cfg, s.context, s.inProgress, i) then ReadBody(s.conn[i]).(tstate := s.conn[i].queue[0].msg.state) else s.conn[i]
  {
  }

  lemma TakeIs(cfg: Config, s: State)
    requires Sized(cfg, s) && AllReady(cfg, s)
    ensures TakeStates(cfg, s) == s.(conn := StatesTaken(cfg, s), reported := StatesTaken(cfg, s)[cfg.MainNode()].tstate)
  {
  }

  lemma NotAllReady(cfg: Config, s: State, i: nat)
    requires Sized(cfg, s) && i < cfg.n && Valid(cfg, s, i) && !(BodyReadable(s.conn[i]) && s.conn[i].queue[0].msg.Ready?)
    ensures !AllReady(cfg, s)
  {
  }

  lemma ProcessIs(cfg: Config, s: State, v: seq<Verdicts>)
    requires Sized(cfg, s) && |v| == cfg.n && Agree(cfg, s)
    ensures s.conn[MasterNode(cfg, s)].queue != []
    ensures forall i :: 0 <= i < cfg.n && Valid(cfg, s, i) ==> KindReadable(s.conn[i])
    ensures var k := ReadKinds(cfg, s);
            Sized(cfg, k) && AllOpened(cfg, k) && Valid(cfg, k, MasterNode(cfg, k)) &&
            ProcessBackendResponse(cfg, s, v) ==
            match s.conn[MasterNode(cfg, s)].queue[0].msg
            case Ready(_) => ReadyForQuery(cfg, k, v)
            case Error => ErrorResponse(cfg, k, v)
            case Complete(_) => Outcome(CommandComplete(cfg, k).(commandSuccess := true), Continue)
            case _ => Outcome(ReadBodies(cfg, k), Continue)
  {
    ReadKindsOpens(cfg, s);
    hide ReadyForQuery, ErrorResponse, CommandComplete, ReadBodies, ReadKinds;
  }

  lemma DriveIs(cfg: Config, s: State, v: seq<Verdicts>)
    requires Sized(cfg, s) && |v| == cfg.n && s.inProgress
    ensures var o := ProcessBackendResponse(cfg, s, v);
            Drive(cfg, s, v) ==
            if o.status == End || !o.s.inProgress then o
            else if |o.s.conn[MasterNode(cfg, o.s)].queue| < |s.conn[MasterNode(cfg, s)].queue| then Drive(cfg, o.s, v)
            else Outcome(o.s, End)
  {
    hide ProcessBackendResponse;
  }

  class Session {
    const cfg: Config
    var conn: seq<Conn>
    var context: Option<Context>
    var inProgress: bool
    var commandSuccess: bool
    var writing: bool
    var failed: bool
    var isolation: Isolation
    var mismatch: bool
    var ntuples: seq<int>
    var sent: seq<Prepared>
    var uncompleted: Option<Prepared>
    var reset: bool
    var reported: TState
    ghost var log: seq<Event>

    /** pool_init_session_context, on connections that have been set up. */
    constructor (cfg: Config, conn: seq<Conn>)
      requires SizedConfig(cfg) && |conn| == cfg.n
      ensures this.cfg == cfg && Ready()
      ensures View() == NewSession(conn)
    {
      this.cfg, this.conn := cfg, conn;
      context, inProgress, commandSuccess := None, false, false;
      writing, failed, isolation := false, false, UnknownIsolation;
      mismatch, ntuples, sent, uncompleted := false, [], [], None;
      reset, reported, log := false, Idle, [];
    }

    ghost function View(): State
      reads this
    {
      State(conn, context, inProgress, commandSuccess, writing, failed, isolation, mismatch, ntuples, sent,
            uncompleted, reset, log, reported)
    }

    ghost predicate Ready()
      reads this
    {
      Sized(cfg, View())
    }

    /** What the loops need to know of the fields. */
    lemma Parts()
      requires Ready()
      ensures SizedConfig(cfg) && SizedContext(cfg.n, context) && |conn| == cfg.n && Sized(cfg, View())
      ensures View().conn == conn && View().log == log && View().context == context && View().inProgress == inProgress
      ensures View().writing == writing
    {
    }

    lemma ValidIs(i: nat)
      requires Ready() && i < cfg.n
      ensures Sized(cfg, View()) && (IsValid(i) <==> Valid(cfg, View(), i))
    {
    }

    lemma ReadyIs()
      requires Ready()
      ensures Sized(cfg, View()) && View().mismatch == mismatch
    {
    }

    /** VALID_BACKEND. */
    predicate IsValid(i: nat)
      requires Ready() && i < cfg.n
      reads this
    {
      Target(cfg, context, inProgress, i)
    }

    /** MASTER_NODE_ID. */
    function Master(): (m: nat)
      requires Ready()
      reads this
      ensures m == MasterNode(cfg, View()) && m < cfg.n
    {
      if context.Some? then context.value.vmaster else cfg.realMaster
    }

    /** do_command on node i: sends a query and reads packets up to the kind of a readiness message. */
    method Command(i: nat, q: Query, a: Answer, noReady: bool) returns (ok: bool)
      requires i < |conn|
      modifies `conn, `log
      ensures conn == old(conn)[i := DoCommand(old(conn[i]), q, a, noReady).c] && ok == DoCommand(old(conn[i]), q, a, noReady).ok
      ensures log == old(log) + [Sent(i, q)] + if ok then [Waited(i)] else []
    {
      log := log + [Sent(i, q)];
      var c := SendQuery(conn[i], q, a);
      conn := conn[i := c];
      if a.Lost? { return false; }
      var queue := c.queue;
      hide SendQuery;
      while queue != [] && !queue[0].begun && (queue[0].msg.Notice? || queue[0].msg.Error? || queue[0].msg.Complete?)
        invariant DrainToReady(queue) == DrainToReady(c.queue)
        decreases |queue|
      {
        queue := queue[1..];
      }
      if queue == [] || queue[0].begun || !queue[0].msg.Ready? { return false; }
      queue := queue[0 := queue[0].(begun := true)];
      if noReady {
        conn := conn[i := c.(queue := queue)];
      } else {
        conn := conn[i := c.(queue := queue[1..], tstate := queue[0].msg.state)];
      }
      log := log + [Waited(i)];
      ok := true;
    }

    /** do_error_command on node i. */
    method ErrorCommand(i: nat) returns (ok: bool)
      requires i < |conn|
      modifies `conn, `log
      ensures conn == old(conn)[i := DoError(old(conn[i])).c] && ok == DoError(old(conn[i])).ok
      ensures log == old(log) + [Sent(i, ErrorQuery)] + if ok then [Waited(i)] else []
    {
      log := log + [Sent(i, ErrorQuery)];
      var c := SendQuery(conn[i], ErrorQuery, Reject);
      conn := conn[i := c];
      var queue := c.queue;
      hide SendQuery;
      while queue != [] && !queue[0].begun && !queue[0].msg.Error?
        invariant DrainError(queue) == DrainError(c.queue)
        decreases |queue|
      {
        queue := queue[1..];
      }
      if queue == [] || queue[0].begun { return false; }
      conn := conn[i := c.(queue := queue[1..])];
      log := log + [Waited(i)];
      ok := true;
    }

    /** Node i's part of end_internal_transaction. */
    method CommitCommand(i: nat, a: Answer) returns (ok: bool)
      requires i < |conn|
      modifies `conn, `log
      ensures conn == old(conn)[i := CommitNode(old(conn[i]), a).c] && ok == CommitNode(old(conn[i]), a).ok
      ensures log == old(log) + (if BodyReadable(old(conn[i])) then [Sent(i, Commit)] else []) + if ok then [Waited(i)] else []
    {
      if !BodyReadable(conn[i]) { return false; }
      conn := conn[i := ReadBody(conn[i])];
      ok := Command(i, Commit, a, true);
      conn := conn[i := conn[i].(internal := false)];
    }

    /** One node's turn in a loop over nodes. */
    method Turn(action: Action, i: nat, v: Verdicts) returns (ok: bool)
      requires i < |conn|
      modifies `conn, `log
      ensures conn == old(conn)[i := Act(action, old(conn[i]), v).c] && ok == Act(action, old(conn[i]), v).ok
      ensures log == old(log) + if ok then [Sent(i, QueryOf(action)), Waited(i)] else Attempt(action, old(conn[i]), i)
    {
      match action {
        case OpenInternal =>
          ok := Command(i, Begin, v.begin, false);
          if ok { conn := conn[i := conn[i].(internal := true)]; }
        case Provoke => ok := ErrorCommand(i);
        case CloseInternal => ok := CommitCommand(i, v.commit);
        case CommitStandby => ok := Command(i, Commit, v.commit, false);
      }
      hide DoCommand, DoError, CommitNode;
    }

    /** A turn that takes its loop one node further, or ends it. */
    method Advance(action: Action, i: nat, v: seq<Verdicts>, ghost conn0: seq<Conn>, ghost log0: seq<Event>, ghost mask: seq<bool>)
      returns (ok: bool)
      requires i < |mask| == |conn0| == |conn| == |v| && mask[i] && Underway(action, conn0, log0, mask, v, i, conn, log)
      modifies `conn, `log
      ensures |conn| == |conn0| && (ok ==> Underway(action, conn0, log0, mask, v, i + 1, conn, log))
      ensures !ok ==> Through(action, conn0, log0, mask, v, false, conn, log)
      ensures conn == old(conn)[i := Act(action, conn0[i], v[i]).c] && ok == Act(action, conn0[i], v[i]).ok
    {
      Acts(action, conn0, log0, mask, v, i, conn, log);
      hide Act, Underway, BatchFrom;
      ok := Turn(action, i, v[i]);
    }

    /** start_internal_transaction, once it is known to be needed. */
    method OpenTransactions(v: seq<Verdicts>) returns (ok: bool)
      requires Ready() && context.Some? && |v| == cfg.n
      modifies `conn, `log, `writing
      ensures |conn| == cfg.n && Through(OpenInternal, old(conn), old(log), BeginMask(cfg, old(View())), v, ok, conn, log)
      ensures writing == (old(writing) && NoneOpened(old(conn), conn))
    {
      hide *;
      Parts();
      ghost var s := View();
      ghost var mask := BeginMask(cfg, s);
      var where, inP, n := context, inProgress, cfg.n;
      NothingOpenedYet(s.conn);
      Begins(OpenInternal, s.conn, s.log, mask, v);
      ok := true;
      for i := 0 to n
        invariant |conn| == n && Underway(OpenInternal, s.conn, s.log, mask, v, i, conn, log)
        invariant writing == (s.writing && NoneOpened(s.conn, conn))
      {
        BeginMaskAt(cfg, s, i);
        Untouched(OpenInternal, s.conn, s.log, mask, v, i, conn, log);
        if Target(cfg, where, inP, i) && MayOpen(conn[i]) {
          OpenedByOne(s.conn, conn, i, v[i]);
          ok := Advance(OpenInternal, i, v, s.conn, s.log, mask);
          if !ok { return; }
          writing := false;
        } else {
          Skips(OpenInternal, s.conn, s.log, mask, v, i, conn, log);
        }
      }
      Ends(OpenInternal, s.conn, s.log, mask, v, conn, log);
    }

    /** start_internal_transaction. */
    method StartInternalTransaction(v: seq<Verdicts>) returns (status: Status)
      requires Ready() && context.Some? && |v| == cfg.n
      modifies `conn, `log, `writing
      ensures Outcome(View(), status) == StartInternal(cfg, old(View()), v)
    {
      if !NeedsInternalTransaction(context.value.stmt) { return Continue; }
      RunOnIs(cfg, View(), OpenInternal, BeginMask(cfg, View()), v);
      hide BatchFrom, BeginMask, RunOn, NeedsInternalTransaction;
      var ok := OpenTransactions(v);
      status := if ok then Continue else End;
    }

    /** The loop of end_internal_transaction over the secondaries. */
    method CommitSecondaries(m: nat, v: seq<Verdicts>) returns (ok: bool)
      requires Ready() && |v| == cfg.n && m == Master()
      modifies `conn, `log
      ensures |conn| == cfg.n && Through(CloseInternal, old(conn), old(log), CommitMask(cfg, old(View())), v, ok, conn, log)
    {
      ghost var s := View();
      ghost var mask := CommitMask(cfg, s);
      var where, inP, n := context, inProgress, cfg.n;
      assert SizedConfig(cfg) && SizedContext(n, where) && |conn| == n;
      hide *;
      Begins(CloseInternal, s.conn, s.log, mask, v);
      ok := true;
      for i := 0 to n
        invariant |conn| == n && Underway(CloseInternal, s.conn, s.log, mask, v, i, conn, log)
      {
        CommitMaskAt(cfg, s, i);
        Untouched(CloseInternal, s.conn, s.log, mask, v, i, conn, log);
        if Target(cfg, where, inP, i) && i != m && MustClose(conn[i]) {
          ok := Advance(CloseInternal, i, v, s.conn, s.log, mask);
          if !ok { return; }
        } else {
          Skips(CloseInternal, s.conn, s.log, mask, v, i, conn, log);
        }
      }
      Ends(CloseInternal, s.conn, s.log, mask, v, conn, log);
    }

    method CommitOthers(m: nat, v: seq<Verdicts>) returns (status: Status)
      requires Ready() && |v| == cfg.n && m == Master()
      modifies `conn, `log
      ensures Ready() && Outcome(View(), status) == RunOn(cfg, old(View()), CloseInternal, CommitMask(cfg, old(View())), v)
    {
      ghost var s := View();
      hide Through, RunOn, CommitMask, Sized;
      var ok := CommitSecondaries(m, v);
      AfterLoop(cfg, s, CloseInternal, CommitMask(cfg, s), v, ok, View());
      status := if ok then Continue else End;
    }

    method CommitMaster(m: nat, v: seq<Verdicts>) returns (status: Status)
      requires Ready() && |v| == cfg.n && m < cfg.n
      modifies `conn, `log
      ensures Ready() && Outcome(View(), status) == RunOn(cfg, old(View()), CloseInternal, Only(cfg, m), v)
    {
      RunOnOne(cfg, View(), CloseInternal, m, v);
      hide Act, RunOn, Attempt;
      var ok := Turn(CloseInternal, m, v[m]);
      status := if ok then Continue else End;
    }

    /** end_internal_transaction: the secondaries first, the master last. */
    method EndInternalTransaction(v: seq<Verdicts>) returns (status: Status)
      requires Ready() && |v| == cfg.n
      modifies `conn, `log
      ensures Ready() && Outcome(View(), status) == EndInternal(cfg, old(View()), v)
    {
      hide RunOn, CommitMask;
      var m := Master();
      status := CommitOthers(m, v);
      if status == Continue && conn[m].tstate != Idle && conn[m].internal {
        status := CommitMaster(m, v);
      }
    }

    /** The loops that provoke an error on every node of the query but one. */
    method ProvokeErrors(skip: int, v: seq<Verdicts>) returns (ok: bool)
      requires Ready() && |v| == cfg.n
      modifies `conn, `log
      ensures |conn| == cfg.n && Through(Provoke, old(conn), old(log), ErrorMask(cfg, old(View()), skip), v, ok, conn, log)
    {
      ghost var s := View();
      ghost var mask := ErrorMask(cfg, s, skip);
      var where, inP, n := context, inProgress, cfg.n;
      assert SizedConfig(cfg) && SizedContext(n, where) && |conn| == n;
      hide *;
      Begins(Provoke, s.conn, s.log, mask, v);
      ok := true;
      for i := 0 to n
        invariant |conn| == n && Underway(Provoke, s.conn, s.log, mask, v, i, conn, log)
      {
        ErrorMaskAt(cfg, s, skip, i);
        if Target(cfg, where, inP, i) && i != skip {
          ok := Advance(Provoke, i, v, s.conn, s.log, mask);
          if !ok { return; }
        } else {
          Skips(Provoke, s.conn, s.log, mask, v, i, conn, log);
        }
      }
      Ends(Provoke, s.conn, s.log, mask, v, conn, log);
    }

    /** The loop of close_standby_transactions. */
    method CommitStandbys(v: seq<Verdicts>) returns (ok: bool)
      requires Ready() && |v| == cfg.n
      modifies `conn, `log
      ensures |conn| == cfg.n && Through(CommitStandby, old(conn), old(log), StandbyMask(cfg, old(View())), v, ok, conn, log)
    {
      ghost var s := View();
      ghost var mask := StandbyMask(cfg, s);
      var n := cfg.n;
      assert |cfg.up| == n && |conn| == n;
      hide *;
      Begins(CommitStandby, s.conn, s.log, mask, v);
      ok := true;
      for i := 0 to n
        invariant |conn| == n && Underway(CommitStandby, s.conn, s.log, mask, v, i, conn, log)
      {
        StandbyMaskAt(cfg, s, i);
        Untouched(CommitStandby, s.conn, s.log, mask, v, i, conn, log);
        if conn[i].tstate == InBlock && cfg.up[i] && i != cfg.MainNode() {
          ok := Advance(CommitStandby, i, v, s.conn, s.log, mask);
          if !ok { return; }
        } else {
          Skips(CommitStandby, s.conn, s.log, mask, v, i, conn, log);
        }
      }
      Ends(CommitStandby, s.conn, s.log, mask, v, conn, log);
    }

    /** close_standby_transactions. */
    method CloseStandbyTransactions(v: seq<Verdicts>) returns (status: Status)
      requires Ready() && |v| == cfg.n
      modifies `conn, `log
      ensures Ready() && Outcome(View(), status) == CloseStandby(cfg, old(View()), v)
    {
      ghost var s := View();
      hide Through, RunOn, StandbyMask, Sized;
      var ok := CommitStandbys(v);
      AfterLoop(cfg, s, CommitStandby, StandbyMask(cfg, s), v, ok, View());
      status := if ok then Continue else End;
    }

    // -------------------------------------------------------------------------------------
    // Routing
    // -------------------------------------------------------------------------------------

    /** pool_setall_node_to_be_sent. */
    method SetAllNodes(where: seq<bool>) returns (r: seq<bool>)
      requires |where| == |cfg.live| == cfg.n
      ensures r == AllLive(cfg, where)
    {
      r := where;
      for i := 0 to cfg.n
        invariant |r| == cfg.n
        invariant forall k :: 0 <= k < cfg.n ==> (r[k] <==> where[k] || (k < i && cfg.live[k]))
      {
        if cfg.live[i] { r := r[i := true]; }
      }
    }

    method OneNode(node: nat) returns (r: seq<bool>)
      requires node < cfg.n
      ensures r == Only(cfg, node)
    {
      r := seq(cfg.n, _ => false);
      r := r[node := true];
    }

    /** The targets in master/slave mode; finding out the isolation level may be part of it. */
    method RouteToStandbys(stmt: Stmt, asked: Isolation) returns (where: seq<bool>)
      requires Ready()
      modifies `isolation
      ensures (where, isolation) == RouteMasterSlave(cfg, old(View()), stmt, asked)
    {
      var primary := cfg.PrimaryNode();
      var dest := SendToWhere(stmt);
      if dest == Dest.Primary {
        where := OneNode(primary);
      } else if dest == Both {
        where := SetAllNodes(seq(cfg.n, _ => false));
        assert seq(cfg.n, _ => false) == Nobody(cfg);
      } else if cfg.loadBalance && IsSelect(stmt) {
        var free := conn[primary].tstate == Idle;
        if !free && !writing && !failed {
          if isolation == UnknownIsolation { isolation := asked; }
          free := isolation != Serializable;
        }
        var t := TraitsOf(stmt);
        if free && !cfg.delayed && !t.callsFunction && !t.systemCatalog && !t.tempTable {
          where := OneNode(cfg.lbNode);
        } else {
          where := OneNode(primary);
        }
      } else {
        where := OneNode(primary);
      }
      hide Only, AllLive;
    }

    /** The targets in replication mode. */
    method RouteToReplicas(stmt: Stmt) returns (where: seq<bool>)
      requires Ready()
      ensures where == RouteReplication(cfg, View(), stmt)
    {
      if IsSelect(stmt) && !IsSequence(stmt) && !TraitsOf(stmt).callsFunction && !cfg.replicateSelect {
        if cfg.loadBalance && conn[Master()].tstate == Idle {
          where := OneNode(cfg.lbNode);
        } else {
          where := OneNode(cfg.realMaster);
        }
      } else {
        where := SetAllNodes(seq(cfg.n, _ => false));
        assert seq(cfg.n, _ => false) == Nobody(cfg);
      }
      hide Only, AllLive;
    }

    method BaseTargets(stmt: Stmt, noBalance: bool, asked: Isolation) returns (where: seq<bool>)
      requires Ready()
      modifies `isolation
      ensures Ready() && (where, isolation) == Route(cfg, old(View()), stmt, noBalance, asked)
    {
      hide Only, RouteMasterSlave, RouteReplication;
      if noBalance {
        where := OneNode(cfg.MainNode());
      } else if cfg.mode == Raw {
        where := OneNode(cfg.realMaster);
      } else if cfg.mode == MasterSlave {
        where := RouteToStandbys(stmt, asked);
      } else {
        where := RouteToReplicas(stmt);
      }
    }

    /** pool_where_to_send: the node map of the query context and its virtual master. */
    method WhereToSendQuery(noBalance: bool, asked: Isolation)
      requires Ready() && context.Some?
      modifies `context, `isolation
      ensures Ready() && View() == WhereToSend(cfg, old(View()), noBalance, asked)
    {
      hide Route, FollowPrepare, FirstTarget;
      var c := context.value;
      var base := BaseTargets(c.stmt, noBalance, asked);
      FollowSame(cfg, old(View()), View(), c.stmt, base);
      var where := FollowPreparedStatement(c.stmt, base, noBalance);
      var first := LowestTarget(where);
      context := Some(c.(where := where, vmaster := if first >= 0 then first else c.vmaster));
    }

    /** EXECUTE and DEALLOCATE go where the PREPARE went. */
    method FollowPreparedStatement(stmt: Stmt, where: seq<bool>, noBalance: bool) returns (r: seq<bool>)
      requires Ready() && |where| == cfg.n
      ensures |r| == cfg.n && r == if noBalance then where else FollowPrepare(cfg, View(), stmt, where)
    {
      r := where;
      if noBalance { return; }
      match stmt {
        case Execute(name) =>
          var p := FindSent(name);
          if p.Some? { r := p.value.where; }
        case Deallocate(which) =>
          if which.None? {
            r := SetAllNodes(where);
          } else {
            var p := FindSent(which.value);
            if p.Some? { r := p.value.where; }
          }
        case _ =>
      }
    }

    /** pool_get_sent_message. */
    method FindSent(name: string) returns (p: Option<Prepared>)
      ensures p == FindPrepared(sent, name)
    {
      for i := 0 to |sent|
        invariant FindPrepared(sent, name) == FindPrepared(sent[i..], name)
      {
        if sent[i].name == name { return Some(sent[i]); }
      }
      p := None;
    }

    /** pool_remove_sent_message. */
    method RemoveSent(name: string)
      modifies `sent
      ensures sent == RemovePrepared(old(sent), name)
    {
      for i := 0 to |sent|
        invariant sent == old(sent) && forall k :: 0 <= k < i ==> sent[k].name != name
      {
        if sent[i].name == name {
          RemovedAt(sent, name, i);
          sent := sent[..i] + sent[i + 1..];
          return;
        }
      }
      RemovedAt(sent, name, |sent|);
    }

    /** pool_add_sent_message: a name that is listed already stays as it is, except the empty one. */
    method AddSent(p: Prepared)
      modifies `sent
      ensures sent == AddPrepared(old(sent), p)
    {
      var known := FindSent(p.name);
      if known.Some? && p.name != "" { return; }
      if known.Some? { RemoveSent(""); }
      sent := sent + [p];
    }

    method LowestTarget(where: seq<bool>) returns (t: int)
      ensures t == FirstTarget(where, 0)
    {
      for i := 0 to |where|
        invariant FirstTarget(where, 0) == FirstTarget(where, i)
      {
        if where[i] { return i; }
      }
      t := -1;
    }

    // -------------------------------------------------------------------------------------
    // Sending
    // -------------------------------------------------------------------------------------

    /** The sending loop of pool_send_and_wait; the nodes that remain targets are returned. */
    method SendLoop(sendType: int, node: nat, v: seq<Verdicts>) returns (where: seq<bool>)
      requires Ready() && context.Some? && |v| == cfg.n
      modifies `conn, `log
      ensures SentUpTo(cfg, old(View()), sendType, node, v, cfg.n, conn, where)
      ensures log == old(log) + Sends(Chosen(ReceiveMask(cfg, old(View()), sendType, node)), TheQuery(old(View())))
    {
      ghost var s := View();
      ghost var mask := ReceiveMask(cfg, s, sendType, node);
      var stmt, m, n := context.value.stmt, Master(), cfg.n;
      var q := Client(stmt, context.value.id);
      where := context.value.where;
      var query, inP := context, inProgress;
      assert SizedConfig(cfg) && SizedContext(n, query) && |conn| == n && q == TheQuery(s);
      assert mask[..0] == [] && s.log + Sends([], q) == s.log;
      assert SentUpTo(cfg, s, sendType, node, v, 0, conn, where);
      hide *;
      for i := 0 to n
        invariant |conn| == |where| == n && SentUpTo(cfg, s, sendType, node, v, i, conn, where)
        invariant log == s.log + Sends(Chosen(mask[..i]), q)
      {
        SentToIs(cfg, s, sendType, node, v, i);
        OneMoreChosen(mask, i, q);
        SentUpToAt(cfg, s, sendType, node, v, i, conn, where);
        if Target(cfg, query, inP, i) && Selected(sendType, node, i) {
          if Holds(cfg.mode, stmt, conn[i].tstate, i == m, reset) {
            SentUpToNext(cfg, s, sendType, node, v, i, conn, where, conn[i], false);
            where := where[i := false];
          } else {
            SentUpToNext(cfg, s, sendType, node, v, i, conn, where, SendQuery(conn[i], q, v[i].main), where[i]);
            log := log + [Sent(i, q)];
            conn := conn[i := SendQuery(conn[i], q, v[i].main)];
          }
        } else {
          SentUpToNext(cfg, s, sendType, node, v, i, conn, where, conn[i], where[i]);
        }
      }
      assert mask[..n] == mask;
    }

    method SendToNodes(sendType: int, node: nat, v: seq<Verdicts>)
      requires Ready() && context.Some? && |v| == cfg.n
      modifies `conn, `context, `log
      ensures Ready() && View() == SendAll(cfg, old(View()), sendType, node, v)
    {
      ghost var s := View();
      var c := context.value;
      hide SentUpTo, ReceiveMask, Receivers, SendAll, Sends;
      var where := SendLoop(sendType, node, v);
      context := Some(c.(where := where));
      SendAllIs(cfg, s, sendType, node, v, View());
    }

    /** The waiting loop of pool_send_and_wait: nodes that a COMMIT was withheld from are passed over,
        either as idle standbys or because they are no longer targets. */
    method WaitLoop(sendType: int, node: nat, v: seq<Verdicts>, ghost s: State) returns (status: Status)
      requires Ready() && |v| == cfg.n && Sized(cfg, s) && s.context.Some? && s.inProgress
      requires View() == SendAll(cfg, s, sendType, node, v)
      modifies `log
      ensures SendAndWait(cfg, s, sendType, node, v) == Outcome(SendAll(cfg, s, sendType, node, v).(log := log), status)
    {
      hide *;
      Parts();
      SentMaster(cfg, s, sendType, node, v);
      var stmt, m, n, query := context.value.stmt, Master(), cfg.n, context;
      AwaitBegins(cfg, s, sendType, node, v);
      for i := 0 to n
        invariant Awaiting(cfg, s, sendType, node, v, i, log)
      {
        AwaitNext(cfg, s, sendType, node, v, i, log);
        if Target(cfg, query, true, i) && Selected(sendType, node, i) && !Holds(cfg.mode, stmt, conn[i].tstate, i == m, false) {
          log := log + [Waited(i)];
          if v[i].main.Lost? || conn[i].queue == [] { return End; }
        }
      }
      AwaitEnds(cfg, s, sendType, node, v, log);
      status := Continue;
    }

    method WaitForNodes(sendType: int, node: nat, v: seq<Verdicts>, ghost s: State) returns (status: Status)
      requires Ready() && |v| == cfg.n && Sized(cfg, s) && s.context.Some? && s.inProgress
      requires View() == SendAll(cfg, s, sendType, node, v)
      modifies `log
      ensures Ready() && Outcome(View(), status) == SendAndWait(cfg, s, sendType, node, v)
    {
      ghost var t := View();
      hide SendAll, SendAndWait;
      status := WaitLoop(sendType, node, v, s);
      LogOnly(t);
    }

    lemma LogOnly(t: State)
      requires cfg.n == |conn| && Sized(cfg, t) && View().(log := t.log) == t
      ensures Ready() && View() == t.(log := log)
    {
    }

    /** pool_send_and_wait. */
    method SendAndAwait(sendType: int, node: nat, v: seq<Verdicts>) returns (status: Status)
      requires Ready() && context.Some? && inProgress && |v| == cfg.n
      modifies `conn, `context, `log
      ensures Ready() && Outcome(View(), status) == SendAndWait(cfg, old(View()), sendType, node, v)
    {
      ghost var s := View();
      hide SendAll, SendAndWait;
      SendToNodes(sendType, node, v);
      status := WaitForNodes(sendType, node, v, s);
    }

    /** The order in which SimpleQuery sends a statement out. */
    method SendInOrder(v: seq<Verdicts>) returns (status: Status)
      requires Ready() && context.Some? && inProgress && |v| == cfg.n
      modifies `conn, `context, `log
      ensures Ready() && Outcome(View(), status) == Dispatch(cfg, old(View()), v)
    {
      hide SendAndWait;
      var m := Master();
      if cfg.mode == Raw {
        status := SendAndAwait(1, m, v);
        return;
      }
      var commit := IsCommit(context.value.stmt);
      if !commit {
        if cfg.singleChild {
          status := SendAndAwait(0, 0, v);
          return;
        }
        status := SendAndAwait(1, m, v);
        if status == End { return; }
      }
      status := SendAndAwait(-1, m, v);
      if commit && status == Continue {
        status := SendAndAwait(1, m, v);
      }
    }

    /** pool_multi_node_to_be_sent. */
    method HasSeveralTargets() returns (several: bool)
      requires Ready() && context.Some?
      ensures several == SeveralTargets(cfg, View())
    {
      var where := context.value.where;
      var count := 0;
      ghost var mask := seq(cfg.n, k requires 0 <= k < cfg.n => cfg.live[k] && where[k]);
      ChosenAll(mask);
      for i := 0 to cfg.n
        invariant |Chosen(mask)| == count + |ChosenFrom(mask, i)|
      {
        if cfg.live[i] && where[i] { count := count + 1; }
      }
      several := count > 1;
    }

    /** pool_start_query and pool_where_to_send. */
    method BeginQuery(stmt: Stmt, id: nat, noBalance: bool, asked: Isolation)
      requires Ready()
      modifies `context, `inProgress, `isolation
      ensures Ready() && context.Some? && View() == WhereToSend(cfg, StartQuery(cfg, old(View()), stmt, id), noBalance, asked)
      ensures inProgress && context.value.stmt == stmt && reset == old(reset)
    {
      hide WhereToSend;
      context := Some(Context(stmt, id, seq(cfg.n, _ => false), cfg.realMaster));
      inProgress := true;
      assert seq(cfg.n, _ => false) == Nobody(cfg);
      assert View() == StartQuery(cfg, old(View()), stmt, id);
      StillQuery(cfg, View(), noBalance, asked);
      WhereToSendQuery(noBalance, asked);
    }

    method OpenForQuery(v: seq<Verdicts>) returns (status: Status)
      requires Ready() && context.Some? && |v| == cfg.n
      modifies `conn, `log, `writing
      ensures Ready() && Outcome(View(), status) == Opening(cfg, old(View()), v)
    {
      hide StartInternal, SeveralTargets;
      status := Continue;
      if cfg.mode != Raw {
        var several := HasSeveralTargets();
        if several { status := StartInternalTransaction(v); }
      }
    }

    /** The sending half of SimpleQuery. */
    method SendQueryOut(v: seq<Verdicts>) returns (status: Status)
      requires Ready() && context.Some? && inProgress && |v| == cfg.n
      modifies `conn, `context, `log, `writing, `uncompleted
      ensures Ready() && Outcome(View(), status) == SendOut(cfg, old(View()), v)
    {
      hide Dispatch, Opening;
      status := OpenForQuery(v);
      if status == End { return; }
      ghost var t := View();
      match context.value.stmt {
        case Prepare(name, _) => uncompleted := Some(Prepared(name, context.value.where));
        case _ =>
      }
      assert View() == NotePrepare(t);
      hide NotePrepare;
      status := SendInOrder(v);
    }

    /** SimpleQuery. */
    method Query(stmt: Stmt, id: nat, noBalance: bool, asked: Isolation, v: seq<Verdicts>) returns (status: Status)
      requires Ready() && |v| == cfg.n
      modifies this
      ensures Ready() && Outcome(View(), status) == SimpleQuery(cfg, old(View()), stmt, id, noBalance, asked, v)
    {
      hide SendOut, WhereToSend, StartQuery;
      if stmt.ShowPool? {
        context := None;
        inProgress := false;
        return Continue;
      }
      BeginQuery(stmt, id, noBalance, asked);
      status := SendQueryOut(v);
    }

    // -------------------------------------------------------------------------------------
    // Reading
    // -------------------------------------------------------------------------------------

    /** The reading loop of read_kind_from_backend. */
    method ReadKindList() returns (ok: bool, kinds: seq<int>, ghost read: nat)
      requires Ready()
      modifies `conn
      ensures Ready() && View() == old(View()).(conn := conn)
      ensures KindsReadUpTo(cfg, old(View()), read, conn, kinds) && (ok ==> read == cfg.n)
      ensures !ok ==> exists i :: 0 <= i < cfg.n && Valid(cfg, old(View()), i) && !KindReadable(old(conn)[i])
    {
      ghost var s := View();
      var n, query, inP := cfg.n, context, inProgress;
      assert SizedConfig(cfg) && SizedContext(n, query) && |conn| == n;
      kinds := seq(n, _ => 0);
      assert KindsReadUpTo(cfg, s, 0, conn, kinds);
      assert forall k :: 0 <= k < n ==> (Target(cfg, query, inP, k) <==> Valid(cfg, s, k));
      hide KindsReadUpTo, Valid, Target, KindOf, Code, ReadKind;
      for i := 0 to n
        invariant |conn| == |kinds| == n && KindsReadUpTo(cfg, s, i, conn, kinds)
      {
        KindsReadAt(cfg, s, i, conn, kinds);
        if Target(cfg, query, inP, i) {
          if !KindReadable(conn[i]) { return false, kinds, i; }
          KindsReadNext(cfg, s, i, conn, kinds, ReadKind(conn[i]), Code(KindOf(conn[i].queue[0].msg)));
          kinds := kinds[i := Code(KindOf(conn[i].queue[0].msg))];
          conn := conn[i := ReadKind(conn[i])];
        } else {
          KindsReadNext(cfg, s, i, conn, kinds, conn[i], 0);
          assert conn[i := conn[i]] == conn;
          kinds := kinds[i := 0];
        }
      }
      ok, read := true, n;
    }

    /** The vote of the nodes on the kind that is to be believed. */
    method Vote(kinds: seq<int>, m: nat) returns (agreed: bool)
      requires Voting.KindList(kinds) && m < |kinds| && kinds[m] != 0
      ensures agreed <==> forall k :: 0 <= k < |kinds| && kinds[k] != 0 ==> kinds[k] == kinds[m]
    {
      var targets := seq(|kinds|, k requires 0 <= k < |kinds| => kinds[k] != 0);
      var decided, dissenters := Voting.ReadKindFromBackend(kinds, targets, inProgress, m);
      NoDissentIff(kinds, m, decided);
      agreed := dissenters == [];
    }

    /** read_kind_from_backend: the nodes of the query vote on the kind of the next message; when one of them
        dissents the session cannot go on. */
    method ReadKindFromNodes() returns (kind: Option<Msg>)
      requires Ready()
      modifies `conn
      ensures kind.Some? <==> Agree(cfg, old(View()))
      ensures Ready() && UpToUnread(old(View()), View())
      ensures kind.Some? ==> View() == ReadKinds(cfg, old(View())) && kind.value == old(conn[Master()]).queue[0].msg
    {
      hide *;
      Parts();
      ghost var s := View();
      SameUpToUnread(s);
      var m := Master();
      ValidIs(m);
      if !IsValid(m) {
        InvalidDisagrees(cfg, s);
        return None;
      }
      var head := conn[m].queue;
      var ok, kinds, read := ReadKindList();
      KindsUpToUnread(cfg, s, read, conn, kinds);
      if !ok {
        DisagreeUnread(cfg, s);
        return None;
      }
      KindsAreKinds(cfg, s, conn, kinds);
      ReadKindsIs(cfg, s, conn, kinds);
      AgreeByKinds(cfg, s, conn, kinds);
      var agreed := Vote(kinds, m);
      kind := None;
      if agreed {
        AgreedHead(cfg, s);
        ReadKindsOpens(cfg, s);
        kind := Some(head[0].msg);
      }
    }

    /** The rest of a message is read from every node of the query. */
    method ReadRest()
      requires Ready() && AllOpened(cfg, View())
      modifies `conn
      ensures Ready() && View() == ReadBodies(cfg, old(View()))
    {
      ghost var s := View();
      ghost var after := ReadBodies(cfg, s).conn;
      var n, query, inP := cfg.n, context, inProgress;
      assert SizedConfig(cfg) && SizedContext(n, query) && |conn| == n;
      assert TurnedUpTo(s.conn, after, 0, conn);
      hide Target, ReadBodies, TurnedUpTo, AllOpened;
      for i := 0 to n
        invariant |conn| == n && TurnedUpTo(s.conn, after, i, conn)
      {
        ReadBodiesAt(cfg, s, i);
        TurnNext(s.conn, after, i, conn);
        if Target(cfg, query, inP, i) { conn := conn[i := ReadBody(conn[i])]; }
      }
      Turned(s.conn, after, conn);
    }

    /** The beginning of CommandComplete. */
    method NoteCompletion()
      requires Ready()
      modifies this
      ensures Ready() && View() == NoteComplete(cfg, old(View()))
    {
      if context == None { return; }
      ghost var s := View();
      var stmt := context.value.stmt;
      ListAfterSized(cfg.n, stmt, sent, uncompleted);
      ListCompleted(stmt);
      if IsStart(stmt) {
        PutInBlock(s);
        writing := false;
        failed := false;
        isolation := UnknownIsolation;
      }
      assert conn == MarkStarted(cfg, s, IsStart(stmt));
      hide ListAfter, MarkStarted, IsStart;
    }

    /** Prepared statements that a completed statement adds to the list or takes off it. */
    method ListCompleted(stmt: Stmt)
      modifies `sent, `uncompleted
      ensures sent == ListAfter(stmt, old(sent), old(uncompleted))
      ensures uncompleted == if stmt.Prepare? then None else old(uncompleted)
    {
      match stmt {
        case Prepare(_, _) =>
          if uncompleted.Some? { AddSent(uncompleted.value); }
          uncompleted := None;
        case Deallocate(which) =>
          if which.Some? { RemoveSent(which.value); } else { sent := []; }
        case Discard(target) =>
          if !target.DiscardTemp? { sent := []; }
        case _ =>
      }
    }

    method PutInBlock(ghost s: State)
      requires Ready() && Sized(cfg, s) && conn == s.conn && context == s.context && inProgress == s.inProgress
      modifies `conn
      ensures conn == MarkStarted(cfg, s, true)
    {
      ghost var after := MarkStarted(cfg, s, true);
      var n, query, inP := cfg.n, context, inProgress;
      assert SizedConfig(cfg) && SizedContext(n, query) && |conn| == n;
      assert TurnedUpTo(s.conn, after, 0, conn);
      hide Target, MarkStarted, TurnedUpTo;
      for i := 0 to n
        invariant |conn| == n && TurnedUpTo(s.conn, after, i, conn)
      {
        MarkStartedAt(cfg, s, true, i);
        TurnNext(s.conn, after, i, conn);
        if Target(cfg, query, inP, i) { conn := conn[i := conn[i].(tstate := InBlock)]; }
      }
      Turned(s.conn, after, conn);
    }

    /** The row counts are taken down and compared with the master's. */
    method CountTuples()
      requires Ready() && AllOpened(cfg, View()) && Valid(cfg, View(), MasterNode(cfg, View()))
      modifies `ntuples, `mismatch
      ensures Ready() && View() == old(View()).(ntuples := RowCounts(cfg, old(View())), mismatch :=
        old(mismatch) || DifferUpTo(cfg, old(View()), RowCounts(cfg, old(View())), cfg.n))
    {
      ghost var s := View();
      ghost var counts := RowCounts(cfg, s);
      var m := Master();
      var n, query, inP := cfg.n, context, inProgress;
      assert SizedConfig(cfg) && SizedContext(n, query) && |conn| == n;
      assert !DifferUpTo(cfg, s, counts, 0) && m == MasterNode(cfg, s);
      RowCountsAt(cfg, s, m);
      var rows := RowsOf(conn[m].queue[0]);
      ghost var blank := seq(n, _ => -1);
      ntuples := seq(n, _ => -1);
      assert TurnedUpTo(blank, counts, 0, ntuples);
      hide Target, RowCounts, DifferUpTo, AllOpened, TurnedUpTo, RowsOf;
      for i := 0 to n
        invariant |ntuples| == n && TurnedUpTo(blank, counts, i, ntuples)
        invariant mismatch == (old(mismatch) || DifferUpTo(cfg, s, counts, i))
      {
        RowCountsAt(cfg, s, i);
        TurnNext(blank, counts, i, ntuples);
        DifferNext(cfg, s, counts, i);
        if !Target(cfg, query, inP, i) {
          ntuples := ntuples[i := -1];
        } else {
          ntuples := ntuples[i := RowsOf(conn[i].queue[0])];
          if ntuples[i] != rows { mismatch := true; }
        }
      }
      Turned(blank, counts, ntuples);
    }

    /** CommandComplete. */
    method ReadCompletion()
      requires Ready() && AllOpened(cfg, View()) && Valid(cfg, View(), MasterNode(cfg, View()))
      modifies this
      ensures Ready() && View() == CommandComplete(cfg, old(View()))
    {
      ghost var s0 := View();
      StillOpened(cfg, s0);
      assert old(View()) == s0 && Sized(cfg, s0);
      hide *;
      NoteCompletion();
      ghost var s := View();
      ReadyIs();
      CountTuples();
      SameOpened(cfg, s, View());
      ReadRest();
      CompleteIs(cfg, s0, s, View());
    }

    // -------------------------------------------------------------------------------------
    // Errors and mismatches
    // -------------------------------------------------------------------------------------

    method ProvokeAll(skip: int, v: seq<Verdicts>) returns (status: Status)
      requires Ready() && |v| == cfg.n
      modifies `conn, `log
      ensures Ready() && Outcome(View(), status) == RunOn(cfg, old(View()), Provoke, ErrorMask(cfg, old(View()), skip), v)
    {
      ghost var s := View();
      hide Through, RunOn, ErrorMask, Sized;
      var ok := ProvokeErrors(skip, v);
      AfterLoop(cfg, s, Provoke, ErrorMask(cfg, s, skip), v, ok, View());
      status := if ok then Continue else End;
    }

    method ProvokeOne(m: nat, v: seq<Verdicts>) returns (status: Status)
      requires Ready() && |v| == cfg.n && m < cfg.n
      modifies `conn, `log
      ensures Ready() && Outcome(View(), status) == RunOn(cfg, old(View()), Provoke, Only(cfg, m), v)
    {
      RunOnOne(cfg, View(), Provoke, m, v);
      hide Act, RunOn, Attempt;
      var ok := Turn(Provoke, m, v[m]);
      status := if ok then Continue else End;
    }

    method SetTargets(where: seq<bool>)
      requires Ready() && context.Some? && |where| == cfg.n
      modifies `context
      ensures Ready() && View() == old(View()).(context := Some(old(context).value.(where := where)))
    {
      context := Some(context.value.(where := where));
    }

    /** The primary, which did not see the SELECT fail, is made to fail as well. */
    method RaiseOnPrimary(p: nat, v: seq<Verdicts>) returns (status: Status)
      requires Ready() && context.Some? && |v| == cfg.n && p < cfg.n
      modifies `conn, `log, `context
      ensures var s := old(View());
              Ready() && Outcome(View(), status) ==
              RunOn(cfg, s.(context := Some(s.context.value.(where := s.context.value.where[p := true]))), Provoke, Only(cfg, p), v)
    {
      hide RunOn, Only;
      SetTargets(context.value.where[p := true]);
      status := ProvokeOne(p, v);
    }

    method RaiseOnReplicas(v: seq<Verdicts>) returns (status: Status)
      requires Ready() && context.Some? && |v| == cfg.n
      modifies `conn, `log, `context
      ensures var s := old(View());
              var t := s.(context := Some(s.context.value.(where := AllLive(cfg, s.context.value.where))));
              Ready() && Outcome(View(), status) == RunOn(cfg, t, Provoke, ErrorMask(cfg, t, cfg.realMaster), v)
    {
      hide RunOn, ErrorMask, AllLive;
      var where := SetAllNodes(context.value.where);
      SetTargets(where);
      status := ProvokeAll(cfg.realMaster, v);
    }

    /** raise_intentional_error_if_need. */
    method RaiseIntentionalError(v: seq<Verdicts>) returns (status: Status)
      requires Ready() && |v| == cfg.n
      modifies `conn, `log, `context
      ensures Ready() && Outcome(View(), status) == RaiseError(cfg, old(View()), v)
    {
      RaiseIs(cfg, View(), v);
      var p := cfg.PrimaryNode();
      var onPrimary := cfg.mode == MasterSlave && conn[p].tstate == InBlock && context.Some? && p != context.value.vmaster;
      var onReplicas := cfg.mode == Replication && conn[cfg.realMaster].tstate == InBlock && !cfg.replicateSelect;
      hide RunOn, RaiseError, IsSelect, ErrorMask, AllLive, Only;
      status := Continue;
      if context.Some? && IsSelect(context.value.stmt) {
        if onPrimary {
          status := RaiseOnPrimary(p, v);
        } else if onReplicas {
          status := RaiseOnReplicas(v);
        }
      }
    }

    /** pool_read_message_length and pool_read_kind compare what the nodes of the query send. */
    method ReadAlike() returns (alike: bool)
      requires Ready()
      ensures alike == AllReadyAlike(cfg, View())
    {
      ghost var s := View();
      var m, n := Master(), cfg.n;
      if !BodyReadable(conn[m]) { return false; }
      var head := conn[m].queue[0].msg;
      for i := 0 to n
        invariant forall k :: 0 <= k < i ==> AlikeNode(cfg, s, k)
      {
        if IsValid(i) && (i < m || !BodyReadable(conn[i]) || conn[i].queue[0].msg != head) {
          AlikeAt(cfg, s, i);
          return false;
        }
      }
      AlikeAll(cfg, s);
      alike := true;
    }

    /** The same, ahead of reading: kinds only. */
    method ShowAlike() returns (alike: bool)
      requires Ready()
      ensures alike == (MasterIsLowestValid(cfg, View()) && Agree(cfg, View()))
    {
      ghost var s := View();
      var m, n := Master(), cfg.n;
      if !IsValid(m) || !KindReadable(conn[m]) { return false; }
      var kind := KindOf(conn[m].queue[0].msg);
      for i := 0 to n
        invariant forall k :: 0 <= k < i ==> ShowNode(cfg, s, k)
      {
        if IsValid(i) && (i < m || !KindReadable(conn[i]) || KindOf(conn[i].queue[0].msg) != kind) {
          ShowAt(cfg, s, i);
          return false;
        }
      }
      ShowAll(cfg, s);
      alike := true;
    }

    /** The kind byte is read from every node of the query. */
    method ReadKindBytes()
      requires Ready() && forall i :: 0 <= i < cfg.n && Valid(cfg, View(), i) ==> KindReadable(conn[i])
      modifies `conn
      ensures Ready() && View() == ReadKinds(cfg, old(View()))
    {
      ghost var s := View();
      ghost var after := ReadKinds(cfg, s).conn;
      var n, query, inP := cfg.n, context, inProgress;
      assert SizedConfig(cfg) && SizedContext(n, query) && |conn| == n;
      assert TurnedUpTo(s.conn, after, 0, conn);
      hide Target, ReadKinds, TurnedUpTo;
      for i := 0 to n
        invariant |conn| == n && TurnedUpTo(s.conn, after, i, conn)
      {
        ReadKindsAt(cfg, s, i);
        TurnNext(s.conn, after, i, conn);
        if Target(cfg, query, inP, i) { conn := conn[i := ReadKind(conn[i])]; }
      }
      Turned(s.conn, after, conn);
    }

    /** pool_discard_packet. */
    method DiscardPacket()
      requires Ready() && Agree(cfg, View())
      modifies `conn
      ensures Ready() && View() == DiscardPackets(cfg, old(View()))
    {
      ReadKindsOpens(cfg, View());
      hide ReadKinds, ReadBodies, AllOpened;
      ReadKindBytes();
      ReadRest();
    }

    /** Whole packets are discarded until every node shows a readiness message, whose kind is read. */
    method SkipPackets() returns (status: Status)
      requires Ready()
      modifies `conn
      ensures Ready() && Outcome(View(), status) == SkipToReady(cfg, old(View()))
    {
      ghost var s0 := View();
      hide Agree, MasterIsLowestValid, SkipToReady, DiscardPackets, ReadKinds;
      while true
        invariant Ready() && SkipToReady(cfg, s0) == SkipToReady(cfg, View())
        decreases |conn[MasterNode(cfg, View())].queue|
      {
        var alike := ShowAlike();
        SkipIs(cfg, View());
        if !alike { return End; }
        if conn[Master()].queue[0].msg.Ready? {
          ReadKindBytes();
          return Continue;
        }
        DiscardPacket();
      }
    }

    /** do_error_command on every node of the query, whatever comes of it. */
    method ProvokeOnEach()
      requires Ready()
      modifies `conn, `log
      ensures Ready() && View() == ProvokeEach(cfg, old(View()), ErrorMask(cfg, old(View()), -1))
    {
      ghost var s := View();
      ghost var mask := ErrorMask(cfg, s, -1);
      var query, inP, n := context, inProgress, cfg.n;
      assert SizedConfig(cfg) && SizedContext(n, query) && |conn| == n && ProvokedUpTo(cfg, s, mask, 0, conn, log);
      hide *;
      for i := 0 to n
        invariant |conn| == n && ProvokedUpTo(cfg, s, mask, i, conn, log)
      {
        ErrorMaskAt(cfg, s, -1, i);
        ProvokedNext(cfg, s, mask, i, conn, log);
        if Target(cfg, query, inP, i) {
          var ok := ErrorCommand(i);
        }
      }
      ProvokedAll(cfg, s, mask, s.(conn := conn, log := log));
      ConnsOnly(s);
    }

    lemma ConnsOnly(s: State)
      requires Sized(cfg, s) && |conn| == |s.conn| && View().(conn := s.conn, log := s.log) == s
      ensures Ready() && View() == s.(conn := conn, log := log)
    {
    }

    /** ReadyForQuery's reaction to a mismatch of the row counts: the transaction is aborted on every node. */
    method AbortTransactions() returns (status: Status)
      requires Ready()
      modifies `conn, `log, `mismatch
      ensures Ready() && Outcome(View(), status) == AbortMismatched(cfg, old(View()))
    {
      AbortIs(cfg, View());
      hide ProvokeEach, SkipToReady, ErrorMask, AllReadyAlike, AllOpened, ReadBodies, AbortMismatched;
      if cfg.failoverOnMismatch { return End; }
      var alike := ReadAlike();
      if !alike { return End; }
      ReadRest();
      ProvokeOnEach();
      status := SkipPackets();
      if status == Continue { mismatch := false; }
    }

    method NodesReady() returns (ready: bool)
      requires Ready()
      ensures ready == AllReady(cfg, View())
    {
      ghost var s := View();
      for i := 0 to cfg.n
        invariant forall k :: 0 <= k < i && Valid(cfg, s, k) ==> BodyReadable(s.conn[k]) && s.conn[k].queue[0].msg.Ready?
      {
        if IsValid(i) && !(BodyReadable(conn[i]) && conn[i].queue[0].msg.Ready?) {
          NotAllReady(cfg, s, i);
          return false;
        }
      }
      ready := true;
    }

    /** The transaction state of each node is set to what the node reports. */
    method ReadStates()
      requires Ready() && AllReady(cfg, View())
      modifies `conn
      ensures Ready() && View() == old(View()).(conn := StatesTaken(cfg, old(View())))
    {
      ghost var s := View();
      ghost var after := StatesTaken(cfg, s);
      var n, query, inP := cfg.n, context, inProgress;
      assert SizedConfig(cfg) && SizedContext(n, query) && |conn| == n;
      assert TurnedUpTo(s.conn, after, 0, conn);
      hide Target, StatesTaken, TurnedUpTo, AllReady;
      for i := 0 to n
        invariant |conn| == n && TurnedUpTo(s.conn, after, i, conn)
      {
        StatesTakenAt(cfg, s, i);
        TurnNext(s.conn, after, i, conn);
        if Target(cfg, query, inP, i) {
          var state := conn[i].queue[0].msg.state;
          conn := conn[i := ReadBody(conn[i]).(tstate := state)];
        }
      }
      Turned(s.conn, after, conn);
    }

    method TakeNodeStates()
      requires Ready() && AllReady(cfg, View())
      modifies `conn, `reported
      ensures Ready() && View() == TakeStates(cfg, old(View()))
    {
      TakeIs(cfg, View());
      hide AllReady, StatesTaken, TakeStates;
      ReadStates();
      reported := conn[cfg.MainNode()].tstate;
    }

    /** What the session remembers of the statement. */
    method RememberOutcome(v: seq<Verdicts>) returns (status: Status)
      requires Ready() && context.Some? && |v| == cfg.n
      modifies `conn, `log, `writing, `failed, `isolation
      ensures Ready() && context.Some? && Outcome(View(), status) == NoteOutcome(cfg, old(View()), v)
    {
      var stmt := context.value.stmt;
      hide CloseStandby, IsSelect, SetsSerializable, IsTwoPhase, IsStart;
      status := Continue;
      if IsStart(stmt) {
        writing := false;
        failed := false;
        isolation := UnknownIsolation;
      } else if SetsSerializable(stmt) {
        isolation := Serializable;
      } else if IsTwoPhase(stmt) {
        status := CloseStandbyTransactions(v);
      } else if !IsSelect(stmt) {
        writing := true;
      }
    }

    /** The closing part of ReadyForQuery. */
    method FinishQuery(v: seq<Verdicts>) returns (status: Status)
      requires Ready() && |v| == cfg.n
      modifies this
      ensures Ready() && Outcome(View(), status) == CloseQuery(cfg, old(View()), v)
    {
      hide NoteOutcome;
      var noted := inProgress && commandSuccess && context.Some?;
      status := Continue;
      var isPrepare := noted && context.value.stmt.Prepare?;
      if noted {
        status := RememberOutcome(v);
        if status == End { return; }
      }
      inProgress := false;
      if !isPrepare { context := None; }
    }

    /** ReadyForQuery. */
    method HandleReady(v: seq<Verdicts>) returns (status: Status)
      requires Ready() && |v| == cfg.n
      modifies this
      ensures Ready() && Outcome(View(), status) == ReadyForQuery(cfg, old(View()), v)
    {
      hide AbortMismatched, EndInternal, AllReady, TakeStates, CloseQuery;
      status := Continue;
      if mismatch {
        status := AbortTransactions();
        if status == End { return; }
      }
      status := EndInternalTransaction(v);
      if status == End { return; }
      var ready := NodesReady();
      if !ready { return End; }
      TakeNodeStates();
      status := FinishQuery(v);
    }

    /** ErrorResponse. */
    method HandleError(v: seq<Verdicts>) returns (status: Status)
      requires Ready() && AllOpened(cfg, View()) && |v| == cfg.n
      modifies this
      ensures Ready() && Outcome(View(), status) == ErrorResponse(cfg, old(View()), v)
    {
      hide ReadBodies, RaiseError, AllOpened;
      ReadRest();
      status := RaiseIntentionalError(v);
      if status == End { return; }
      ghost var s := View();
      ForgetFailedPrepare();
      commandSuccess := true;
      if conn[cfg.MainNode()].tstate != Idle { failed := true; }
      assert View() == NoteFailure(cfg, s);
    }

    /** The end of ErrorResponse3. */
    method ForgetFailedPrepare()
      requires Ready()
      modifies `sent, `uncompleted, `context
      ensures Ready() && View() == ForgetPrepare(old(View()))
    {
      if uncompleted == None { return; }
      var p := uncompleted.value;
      var known := FindSent(p.name);
      AddSent(p);
      RemoveSent(p.name);
      uncompleted := None;
      if p.name == "" || known == None { context := None; }
    }

    /** ProcessBackendResponse. Nodes found to disagree may have given up the kinds of their messages by then. */
    method HandleResponse(v: seq<Verdicts>) returns (status: Status)
      requires Ready() && |v| == cfg.n
      modifies this
      ensures Ready() && status == ProcessBackendResponse(cfg, old(View()), v).status
      ensures UpToUnread(ProcessBackendResponse(cfg, old(View()), v).s, View())
      ensures status == Continue ==> View() == ProcessBackendResponse(cfg, old(View()), v).s
    {
      ghost var s := View();
      var kind := ReadKindFromNodes();
      if kind == None {
        StillSized();
        return End;
      }
      ProcessIs(cfg, s, v);
      hide Agree, ReadyForQuery, ErrorResponse, CommandComplete, ReadBodies, ReadKinds, AllOpened, ProcessBackendResponse, Valid;
      status := Continue;
      match kind.value {
        case Ready(_) => status := HandleReady(v);
        case Error => status := HandleError(v);
        case Complete(_) =>
          ReadCompletion();
          commandSuccess := true;
        case _ => ReadRest();
      }
      SameUpToUnread(View());
    }

    lemma StillSized()
      requires Ready()
      ensures Sized(cfg, View())
    {
    }

    /** The driving loop: responses are processed while the query is in progress. */
    method ProcessQuery(v: seq<Verdicts>) returns (status: Status)
      requires Ready() && |v| == cfg.n
      modifies this
      ensures Ready() && status == Drive(cfg, old(View()), v).status
      ensures UpToUnread(Drive(cfg, old(View()), v).s, View())
      ensures status == Continue ==> View() == Drive(cfg, old(View()), v).s
    {
      ghost var s0 := View();
      hide ProcessBackendResponse, UpToUnread;
      while inProgress
        invariant Ready() && Drive(cfg, s0, v) == Drive(cfg, View(), v)
        decreases inProgress, |conn[MasterNode(cfg, View())].queue|
      {
        DriveIs(cfg, View(), v);
        var unread := |conn[Master()].queue|;
        status := HandleResponse(v);
        if status == End { return; }
        SameUpToUnread(View());
        if inProgress && |conn[Master()].queue| >= unread { return End; }
      }
      SameUpToUnread(View());
      status := Continue;
    }

    /** A client statement from its arrival until the session is ready for the next. */
    method Run(stmt: Stmt, id: nat, noBalance: bool, asked: Isolation, v: seq<Verdicts>) returns (status: Status)
      requires Ready() && |v| == cfg.n
      modifies this
      ensures Ready() && status == RunStatement(cfg, old(View()), stmt, id, noBalance, asked, v).status
      ensures UpToUnread(RunStatement(cfg, old(View()), stmt, id, noBalance, asked, v).s, View())
      ensures status == Continue ==> View() == RunStatement(cfg, old(View()), stmt, id, noBalance, asked, v).s
    {
      hide SimpleQuery, Drive, UpToUnread;
      status := Query(stmt, id, noBalance, asked, v);
      SameUpToUnread(View());
      if status == End { return; }
      status := ProcessQuery(v);
    }
  }
}