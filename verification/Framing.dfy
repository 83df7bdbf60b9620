/** Answers stay in step with statements: between statements nothing is unread anywhere, and while a
    statement is in progress exactly its targets have the rest of one answer to read. */
module Framing {
  import opened Options
  import opened Statements
  import opened Postgres
  import opened SessionModel
  import opened Batches
  import opened Delivery
  import opened CommitOrder

  /** A set of targets: some node, and only live ones. */
  ghost predicate Proper(cfg: Config, where: seq<bool>)
    requires SizedConfig(cfg)
  {
    |where| == cfg.n && (forall k :: 0 <= k < cfg.n && where[k] ==> cfg.live[k]) && exists k :: 0 <= k < cfg.n && where[k]
  }

  ghost predicate ProperLists(cfg: Config, sent: seq<Prepared>, uncompleted: Option<Prepared>)
    requires SizedConfig(cfg)
  {
    (forall p :: p in sent ==> Proper(cfg, p.where)) && (uncompleted.Some? ==> Proper(cfg, uncompleted.value.where))
  }

  /** The unread rest of one answer, up to the readiness message with the node's state. */
  ghost predicate Tail(q: seq<Packet>, state: TState) {
    |q| >= 1 && q[|q| - 1] == Packet(Ready(state), false) &&
    (|q| >= 2 ==> !q[|q| - 2].begun && (q[|q| - 2].msg.Complete? || q[|q| - 2].msg.Error? || q[|q| - 2].msg.EmptyQuery?)) &&
    forall i :: 0 <= i < |q| - 2 ==> q[i] == Packet(Row, false) || q[i] == Packet(Notice, false)
  }

  /** The answer is an error. */
  predicate HasError(q: seq<Packet>) { |q| >= 2 && q[|q| - 2].msg.Error? }

  ghost predicate ConnOk(target: bool, c: Conn) {
    if target then Tail(c.queue, c.remote.state) && (c.internal ==> c.tstate != Idle) else Quiet(c)
  }

  ghost predicate ConnsOk(cfg: Config, where: seq<bool>, conn: seq<Conn>)
    requires |cfg.live| == |where| == |conn| == cfg.n
  {
    forall k :: 0 <= k < cfg.n && cfg.live[k] ==> ConnOk(where[k], conn[k])
  }

  ghost predicate AllQuiet(cfg: Config, conn: seq<Conn>)
    requires |cfg.live| == |conn| == cfg.n
  {
    forall k :: 0 <= k < cfg.n && cfg.live[k] ==> Quiet(conn[k])
  }

  /** Between statements. */
  ghost predicate Boundary(cfg: Config, s: State) {
    cfg.WellFormed() && cfg.mode != Raw && Sized(cfg, s) && ProperLists(cfg, s.sent, s.uncompleted) &&
    !s.inProgress && !s.mismatch && !s.reset && s.uncompleted == None && AllQuiet(cfg, s.conn)
  }

  /** A SELECT that may have to be failed on the other nodes has gone to the master. */
  ghost predicate RaiseReady(cfg: Config, c: Context, masterState: TState)
    requires cfg.realMaster < |c.where|
  {
    cfg.mode == Replication && IsSelect(c.stmt) && masterState == InBlock ==> c.where[cfg.realMaster]
  }

  /** While a statement is in progress. */
  ghost predicate InFlight(cfg: Config, s: State) {
    cfg.WellFormed() && cfg.mode != Raw && Sized(cfg, s) && ProperLists(cfg, s.sent, s.uncompleted) &&
    s.inProgress && !s.reset && s.context.Some? && Proper(cfg, s.context.value.where) &&
    s.context.value.where[s.context.value.vmaster] && ConnsOk(cfg, s.context.value.where, s.conn) &&
    RaiseReady(cfg, s.context.value, s.conn[cfg.realMaster].tstate)
  }

  /** The message that ends the command has yet to be read, and is not the answer to an empty text. */
  predicate Ending(q: seq<Packet>) { |q| >= 2 && !q[|q| - 2].msg.EmptyQuery? }

  /** A prepared statement not yet listed belongs to the PREPARE in progress. */
  ghost predicate Preparing(s: State) {
    s.uncompleted.Some? ==>
      s.context.Some? && s.context.value.stmt.Prepare? && !s.mismatch && |s.context.value.where| == |s.conn| &&
      forall k :: 0 <= k < |s.conn| && s.context.value.where[k] ==> Ending(s.conn[k].queue)
  }

  // ---------------------------------------------------------------------------------------
  // Sending
  // ---------------------------------------------------------------------------------------

  lemma OnlyIsProper(cfg: Config, i: int)
    requires cfg.WellFormed() && 0 <= i < cfg.n && cfg.live[i]
    ensures Proper(cfg, Only(cfg, i))
  {
    assert Only(cfg, i)[i];
  }

  lemma AllIsProper(cfg: Config, where: seq<bool>)
    requires cfg.WellFormed() && |where| == cfg.n && forall k :: 0 <= k < cfg.n && where[k] ==> cfg.live[k]
    ensures Proper(cfg, AllLive(cfg, where))
  {
    assert AllLive(cfg, where)[cfg.realMaster];
  }

  lemma FollowIsProper(cfg: Config, s: State, stmt: Stmt, where: seq<bool>)
    requires cfg.WellFormed() && Sized(cfg, s) && ProperLists(cfg, s.sent, s.uncompleted) && Proper(cfg, where)
    ensures Proper(cfg, FollowPrepare(cfg, s, stmt, where))
  {
    AllIsProper(cfg, where);
    hide Proper, AllLive;
  }

  lemma RouteIsProper(cfg: Config, s: State, stmt: Stmt, noBalance: bool, asked: Isolation)
    requires cfg.WellFormed() && Sized(cfg, s) && cfg.mode != Raw
    ensures Proper(cfg, Route(cfg, s, stmt, noBalance, asked).0)
  {
    OnlyIsProper(cfg, cfg.PrimaryNode());
    OnlyIsProper(cfg, cfg.realMaster);
    OnlyIsProper(cfg, cfg.lbNode);
    AllIsProper(cfg, Nobody(cfg));
    hide Proper, AllLive, Only, IsSelect, SendToWhere;
  }

  lemma ProperHasFirst(cfg: Config, where: seq<bool>)
    requires SizedConfig(cfg) && Proper(cfg, where)
    ensures FirstTarget(where, 0) >= 0
  {
  }

  /** The targets of a statement: never none, never a dead node; the virtual master is the lowest. */
  lemma TargetsAreProper(cfg: Config, s: State, stmt: Stmt, id: nat, noBalance: bool, asked: Isolation)
    requires cfg.WellFormed() && cfg.mode != Raw && Sized(cfg, s) && ProperLists(cfg, s.sent, s.uncompleted)
    ensures var r := WhereToSend(cfg, StartQuery(cfg, s, stmt, id), noBalance, asked);
            var c := r.context.value;
            r == s.(context := r.context, inProgress := true, isolation := r.isolation) &&
            c.stmt == stmt && c.id == id && Proper(cfg, c.where) && c.where[c.vmaster] &&
            forall k :: 0 <= k < c.vmaster ==> !c.where[k]
  {
    hide Proper, Route, FollowPrepare;
    var t := StartQuery(cfg, s, stmt, id);
    RouteIsProper(cfg, t, stmt, noBalance, asked);
    var base := Route(cfg, t, stmt, noBalance, asked).0;
    FollowIsProper(cfg, t, stmt, base);
    ProperHasFirst(cfg, if noBalance then base else FollowPrepare(cfg, t, stmt, base));
  }

  /** Routed, but not yet sent. */
  ghost predicate Routed(cfg: Config, s: State) {
    cfg.WellFormed() && cfg.mode != Raw && Sized(cfg, s) && ProperLists(cfg, s.sent, s.uncompleted) &&
    s.inProgress && !s.reset && s.context.Some? && Proper(cfg, s.context.value.where) &&
    s.context.value.where[s.context.value.vmaster] && AllQuiet(cfg, s.conn)
  }

  /** The statement gets a transaction of pgpool's own. */
  predicate Opens(cfg: Config, s: State)
    requires Sized(cfg, s) && s.context.Some?
  {
    SeveralTargets(cfg, s) && NeedsInternalTransaction(s.context.value.stmt)
  }

  function Started(c: Conn, opens: bool): Conn {
    if opens && c.tstate == Idle && !c.internal then Conn(c.remote.(state := InBlock), [], InBlock, true) else c
  }

  lemma OpeningForm(cfg: Config, s: State, v: seq<Verdicts>)
    requires Routed(cfg, s) && |v| == cfg.n
    ensures var o := Opening(cfg, s, v);
            o.status == Continue ==>
              forall k :: 0 <= k < cfg.n ==> o.s.conn[k] == Started(s.conn[k], Opens(cfg, s) && s.context.value.where[k])
  {
    hide Act, SeveralTargets, RunOn;
    var mask := BeginMask(cfg, s);
    RunOnSucceeds(cfg, s, OpenInternal, mask, v);
    forall k | 0 <= k < cfg.n && mask[k]
      ensures Act(OpenInternal, s.conn[k], v[k]).ok ==> Act(OpenInternal, s.conn[k], v[k]).c == Started(s.conn[k], true)
    {
      OpenInternalActs(s.conn[k], v[k]);
    }
    assert forall k :: 0 <= k < cfg.n ==> (mask[k] <==> s.context.value.where[k] && !s.conn[k].internal && s.conn[k].tstate == Idle);
    hide BeginMask;
  }

  lemma OpeningSucceeds(cfg: Config, s: State, v: seq<Verdicts>)
    requires Routed(cfg, s) && |v| == cfg.n
    requires forall k :: 0 <= k < cfg.n && s.context.value.where[k] ==> !v[k].begin.Lost?
    ensures Opening(cfg, s, v).status == Continue
  {
    hide Act, SeveralTargets, RunOn;
    var mask := BeginMask(cfg, s);
    RunOnSucceeds(cfg, s, OpenInternal, mask, v);
    forall k | 0 <= k < cfg.n && mask[k] ensures Act(OpenInternal, s.conn[k], v[k]).ok {
      OpenInternalActs(s.conn[k], v[k]);
    }
  }

  /** Only a connection that breaks keeps a statement from going out. */
  lemma SendOutSucceeds(cfg: Config, s: State, v: seq<Verdicts>)
    requires Routed(cfg, s) && |v| == cfg.n
    requires forall k :: 0 <= k < cfg.n && s.context.value.where[k] ==> !v[k].begin.Lost? && !v[k].main.Lost?
    ensures SendOut(cfg, s, v).status == Continue
  {
    OpeningSucceeds(cfg, s, v);
    var t := NotePrepare(Opening(cfg, s, v).s);
    DispatchDelivers(cfg, t, v);
    hide Opening, Dispatch, Withheld;
    assert NoneLost(cfg, t, v);
  }

  /** What becomes of a connection when the statement has gone out. */
  function Sent1(c: Conn, opens: bool, gets: bool, q: Query, a: Answer): Conn {
    if gets then SendQuery(Started(c, opens), q, a) else c
  }

  /** Statements that are ever withheld are not wrapped. */
  lemma OpenedNotWithheld(cfg: Config, s: State, t: State, k: nat)
    requires Sized(cfg, s) && s.context.Some? && Sized(cfg, t) && k < cfg.n
    requires t == s.(conn := t.conn, log := t.log, writing := t.writing, uncompleted := t.uncompleted)
    requires t.conn[k] == Started(s.conn[k], Opens(cfg, s) && s.context.value.where[k])
    ensures Withheld(cfg, t, k) <==> Withheld(cfg, s, k)
    ensures Withheld(cfg, s, k) ==> t.conn[k] == s.conn[k]
  {
    hide SeveralTargets;
  }

  /** SendOut, node by node. */
  lemma SendOutForm(cfg: Config, s: State, v: seq<Verdicts>)
    requires Routed(cfg, s) && |v| == cfg.n && SendOut(cfg, s, v).status == Continue
    ensures var r := SendOut(cfg, s, v).s;
            r == s.(conn := r.conn, log := r.log, writing := r.writing, context := r.context, uncompleted := NotePrepare(s).uncompleted) &&
            r.context.Some? && r.context.value == s.context.value.(where := r.context.value.where) &&
            forall k :: 0 <= k < cfg.n ==>
              (r.context.value.where[k] <==> s.context.value.where[k] && !Withheld(cfg, s, k)) &&
              (r.context.value.where[k] ==> !v[k].main.Lost?) &&
              r.conn[k] == Sent1(s.conn[k], Opens(cfg, s), r.context.value.where[k], TheQuery(s), v[k].main)
  {
    hide Withheld, Dispatch, Opens, SendQuery;
    OpeningForm(cfg, s, v);
    var started := Opening(cfg, s, v).s;
    var t := NotePrepare(started);
    DispatchDelivers(cfg, t, v);
    hide Opening;
    var r := Dispatch(cfg, t, v).s;
    forall k | 0 <= k < cfg.n
      ensures r.context.value.where[k] <==> s.context.value.where[k] && !Withheld(cfg, s, k)
      ensures r.context.value.where[k] ==> !v[k].main.Lost?
      ensures r.conn[k] == Sent1(s.conn[k], Opens(cfg, s), r.context.value.where[k], TheQuery(s), v[k].main)
    {
      OpenedNotWithheld(cfg, s, t, k);
    }
  }

  lemma WrapTail(b: Remote, msgs: seq<Msg>)
    requires AnswerShape(b, msgs)
    ensures Tail(Wrap(msgs), b.state)
  {
  }

  lemma SentTail(c: Conn, q: Query, a: Answer)
    requires c.queue == [] && !a.Lost?
    ensures Tail(SendQuery(c, q, a).queue, SendQuery(c, q, a).remote.state)
  {
    hide AnswerShape, Tail, Respond;
    RespondShape(c.remote, q, a);
    var r := Respond(c.remote, q, a);
    WrapTail(r.remote, r.msgs);
    assert c.queue + Wrap(r.msgs) == Wrap(r.msgs);
  }

  lemma SentOk(c: Conn, opens: bool, gets: bool, q: Query, a: Answer)
    requires Quiet(c) && (gets ==> !a.Lost?)
    ensures ConnOk(gets, Sent1(c, opens, gets, q, a))
  {
    hide Tail, SendQuery;
    if gets {
      SentTail(Started(c, opens), q, a);
      SendKeeps(Started(c, opens), q, a);
    }
  }

  lemma NotWithheldMaster(cfg: Config, s: State)
    requires Routed(cfg, s)
    ensures !Withheld(cfg, s, s.context.value.vmaster)
  {
  }

  lemma OneIsNotSeveral(cfg: Config, s: State, i: nat)
    requires Sized(cfg, s) && s.context.Some? && i < cfg.n && cfg.live[i]
    requires s.context.value.where == Only(cfg, i)
    ensures !SeveralTargets(cfg, s)
  {
    OnlyOne(cfg.n, i);
    assert seq(cfg.n, k requires 0 <= k < cfg.n => cfg.live[k] && s.context.value.where[k]) == seq(cfg.n, k => k == i);
  }

  /** A SELECT sent to nodes that are in a block, or will have one opened, has gone to the master. */
  lemma RouteRaiseReady(cfg: Config, s: State, stmt: Stmt, id: nat, noBalance: bool, asked: Isolation)
    requires cfg.WellFormed() && cfg.mode != Raw && Sized(cfg, s)
    ensures var r := WhereToSend(cfg, StartQuery(cfg, s, stmt, id), noBalance, asked);
            RaiseReady(cfg, r.context.value, s.conn[cfg.realMaster].tstate) &&
            (cfg.mode == Replication && IsSelect(stmt) && SeveralTargets(cfg, r) ==> r.context.value.where[cfg.realMaster])
  {
    hide SeveralTargets;
    var r := WhereToSend(cfg, StartQuery(cfg, s, stmt, id), noBalance, asked);
    if cfg.mode == Replication && IsSelect(stmt) && r.context.value.where == Only(cfg, cfg.lbNode) {
      OneIsNotSeveral(cfg, r, cfg.lbNode);
    }
  }

  lemma SentKeepsState(c: Conn, opens: bool, gets: bool, q: Query, a: Answer)
    ensures Sent1(c, opens, gets, q, a).tstate == if gets then Started(c, opens).tstate else c.tstate
  {
    hide SendQuery;
    SendKeeps(Started(c, opens), q, a);
  }

  lemma PrepareAnswered(c: Conn, opens: bool, stmt: Stmt, id: nat, a: Answer)
    requires Quiet(c) && stmt.Prepare? && !a.Lost?
    ensures Ending(Sent1(c, opens, true, Client(stmt, id), a).queue)
  {
  }

  /** Sending leads into flight. */
  lemma RoutedFlies(cfg: Config, s: State, v: seq<Verdicts>)
    requires Routed(cfg, s) && |v| == cfg.n && SendOut(cfg, s, v).status == Continue
    requires RaiseReady(cfg, s.context.value, s.conn[cfg.realMaster].tstate)
    requires cfg.mode == Replication && IsSelect(s.context.value.stmt) && SeveralTargets(cfg, s) ==> s.context.value.where[cfg.realMaster]
    ensures InFlight(cfg, SendOut(cfg, s, v).s)
  {
    hide SendOut, Quiet, ConnOk, TheQuery, Sent1, IsSelect, SeveralTargets;
    SendOutForm(cfg, s, v);
    NotWithheldMaster(cfg, s);
    var r := SendOut(cfg, s, v).s;
    var c := r.context.value;
    forall k | 0 <= k < cfg.n && cfg.live[k] ensures ConnOk(c.where[k], r.conn[k]) {
      SentOk(s.conn[k], Opens(cfg, s), c.where[k], TheQuery(s), v[k].main);
    }
    assert Proper(cfg, c.where) by { assert c.where[c.vmaster]; }
    var m := cfg.realMaster;
    SentKeepsState(s.conn[m], Opens(cfg, s), c.where[m], TheQuery(s), v[m].main);
    assert IsSelect(c.stmt) ==> !Withheld(cfg, s, m) by { SelectNotWithheld(cfg, s, m); }
    hide Withheld, Proper;
  }

  lemma PrepareFlies(cfg: Config, s: State, v: seq<Verdicts>)
    requires Routed(cfg, s) && |v| == cfg.n && SendOut(cfg, s, v).status == Continue && s.uncompleted == None && !s.mismatch
    ensures Preparing(SendOut(cfg, s, v).s)
  {
    SendOutForm(cfg, s, v);
    var r := SendOut(cfg, s, v).s;
    if s.context.value.stmt.Prepare? {
      forall k | 0 <= k < cfg.n && r.context.value.where[k] ensures Ending(r.conn[k].queue) {
        assert cfg.live[k] && Quiet(s.conn[k]);
        PrepareAnswered(s.conn[k], Opens(cfg, s), s.context.value.stmt, s.context.value.id, v[k].main);
      }
    }
    hide SendOut, Quiet, Sent1, Withheld, Opens, Ending;
  }

  lemma SelectNotWithheld(cfg: Config, s: State, k: nat)
    requires Sized(cfg, s) && s.context.Some? && k < cfg.n
    ensures IsSelect(s.context.value.stmt) ==> !Withheld(cfg, s, k)
  {
  }

  lemma SendOutFlies(cfg: Config, s: State, stmt: Stmt, id: nat, noBalance: bool, asked: Isolation, v: seq<Verdicts>)
    requires Boundary(cfg, s) && |v| == cfg.n && !stmt.ShowPool?
    requires SimpleQuery(cfg, s, stmt, id, noBalance, asked, v).status == Continue
    ensures InFlight(cfg, SimpleQuery(cfg, s, stmt, id, noBalance, asked, v).s)
    ensures Preparing(SimpleQuery(cfg, s, stmt, id, noBalance, asked, v).s)
  {
    TargetsAreProper(cfg, s, stmt, id, noBalance, asked);
    RouteRaiseReady(cfg, s, stmt, id, noBalance, asked);
    var t := WhereToSend(cfg, StartQuery(cfg, s, stmt, id), noBalance, asked);
    assert SimpleQuery(cfg, s, stmt, id, noBalance, asked, v) == SendOut(cfg, t, v);
    hide WhereToSend, StartQuery, SimpleQuery, SendOut, InFlight, IsSelect, SeveralTargets, Proper;
    RoutedFlies(cfg, t, v);
    PrepareFlies(cfg, t, v);
  }
}
