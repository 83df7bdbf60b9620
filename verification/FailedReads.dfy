/** In master/slave mode a SELECT that fails inside a block fails the block on the primary, whichever node it was
    sent to, so that the client's transaction is aborted where it counts; one that succeeds leaves it open. */
module FailedReads {
  import opened Options
  import opened Statements
  import opened Postgres
  import opened SessionModel
  import opened Batches
  import opened Framing
  import opened Reading
  import opened Settlement
  import opened Forgetting
  import opened StatementBoundary
  import opened WriteRouting

  /** A SELECT in progress at one node, while the primary is in a block. */
  ghost predicate ReadingOne(cfg: Config, s: State) {
    InFlight(cfg, s) && Preparing(s) && cfg.mode == MasterSlave && IsSelect(s.context.value.stmt) && !s.mismatch &&
    s.uncompleted == None && s.context.value.where == Only(cfg, s.context.value.vmaster) &&
    var p, q := cfg.PrimaryNode(), s.conn[s.context.value.vmaster].queue;
    s.conn[p].tstate == InBlock && !s.conn[p].internal &&
    s.conn[p].remote.state == if s.context.value.vmaster == p && HasError(q) then Failed else InBlock
  }

  lemma OneTarget(cfg: Config, s: State)
    requires ReadingOne(cfg, s)
    ensures forall k :: 0 <= k < cfg.n ==> (s.context.value.where[k] <==> k == s.context.value.vmaster)
    ensures var m := s.context.value.vmaster;
            ConnOk(true, s.conn[m]) && KindReadable(s.conn[m]) && (m != cfg.PrimaryNode() ==> Quiet(s.conn[cfg.PrimaryNode()]))
  {
    TargetTail(cfg, s, s.context.value.vmaster);
    assert ConnOk(s.context.value.where[cfg.PrimaryNode()], s.conn[cfg.PrimaryNode()]);
  }

  /** The readiness message takes over the state that the node is in. */
  lemma ReadyTakes(cfg: Config, s: State, v: seq<Verdicts>, k: nat)
    requires InFlight(cfg, s) && |v| == cfg.n && Agree(cfg, s) && Head(s, s.context.value.vmaster).Ready?
    requires ReadyForQuery(cfg, Begun(cfg, s), v).status == Continue && k < cfg.n
    requires !s.mismatch && !s.conn[k].internal && IsSelect(s.context.value.stmt)
    requires s.context.value.where[k] || s.conn[k].tstate == s.conn[k].remote.state
    ensures var r := ReadyForQuery(cfg, Begun(cfg, s), v).s;
            |r.conn| == cfg.n && r.conn[k].tstate == s.conn[k].remote.state &&
            (k == cfg.MainNode() ==> r.reported == s.conn[k].remote.state)
  {
    var h := Begun(cfg, s);
    BegunSettles(cfg, s);
    ReachesIfContinues(cfg, h, v);
    var t := SettledForm(cfg, h, v);
    SettledQuiet(cfg, h, t, v);
    CloseForm(cfg, t, v);
    assert !ClosesStandby(cfg, t, k);
    hide Begun, ReadyForQuery, CloseQuery, InFlight, Settling, Agree, IsSelect, ClosesStandby;
  }

  /** One connection after a row, a notice or the completion message. */
  lemma ReadOnConn(cfg: Config, s: State, v: seq<Verdicts>, k: nat)
    requires InFlight(cfg, s) && |v| == cfg.n && Agree(cfg, s) && k < cfg.n && !IsStart(s.context.value.stmt)
    requires !Head(s, s.context.value.vmaster).Ready? && !Head(s, s.context.value.vmaster).Error?
    ensures s.context.value.where[k] ==> s.conn[k].queue != []
    ensures ProcessBackendResponse(cfg, s, v).s.conn[k] == if s.context.value.where[k] then Pop(s.conn[k]) else s.conn[k]
    ensures var r := ProcessBackendResponse(cfg, s, v).s;
            r.context == s.context && (s.uncompleted == None ==> r.uncompleted == None) &&
            (r.mismatch ==> s.mismatch || RowsDiffer(s.context.value.where, s.context.value.vmaster, s.conn))
  {
    ResponseIs(cfg, s, v);
    ReadForm(cfg, s, k);
    CompletedConn(cfg, s, k);
    CompletedFields(cfg, s);
    CompletedMismatch(cfg, s);
    CompletePrepares(cfg, s);
    hide ProcessBackendResponse, InFlight, Agree, Begun, ReadBodies, Completed, IsStart, RowsDiffer;
  }

  lemma ReadOn(cfg: Config, s: State, v: seq<Verdicts>)
    requires ReadingOne(cfg, s) && |v| == cfg.n && Agree(cfg, s)
    requires !Head(s, s.context.value.vmaster).Ready? && !Head(s, s.context.value.vmaster).Error?
    ensures var r := ProcessBackendResponse(cfg, s, v).s;
            ReadingOne(cfg, r) && r.context == s.context &&
            (HasError(r.conn[s.context.value.vmaster].queue) <==> HasError(s.conn[s.context.value.vmaster].queue))
  {
    var m, p := s.context.value.vmaster, cfg.PrimaryNode();
    OneTarget(cfg, s);
    assert !IsStart(s.context.value.stmt);
    assert !RowsDiffer(s.context.value.where, m, s.conn);
    OtherHistory(cfg, s, v);
    ReadOnConn(cfg, s, v, m);
    ReadOnConn(cfg, s, v, p);
    ErrorStays(cfg, s, m);
    hide ProcessBackendResponse, InFlight, Preparing, Agree, IsSelect, HasError, IsStart, RowsDiffer, SameHistory, Open, Forgotten;
  }

  /** The error has been read, and the primary has failed and is to report it. */
  ghost predicate FailedOnPrimary(cfg: Config, r: State) {
    NearReady(cfg, r) && Preparing(r) && IsSelect(r.context.value.stmt) && !r.mismatch && cfg.mode == MasterSlave &&
    var p := cfg.PrimaryNode();
    r.context.value.where[p] && !r.conn[p].internal && r.conn[p].remote.state == Failed
  }

  lemma ErrorReads(cfg: Config, s: State, v: seq<Verdicts>)
    requires InFlight(cfg, s) && Preparing(s) && |v| == cfg.n && Agree(cfg, s) && Head(s, s.context.value.vmaster).Error?
    requires s.uncompleted == None
    ensures var o := ProcessBackendResponse(cfg, s, v);
            var u := RaiseError(cfg, ReadBodies(cfg, Begun(cfg, s)), v).s;
            o.status == Continue && NearReady(cfg, o.s) && Preparing(o.s) && o.s.inProgress && o.s.mismatch == s.mismatch &&
            o.s.context == u.context && o.s.conn == u.conn && o.s.context.value.stmt == s.context.value.stmt
  {
    ResponseIs(cfg, s, v);
    ErrorLeads(cfg, s, v);
    ErrorKept(cfg, s, v);
    UnpreparedIs(ErrorResponse(cfg, Begun(cfg, s), v).s);
    hide ProcessBackendResponse, InFlight, Preparing, Agree, Begun, ReadBodies, ErrorResponse, NoteFailure, RaiseError, NearReady,
      Forgotten, Raised;
  }

  lemma ErrorFails(cfg: Config, s: State, v: seq<Verdicts>)
    requires ReadingOne(cfg, s) && |v| == cfg.n && Agree(cfg, s) && Head(s, s.context.value.vmaster).Error?
    ensures HasError(s.conn[s.context.value.vmaster].queue)
    ensures var o := ProcessBackendResponse(cfg, s, v);
            o.status == Continue && o.s.inProgress && FailedOnPrimary(cfg, o.s)
  {
    var m, p := s.context.value.vmaster, cfg.PrimaryNode();
    OneTarget(cfg, s);
    ErrorReads(cfg, s, v);
    ErrorRead(cfg, s);
    ReadForm(cfg, s, p);
    ProvokedIff(cfg, ReadBodies(cfg, Begun(cfg, s)), v, p);
    TargetTail(cfg, s, m);
    PopAnswered(s.conn[m]);
    hide ProcessBackendResponse, InFlight, Preparing, Agree, Begun, ReadBodies, RaiseError, NearReady, IsSelect, HasError, Quiet, ConnOk;
  }

  lemma PopAnswered(c: Conn)
    requires ConnOk(true, c) && c.queue[0].msg.Error?
    ensures HasError(c.queue) && Pop(c) == c.(queue := Pop(c).queue)
  {
  }

  /** While the answer is read. */
  lemma {:induction false} DriveReads(cfg: Config, s: State, v: seq<Verdicts>)
    requires ReadingOne(cfg, s) && |v| == cfg.n && Drive(cfg, s, v).status == Continue
    ensures var r := Drive(cfg, s, v).s;
            var state := if HasError(s.conn[s.context.value.vmaster].queue) then Failed else InBlock;
            |r.conn| == cfg.n && r.conn[cfg.PrimaryNode()].tstate == state && r.reported == state
    decreases |s.conn[MasterNode(cfg, s)].queue|
  {
    var m, p := s.context.value.vmaster, cfg.PrimaryNode();
    DriveStep(cfg, s, v);
    FlyingNode(cfg, s);
    ResponseKept(cfg, s, v);
    OneTarget(cfg, s);
    var o := ProcessBackendResponse(cfg, s, v);
    assert p == cfg.MainNode();
    hide ProcessBackendResponse, InFlight, Preparing, Boundary, Drive, Agree, Flying, IsSelect, NearReady, FailedOnPrimary;
    FlowsOn(cfg, s, v);
    if Head(s, m).Ready? {
      ReadyTakes(cfg, s, v, p);
      NoErrorAtReady(cfg, s, m);
    } else if Head(s, m).Error? {
      ErrorFails(cfg, s, v);
      FailureTaken(cfg, o.s, v);
    } else {
      ReadOn(cfg, s, v);
      DriveReads(cfg, o.s, v);
    }
  }

  lemma FailureTaken(cfg: Config, r: State, v: seq<Verdicts>)
    requires FailedOnPrimary(cfg, r) && |v| == cfg.n && Drive(cfg, r, v).status == Continue
    ensures var x := Drive(cfg, r, v).s;
            |x.conn| == cfg.n && x.conn[cfg.PrimaryNode()].tstate == Failed && x.reported == Failed
  {
    NearFlies(cfg, r);
    DriveStep(cfg, r, v);
    assert AtReady(r.conn[r.context.value.vmaster], false);
    assert cfg.PrimaryNode() == cfg.MainNode();
    hide ProcessBackendResponse, InFlight, Preparing, Boundary, Drive, Agree, Flying, IsSelect, NearReady;
    FlowsOn(cfg, r, v);
    ReadyTakes(cfg, r, v, cfg.PrimaryNode());
  }

  /** Whichever node a SELECT of an open block is sent to: if it fails, the block has failed on the primary
      and the client is told so; if not, the block is open as before. */
  lemma FailedReadFailsBlock(cfg: Config, s: State, p: Step)
    requires Boundary(cfg, s) && cfg.mode == MasterSlave && IsSelect(p.stmt) && |p.v| == cfg.n
    requires s.conn[cfg.PrimaryNode()].tstate == InBlock && RunStep(cfg, s, p).status == Continue
    ensures var m := SentState(cfg, s, p).s;
            m.context.Some? &&
            var state := if HasError(m.conn[m.context.value.vmaster].queue) then Failed else InBlock;
            var r := RunStep(cfg, s, p).s;
            r.conn[cfg.PrimaryNode()].tstate == state && r.reported == state
  {
    var o := SentState(cfg, s, p);
    assert RunStep(cfg, s, p) == if o.status == End then o else Drive(cfg, o.s, p.v);
    hide SentState, RunStep, Drive, ReadingOne;
    SentReads(cfg, s, p);
    DriveReads(cfg, o.s, p.v);
  }

  /** The SELECT goes to one node, without a transaction of pgpool's own, and nothing is withheld. */
  lemma SentOne(cfg: Config, s: State, p: Step) returns (i: nat)
    requires Boundary(cfg, s) && cfg.mode == MasterSlave && IsSelect(p.stmt) && |p.v| == cfg.n
    requires SentState(cfg, s, p).status == Continue
    ensures var r := SentState(cfg, s, p).s;
            i < cfg.n && InFlight(cfg, r) && Preparing(r) && r.context.value.stmt == p.stmt && !r.mismatch && r.uncompleted == None &&
            r.context.value.vmaster == i && r.context.value.where == Only(cfg, i) && !p.v[i].main.Lost? &&
            forall k :: 0 <= k < cfg.n ==>
              r.conn[k] == if k == i then SendQuery(s.conn[k], Client(p.stmt, p.id), p.v[k].main) else s.conn[k]
  {
    var t := Routing(cfg, s, p);
    i := SelectHasOneTarget(cfg, s, p);
    RoutingIs(cfg, s, p);
    SendOutFlies(cfg, s, p.stmt, p.id, p.noBalance, p.asked, p.v);
    SendOutForm(cfg, t, p.v);
    forall k | 0 <= k < cfg.n ensures !Withheld(cfg, t, k) { SelectNotWithheld(cfg, t, k); }
    RoutedOne(cfg, s, p, i);
    hide *;
    var r := SentState(cfg, s, p).s;
    assert r.context.value.where == t.context.value.where;
    forall k | 0 <= k < cfg.n
      ensures r.conn[k] == if k == i then SendQuery(s.conn[k], Client(p.stmt, p.id), p.v[k].main) else s.conn[k]
    {
      SentUnopened(s.conn[k], r.context.value.where[k], TheQuery(t), p.v[k].main);
    }
  }

  lemma SentUnopened(c: Conn, gets: bool, q: Query, a: Answer)
    ensures Sent1(c, false, gets, q, a) == if gets then SendQuery(c, q, a) else c
  {
  }

  lemma RoutedOne(cfg: Config, s: State, p: Step, i: nat)
    requires Boundary(cfg, s) && cfg.mode == MasterSlave && IsSelect(p.stmt) && |p.v| == cfg.n && i < cfg.n
    requires RoutedTo(cfg, s, p) == Only(cfg, i) && Routed(cfg, Routing(cfg, s, p))
    ensures var t := Routing(cfg, s, p);
            t.context.value.where == Only(cfg, i) && t.context.value.vmaster == i && t.conn == s.conn && !t.mismatch &&
            TheQuery(t) == Client(p.stmt, p.id) && NotePrepare(t).uncompleted == None && !Opens(cfg, t) &&
            forall k :: 0 <= k < cfg.n ==> (t.context.value.where[k] <==> k == i)
  {
    OpensNothing(cfg, s, p);
    TargetsAreProper(cfg, s, p.stmt, p.id, p.noBalance, p.asked);
    hide WhereToSend, SeveralTargets, Proper;
  }

  lemma SentReads(cfg: Config, s: State, p: Step)
    requires Boundary(cfg, s) && cfg.mode == MasterSlave && IsSelect(p.stmt) && |p.v| == cfg.n
    requires s.conn[cfg.PrimaryNode()].tstate == InBlock && SentState(cfg, s, p).status == Continue
    ensures ReadingOne(cfg, SentState(cfg, s, p).s)
  {
    var i := SentOne(cfg, s, p);
    var k := cfg.PrimaryNode();
    assert Quiet(s.conn[k]);
    ReadAnswer(s.conn[k], p.stmt, p.id, p.v[k].main);
    hide InFlight, Preparing, SentState, IsSelect, HasError, AllQuiet, ProperLists, SendQuery;
  }

  lemma ReadAnswer(c: Conn, stmt: Stmt, id: nat, a: Answer)
    requires Quiet(c) && c.tstate == InBlock && IsSelect(stmt)
    ensures var d := SendQuery(c, Client(stmt, id), a);
            d.tstate == InBlock && !d.internal && (!a.Lost? ==> d.remote.state == if HasError(d.queue) then Failed else InBlock)
  {
  }
}
