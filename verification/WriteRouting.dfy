/** In master/slave mode a block that has written reads its own writes: once a statement other than a
    read SELECT has completed in a block, every later SELECT of the block goes to the primary. */
module WriteRouting {
  import opened Options
  import opened Statements
  import opened Postgres
  import opened SessionModel
  import opened Batches
  import opened CommitOrder
  import opened Framing
  import opened Reading
  import opened Settlement
  import opened Forgetting
  import opened StatementBoundary

  /** The session knows a reason not to balance the SELECTs of the block it is in. */
  predicate Pinned(s: State) { s.writing || s.failed || s.isolation == Serializable }

  /** While the session is pinned and the primary is not idle, a SELECT goes to the primary alone. */
  lemma PinnedSelect(cfg: Config, s: State, p: Step)
    requires Sized(cfg, s) && cfg.mode == MasterSlave && Pinned(s) && s.conn[cfg.PrimaryNode()].tstate != Idle
    requires p.stmt.Select? || IsSelect(p.stmt)
    ensures RoutedTo(cfg, s, p) == Only(cfg, cfg.PrimaryNode())
  {
    hide Only, FirstTarget;
  }

  /** Whatever its state, in master/slave mode a SELECT has one target. */
  lemma SelectHasOneTarget(cfg: Config, s: State, p: Step) returns (i: nat)
    requires cfg.WellFormed() && Sized(cfg, s) && cfg.mode == MasterSlave && IsSelect(p.stmt)
    ensures i < cfg.n && cfg.live[i] && RoutedTo(cfg, s, p) == Only(cfg, i)
  {
    i := if RoutedTo(cfg, s, p) == Only(cfg, cfg.lbNode) then cfg.lbNode else cfg.PrimaryNode();
    hide Only, FirstTarget;
  }

  predicate Writes(stmt: Stmt) { !IsSelect(stmt) && !SetsSerializable(stmt) && !IsTwoPhase(stmt) }

  /** How the session's history stands after a statement to how it stood at its beginning. A PREPARE that
      fails may leave no trace, except that a failure in an open block is noted. */
  ghost predicate HistoryKept(stmt: Stmt, open: bool, s: State, r: State) {
    (s.failed ==> r.failed) && (s.commandSuccess ==> r.commandSuccess) &&
    (r.commandSuccess ==>
      (r.writing == (s.writing || Writes(stmt)) && r.isolation == if SetsSerializable(stmt) then Serializable else s.isolation) ||
      (stmt.Prepare? && r.writing == s.writing && r.isolation == s.isolation && (open ==> r.failed)))
  }

  /** The client's transaction is open, as far as the session knows. */
  predicate Open(cfg: Config, s: State) { 0 <= cfg.MainNode() < |s.conn| && s.conn[cfg.MainNode()].tstate != Idle }

  ghost predicate SameHistory(s: State, r: State) {
    r.writing == s.writing && r.isolation == s.isolation && (s.failed ==> r.failed) && (s.commandSuccess ==> r.commandSuccess)
  }

  lemma RememberHistory(s: State, open: bool)
    requires s.context.Some? && !IsStart(s.context.value.stmt)
    ensures HistoryKept(s.context.value.stmt, open, s, if s.commandSuccess then Remembered(s) else s)
  {
    hide IsSelect, SetsSerializable;
  }

  lemma ReadyHistory(cfg: Config, s: State, v: seq<Verdicts>)
    requires InFlight(cfg, s) && |v| == cfg.n && Agree(cfg, s) && Head(s, s.context.value.vmaster).Ready?
    requires !IsStart(s.context.value.stmt) && ReadyForQuery(cfg, Begun(cfg, s), v).status == Continue
    ensures HistoryKept(s.context.value.stmt, Open(cfg, s), s, ReadyForQuery(cfg, Begun(cfg, s), v).s)
  {
    var h := Begun(cfg, s);
    BegunSettles(cfg, s);
    ReachesIfContinues(cfg, h, v);
    var t := SettledForm(cfg, h, v);
    SettledQuiet(cfg, h, t, v);
    CloseForm(cfg, t, v);
    RememberHistory(t, Open(cfg, s));
    hide Begun, ReadyForQuery, CloseQuery, Remembered, InFlight, Settling, Agree, Writes, SetsSerializable, IsStart, ClosesStandby;
  }

  lemma RaiseKeepsState(cfg: Config, t: State, o: Outcome)
    requires NearReady(cfg, t) && RaisedTo(cfg, t, o, Raised(cfg, t))
    ensures |o.s.conn| == |t.conn| && forall k :: 0 <= k < |t.conn| ==> o.s.conn[k].tstate == t.conn[k].tstate
    ensures o.s.context.Some? && o.s.context.value.stmt == t.context.value.stmt
  {
    hide Raised;
  }

  lemma ReadKeepsState(cfg: Config, s: State)
    requires InFlight(cfg, s)
    ensures |ReadBodies(cfg, Begun(cfg, s)).conn| == |s.conn|
    ensures forall k :: 0 <= k < |s.conn| ==> ReadBodies(cfg, Begun(cfg, s)).conn[k].tstate == s.conn[k].tstate
  {
    forall k | 0 <= k < cfg.n ensures ReadBodies(cfg, Begun(cfg, s)).conn[k].tstate == s.conn[k].tstate { ReadForm(cfg, s, k); }
    hide Begun, ReadBodies;
  }

  /** How a message read before the readiness message leaves the session. */
  ghost predicate Continues(cfg: Config, s: State, r: State)
    requires s.context.Some?
  {
    SameHistory(s, r) && (Open(cfg, r) <==> Open(cfg, s)) &&
    if r.context.Some? then InFlight(cfg, r) && Preparing(r) && r.context.value.stmt == s.context.value.stmt
    else Forgotten(cfg, r) && s.context.value.stmt.Prepare? && r.commandSuccess && (Open(cfg, s) ==> r.failed)
  }

  lemma ErrorHistory(cfg: Config, s: State, v: seq<Verdicts>)
    requires InFlight(cfg, s) && Preparing(s) && |v| == cfg.n && Agree(cfg, s) && Head(s, s.context.value.vmaster).Error?
    ensures var r := ErrorResponse(cfg, Begun(cfg, s), v).s;
            Continues(cfg, s, r) && (Open(cfg, s) ==> r.failed)
  {
    var t := ReadBodies(cfg, Begun(cfg, s));
    ErrorKept(cfg, s, v);
    ErrorLeads(cfg, s, v);
    ReadKeepsState(cfg, s);
    hide InFlight, Begun, ReadBodies, RaiseError, Raised, Agree, ErrorResponse, NoteFailure, Forgotten, RaisedTo;
    RaiseKeepsState(cfg, t, RaiseError(cfg, t, v));
  }

  lemma CompleteHistory(cfg: Config, s: State)
    requires InFlight(cfg, s) && Preparing(s) && Agree(cfg, s) && Head(s, s.context.value.vmaster).Complete?
    requires !IsStart(s.context.value.stmt)
    ensures Continues(cfg, s, Completed(cfg, s).(commandSuccess := true))
  {
    CompletedFields(cfg, s);
    CompletedConn(cfg, s, cfg.MainNode());
    CompleteProgress(cfg, s);
    UnpreparedIs(Completed(cfg, s).(commandSuccess := true));
    hide InFlight, Completed, Preparing, Agree, Progress;
  }

  lemma RowHistory(cfg: Config, s: State)
    requires InFlight(cfg, s) && Preparing(s) && Agree(cfg, s)
    requires var m := Head(s, s.context.value.vmaster); !m.Ready? && !m.Complete? && !m.Error?
    ensures var r := ReadBodies(cfg, Begun(cfg, s));
            Continues(cfg, s, r)
  {
    OtherResponse(cfg, s);
    ReadForm(cfg, s, s.context.value.vmaster);
    ReadKeepsState(cfg, s);
    hide InFlight, Preparing, Begun, ReadBodies, Agree, Progress;
  }

  /** Until the readiness message the history changes only by a failure being noted. */
  lemma OtherHistory(cfg: Config, s: State, v: seq<Verdicts>)
    requires InFlight(cfg, s) && Preparing(s) && |v| == cfg.n && Agree(cfg, s) && !Head(s, s.context.value.vmaster).Ready?
    requires !IsStart(s.context.value.stmt)
    ensures var o := ProcessBackendResponse(cfg, s, v);
            o.status == Continue && o.s.inProgress && Continues(cfg, s, o.s)
    ensures Head(s, s.context.value.vmaster).Error? && Open(cfg, s) ==> ProcessBackendResponse(cfg, s, v).s.failed
  {
    ResponseIs(cfg, s, v);
    var m := Head(s, s.context.value.vmaster);
    hide ProcessBackendResponse, InFlight, Preparing, Agree, Begun, ReadBodies, ErrorResponse, Completed, Continues, IsStart;
    if m.Error? {
      ErrorLeads(cfg, s, v);
      ErrorHistory(cfg, s, v);
    } else if m.Complete? {
      CompleteHistory(cfg, s);
    } else {
      RowHistory(cfg, s);
    }
    ContinuingInProgress(cfg, s, ProcessBackendResponse(cfg, s, v).s);
  }

  lemma ContinuingInProgress(cfg: Config, s: State, r: State)
    requires s.context.Some?
    ensures Continues(cfg, s, r) ==> r.inProgress
  {
  }

  lemma UnpreparedIs(s: State)
    requires s.uncompleted == None
    ensures Preparing(s)
  {
  }

  /** A statement whose context is gone leaves no further trace. */
  lemma ForgottenHistory(cfg: Config, s: State, v: seq<Verdicts>)
    requires Forgotten(cfg, s) && |v| == cfg.n && Drive(cfg, s, v).status == Continue
    ensures SameHistory(s, Drive(cfg, s, v).s)
  {
    DriveStep(cfg, s, v);
    ForgottenResponse(cfg, s, v);
    ForgottenKept(cfg, s, v);
    var t := Shade(cfg, s);
    hide ProcessBackendResponse, ReadyForQuery, Begun, Agree, Drive, NearReady, InFlight;
    NearFlies(cfg, t);
    ReadyHistory(cfg, t, v);
  }

  lemma FlowsOn(cfg: Config, s: State, v: seq<Verdicts>)
    requires InFlight(cfg, s) && Preparing(s) && |v| == cfg.n && ProcessBackendResponse(cfg, s, v).status == Continue
    ensures Agree(cfg, s) && s.conn[s.context.value.vmaster].queue != []
    ensures Head(s, s.context.value.vmaster).Ready? ==>
              ProcessBackendResponse(cfg, s, v) == ReadyForQuery(cfg, Begun(cfg, s), v) && !ProcessBackendResponse(cfg, s, v).s.inProgress
  {
    ResponseIs(cfg, s, v);
    hide ProcessBackendResponse, ReadyForQuery, Begun, InFlight;
    if Head(s, s.context.value.vmaster).Ready? {
      ReadyResponse(cfg, s, v);
      hide Agree;
    }
  }

  lemma HistoryComposes(cfg: Config, s: State, m: State, r: State)
    requires s.context.Some? && Continues(cfg, s, m)
    requires if m.context.Some? then HistoryKept(s.context.value.stmt, Open(cfg, m), m, r) else SameHistory(m, r)
    ensures HistoryKept(s.context.value.stmt, Open(cfg, s), s, r)
  {
    hide InFlight, Forgotten, Preparing, Open, Writes, SetsSerializable;
  }

  lemma Continuing(cfg: Config, s: State, m: State)
    requires s.context.Some? && Continues(cfg, s, m)
    ensures if m.context.Some? then InFlight(cfg, m) && Preparing(m) && m.context.value.stmt == s.context.value.stmt else Forgotten(cfg, m)
  {
  }

  lemma {:induction false} DriveHistory(cfg: Config, s: State, v: seq<Verdicts>)
    requires InFlight(cfg, s) && Preparing(s) && |v| == cfg.n && !IsStart(s.context.value.stmt) && Drive(cfg, s, v).status == Continue
    ensures HistoryKept(s.context.value.stmt, Open(cfg, s), s, Drive(cfg, s, v).s)
    decreases |s.conn[MasterNode(cfg, s)].queue|
  {
    DriveStep(cfg, s, v);
    FlyingNode(cfg, s);
    ResponseKept(cfg, s, v);
    var o := ProcessBackendResponse(cfg, s, v);
    hide ProcessBackendResponse, InFlight, Preparing, Boundary, Drive, Agree, IsStart, Flying, Continues, HistoryKept, SameHistory;
    FlowsOn(cfg, s, v);
    if Head(s, s.context.value.vmaster).Ready? {
      ReadyHistory(cfg, s, v);
    } else {
      OtherHistory(cfg, s, v);
      Continuing(cfg, s, o.s);
      if o.s.context.Some? { DriveHistory(cfg, o.s, v); } else { ForgottenHistory(cfg, o.s, v); }
      HistoryComposes(cfg, s, o.s, Drive(cfg, o.s, v).s);
    }
  }

  // ---------------------------------------------------------------------------------------
  // Whole statements
  // ---------------------------------------------------------------------------------------

  /** The session when the statement has been sent. */
  function SentState(cfg: Config, s: State, p: Step): Outcome
    requires Sized(cfg, s) && |p.v| == cfg.n
  {
    SimpleQuery(cfg, s, p.stmt, p.id, p.noBalance, p.asked, p.v)
  }

  /** Sending forgets that the session has written only when it opens a transaction, which it does neither
      for a SELECT nor for a two-phase command. */
  lemma SentHistory(cfg: Config, s: State, p: Step)
    requires Boundary(cfg, s) && |p.v| == cfg.n && !p.stmt.ShowPool? && cfg.mode == MasterSlave
    requires SentState(cfg, s, p).status == Continue
    ensures var r := SentState(cfg, s, p).s;
            InFlight(cfg, r) && Preparing(r) && r.context.value.stmt == p.stmt &&
            r.failed == s.failed && r.commandSuccess == s.commandSuccess &&
            (s.isolation == Serializable ==> r.isolation == Serializable) &&
            (IsSelect(p.stmt) || IsTwoPhase(p.stmt) ==> r.writing == s.writing)
  {
    var t := Routing(cfg, s, p);
    RoutingIs(cfg, s, p);
    if IsSelect(p.stmt) || IsTwoPhase(p.stmt) {
      OpensNothing(cfg, s, p);
      UnopenedWriting(cfg, t, p.v);
    }
    SendOutFlies(cfg, s, p.stmt, p.id, p.noBalance, p.asked, p.v);
    hide *;
    SendOutForm(cfg, t, p.v);
  }

  lemma RoutingIs(cfg: Config, s: State, p: Step)
    requires Boundary(cfg, s) && |p.v| == cfg.n && !p.stmt.ShowPool?
    ensures var t := Routing(cfg, s, p);
            Routed(cfg, t) && SentState(cfg, s, p) == SendOut(cfg, t, p.v) && t.context.value.stmt == p.stmt &&
            t.failed == s.failed && t.commandSuccess == s.commandSuccess && t.writing == s.writing && t.uncompleted == None &&
            (s.isolation == Serializable ==> t.isolation == Serializable)
  {
    TargetsAreProper(cfg, s, p.stmt, p.id, p.noBalance, p.asked);
    KnownStays(cfg, s, p);
    hide WhereToSend, StartQuery, SendOut;
  }

  lemma OpensNothing(cfg: Config, s: State, p: Step)
    requires cfg.WellFormed() && Sized(cfg, s) && cfg.mode == MasterSlave && (IsSelect(p.stmt) || IsTwoPhase(p.stmt))
    requires Routing(cfg, s, p).context.value.stmt == p.stmt
    ensures !(SeveralTargets(cfg, Routing(cfg, s, p)) && NeedsInternalTransaction(Routing(cfg, s, p).context.value.stmt))
  {
    if IsSelect(p.stmt) {
      var i := SelectHasOneTarget(cfg, s, p);
      OneIsNotSeveral(cfg, Routing(cfg, s, p), i);
    }
    hide SeveralTargets, Route, FollowPrepare;
  }

  lemma KnownStays(cfg: Config, s: State, p: Step)
    requires Sized(cfg, s)
    ensures s.isolation == Serializable ==>
              WhereToSend(cfg, StartQuery(cfg, s, p.stmt, p.id), p.noBalance, p.asked).isolation == Serializable
  {
    hide IsSelect, SendToWhere, FollowPrepare, FirstTarget;
  }

  lemma UnopenedWriting(cfg: Config, t: State, v: seq<Verdicts>)
    requires Routed(cfg, t) && |v| == cfg.n && !(SeveralTargets(cfg, t) && NeedsInternalTransaction(t.context.value.stmt))
    ensures SendOut(cfg, t, v).s.writing == t.writing
  {
    hide SeveralTargets, NeedsInternalTransaction, SendAndWait;
  }

  /** A PREPARE goes to the primary, alone or with the others. */
  lemma PrepareReachesPrimary(cfg: Config, s: State, p: Step)
    requires cfg.WellFormed() && Sized(cfg, s) && cfg.mode == MasterSlave && p.stmt.Prepare?
    ensures Routing(cfg, s, p).context.value.where[cfg.PrimaryNode()]
  {
    hide FirstTarget, SendToWhere;
  }

  lemma SentStillOpen(c: Conn, opens: bool, gets: bool, q: Query, a: Answer)
    ensures c.tstate != Idle ==> Sent1(c, opens, gets, q, a).tstate != Idle
    ensures Quiet(c) && opens && gets ==> Sent1(c, opens, gets, q, a).tstate != Idle
  {
    SentKeepsState(c, opens, gets, q, a);
    hide Sent1;
  }

  /** An open block stays open while a statement is sent; and a PREPARE that opens transactions opens one on
      the primary too. */
  lemma SentOpen(cfg: Config, s: State, p: Step)
    requires Boundary(cfg, s) && |p.v| == cfg.n && !p.stmt.ShowPool? && cfg.mode == MasterSlave
    requires SentState(cfg, s, p).status == Continue
    ensures var r := SentState(cfg, s, p).s;
            (Open(cfg, s) ==> Open(cfg, r)) && (p.stmt.Prepare? ==> r.writing == s.writing || Open(cfg, r))
  {
    var k := cfg.PrimaryNode();
    var t := Routing(cfg, s, p);
    RoutingIs(cfg, s, p);
    TargetsAreProper(cfg, s, p.stmt, p.id, p.noBalance, p.asked);
    if p.stmt.Prepare? {
      PrepareReachesPrimary(cfg, s, p);
      assert !Withheld(cfg, t, k);
      if !Opens(cfg, t) { UnopenedWriting(cfg, t, p.v); }
    }
    assert Quiet(s.conn[k]) && t.conn == s.conn && k == cfg.MainNode();
    var r := SentState(cfg, s, p).s;
    hide Routing, SendOut, Withheld, Opens, Sent1, Boundary, Routed, Quiet, NotePrepare, TheQuery, SentState, Open, SeveralTargets;
    SendOutForm(cfg, t, p.v);
    SentStillOpen(s.conn[k], Opens(cfg, t), r.context.value.where[k], TheQuery(t), p.v[k].main);
    OpenIs(cfg, s, r);
  }

  lemma OpenIs(cfg: Config, s: State, r: State)
    requires 0 <= cfg.MainNode() < |r.conn| == |s.conn|
    ensures Open(cfg, s) <==> s.conn[cfg.MainNode()].tstate != Idle
    ensures Open(cfg, r) <==> r.conn[cfg.MainNode()].tstate != Idle
  {
  }

  /** Nothing but a BEGIN takes the reason away, although opening a transaction of pgpool's own forgets for
      a while that the session has written. */
  lemma PinStays(cfg: Config, s: State, p: Step)
    requires Boundary(cfg, s) && |p.v| == cfg.n && cfg.mode == MasterSlave && s.commandSuccess && Pinned(s)
    requires !IsStart(p.stmt) && RunStep(cfg, s, p).status == Continue
    ensures Pinned(RunStep(cfg, s, p).s) && RunStep(cfg, s, p).s.commandSuccess
  {
    if !p.stmt.ShowPool? {
      var r := SentState(cfg, s, p);
      assert RunStep(cfg, s, p) == if r.status == End then r else Drive(cfg, r.s, p.v);
      hide SentState, RunStep, Drive, IsStart, IsSelect, SetsSerializable, IsTwoPhase, InFlight, Boundary, Preparing, Open;
      SentHistory(cfg, s, p);
      SentOpen(cfg, s, p);
      DriveHistory(cfg, r.s, p.v);
    }
  }

  // ---------------------------------------------------------------------------------------
  // Two-phase commands, which count neither as reads nor as writes
  // ---------------------------------------------------------------------------------------

  /** A two-phase command either fails or takes the primary out of its block. */
  ghost predicate TwoPhaseMark(cfg: Config, s: State) {
    InFlight(cfg, s) && IsTwoPhase(s.context.value.stmt) && s.context.value.where[cfg.PrimaryNode()] &&
    s.conn[cfg.PrimaryNode()].tstate != Idle && s.uncompleted == None &&
    (s.failed || HasError(s.conn[cfg.PrimaryNode()].queue) || s.conn[cfg.PrimaryNode()].remote.state == Idle)
  }

  lemma TwoPhaseAnswers(b: Remote, stmt: Stmt, id: nat, a: Answer)
    requires IsTwoPhase(stmt) && !a.Lost?
    ensures var r := Respond(b, Client(stmt, id), a);
            HasError(Wrap(r.msgs)) || r.remote.state == Idle
  {
  }

  lemma SettledIdle(c: Conn, mismatch: bool, a: Answer)
    ensures c.remote.state == Idle ==> Settled(c, mismatch, a).tstate == Idle
  {
  }

  /** A main node that is idle stays so through ReadyForQuery. */
  lemma ReadyMain(cfg: Config, s: State, v: seq<Verdicts>, k: nat)
    requires InFlight(cfg, s) && |v| == cfg.n && Agree(cfg, s) && Head(s, s.context.value.vmaster).Ready?
    requires ReadyForQuery(cfg, Begun(cfg, s), v).status == Continue && k == cfg.MainNode() && s.context.value.where[k]
    ensures var r := ReadyForQuery(cfg, Begun(cfg, s), v).s;
            |r.conn| == cfg.n && (s.conn[k].remote.state == Idle ==> r.conn[k].tstate == Idle)
  {
    var h := Begun(cfg, s);
    BegunSettles(cfg, s);
    ReachesIfContinues(cfg, h, v);
    var t := SettledForm(cfg, h, v);
    SettledQuiet(cfg, h, t, v);
    CloseForm(cfg, t, v);
    assert !ClosesStandby(cfg, t, k);
    SettledIdle(h.conn[k], h.mismatch, v[k].commit);
    hide Begun, ReadyForQuery, CloseQuery, Remembered, InFlight, Settling, Agree, ClosesStandby, Settled;
  }

  lemma TwoPhaseParts(cfg: Config, s: State)
    requires TwoPhaseMark(cfg, s)
    ensures InFlight(cfg, s) && Sized(cfg, s) && s.context.Some? && !IsStart(s.context.value.stmt) && !IsSelect(s.context.value.stmt)
    ensures s.uncompleted == None && Preparing(s)
    ensures s.context.value.vmaster < |s.conn| && cfg.PrimaryNode() < cfg.n && s.context.value.where[cfg.PrimaryNode()]
    ensures s.conn[cfg.PrimaryNode()].tstate != Idle
    ensures s.failed || HasError(s.conn[cfg.PrimaryNode()].queue) || s.conn[cfg.PrimaryNode()].remote.state == Idle
  {
    hide HasError;
  }

  lemma ReadyTwoPhase(cfg: Config, s: State, v: seq<Verdicts>)
    requires TwoPhaseMark(cfg, s) && cfg.mode == MasterSlave && |v| == cfg.n && Agree(cfg, s) && Head(s, s.context.value.vmaster).Ready?
    requires ReadyForQuery(cfg, Begun(cfg, s), v).status == Continue
    ensures var r := ReadyForQuery(cfg, Begun(cfg, s), v).s;
            |r.conn| == cfg.n && (s.failed || r.conn[cfg.PrimaryNode()].tstate == Idle)
  {
    var k := cfg.PrimaryNode();
    TwoPhaseParts(cfg, s);
    assert k == cfg.MainNode();
    hide *;
    NoErrorAtReady(cfg, s, k);
    ReadyMain(cfg, s, v, k);
  }

  lemma NoErrorAtReady(cfg: Config, s: State, k: nat)
    requires InFlight(cfg, s) && Agree(cfg, s) && Head(s, s.context.value.vmaster).Ready? && k < cfg.n && s.context.value.where[k]
    ensures !HasError(s.conn[k].queue)
  {
    SameKind(cfg, s, k);
    TargetTail(cfg, s, k);
    hide InFlight, Agree;
    ReadyTail(s.conn[k]);
  }

  lemma PopError(c: Conn)
    requires ConnOk(true, c) && !c.queue[0].msg.Ready? && !c.queue[0].msg.Error?
    ensures HasError(Pop(c).queue) <==> HasError(c.queue)
  {
  }

  /** Node k after a message that is neither an error nor the readiness message. */
  lemma OtherConn(cfg: Config, s: State, v: seq<Verdicts>, k: nat)
    requires InFlight(cfg, s) && |v| == cfg.n && Agree(cfg, s) && k < cfg.n && s.context.value.where[k] && !IsStart(s.context.value.stmt)
    requires !Head(s, s.context.value.vmaster).Ready? && !Head(s, s.context.value.vmaster).Error?
    ensures s.conn[k].queue != [] && ProcessBackendResponse(cfg, s, v).s.conn[k] == Pop(s.conn[k])
    ensures ProcessBackendResponse(cfg, s, v).s.context == s.context
    ensures s.uncompleted == None ==> ProcessBackendResponse(cfg, s, v).s.uncompleted == None
  {
    ResponseIs(cfg, s, v);
    ReadForm(cfg, s, k);
    CompletedConn(cfg, s, k);
    CompletedFields(cfg, s);
    CompletePrepares(cfg, s);
    hide ProcessBackendResponse, InFlight, Agree, Begun, ReadBodies, Completed, IsStart;
  }

  lemma OtherTwoPhase(cfg: Config, s: State, v: seq<Verdicts>)
    requires TwoPhaseMark(cfg, s) && cfg.mode == MasterSlave && |v| == cfg.n && Agree(cfg, s) && !Head(s, s.context.value.vmaster).Ready?
    ensures TwoPhaseMark(cfg, ProcessBackendResponse(cfg, s, v).s)
  {
    var k := cfg.PrimaryNode();
    TwoPhaseParts(cfg, s);
    assert IsTwoPhase(s.context.value.stmt) && k == cfg.MainNode();
    hide *;
    TwoPhaseOpen(cfg, s);
    OtherHistory(cfg, s, v);
    if Head(s, s.context.value.vmaster).Error? {
      ErrorTwoPhase(cfg, s, v);
    } else {
      OtherConn(cfg, s, v, k);
      ErrorStays(cfg, s, k);
    }
    TwoPhaseAgain(cfg, ProcessBackendResponse(cfg, s, v).s, s.conn[k].tstate);
  }

  lemma TwoPhaseOpen(cfg: Config, s: State)
    requires TwoPhaseMark(cfg, s) && cfg.mode == MasterSlave
    ensures Open(cfg, s)
  {
  }

  lemma TwoPhaseAgain(cfg: Config, r: State, before: TState)
    requires InFlight(cfg, r) && IsTwoPhase(r.context.value.stmt) && r.context.value.where[cfg.PrimaryNode()]
    requires r.conn[cfg.PrimaryNode()].tstate == before != Idle && r.uncompleted == None
    requires r.failed || HasError(r.conn[cfg.PrimaryNode()].queue) || r.conn[cfg.PrimaryNode()].remote.state == Idle
    ensures TwoPhaseMark(cfg, r)
  {
    hide InFlight;
  }

  lemma ErrorStays(cfg: Config, s: State, k: nat)
    requires InFlight(cfg, s) && Agree(cfg, s) && k < cfg.n && s.context.value.where[k]
    requires !Head(s, s.context.value.vmaster).Ready? && !Head(s, s.context.value.vmaster).Error?
    ensures s.conn[k].queue != [] && (HasError(Pop(s.conn[k]).queue) <==> HasError(s.conn[k].queue))
    ensures Pop(s.conn[k]) == s.conn[k].(queue := Pop(s.conn[k]).queue)
  {
    SameKind(cfg, s, k);
    TargetTail(cfg, s, k);
    hide InFlight, Agree;
    PopError(s.conn[k]);
  }

  lemma ErrorTwoPhase(cfg: Config, s: State, v: seq<Verdicts>)
    requires InFlight(cfg, s) && s.uncompleted == None && !IsSelect(s.context.value.stmt) && |v| == cfg.n
    requires Agree(cfg, s) && Head(s, s.context.value.vmaster).Error?
    ensures var r := ProcessBackendResponse(cfg, s, v).s;
            r.context == s.context && r.uncompleted == None && |r.conn| == cfg.n &&
            forall k :: 0 <= k < cfg.n ==> r.conn[k].tstate == s.conn[k].tstate
  {
    ResponseIs(cfg, s, v);
    var t := ReadBodies(cfg, Begun(cfg, s));
    ErrorLeads(cfg, s, v);
    ReadKeepsState(cfg, s);
    ReadForm(cfg, s, 0);
    assert t.context == s.context;
    assert RaiseError(cfg, t, v) == Outcome(t, Continue);
    hide ProcessBackendResponse, InFlight, Agree, Begun, ReadBodies, RaiseError, ErrorResponse, NoteFailure, Forgotten, NearReady;
  }

  lemma {:induction false} DriveTwoPhase(cfg: Config, s: State, v: seq<Verdicts>)
    requires TwoPhaseMark(cfg, s) && cfg.mode == MasterSlave && |v| == cfg.n && Drive(cfg, s, v).status == Continue
    ensures var r := Drive(cfg, s, v).s;
            |r.conn| == cfg.n && (r.failed || r.conn[cfg.PrimaryNode()].tstate == Idle)
    decreases |s.conn[MasterNode(cfg, s)].queue|
  {
    assert InFlight(cfg, s) && !IsStart(s.context.value.stmt);
    DriveStep(cfg, s, v);
    FlyingNode(cfg, s);
    var o := ProcessBackendResponse(cfg, s, v);
    hide ProcessBackendResponse, InFlight, Boundary, Drive, Agree, IsStart, SetsSerializable, Writes, TwoPhaseMark, IsTwoPhase;
    FlowsOn(cfg, s, v);
    if Head(s, s.context.value.vmaster).Ready? {
      ReadyHistory(cfg, s, v);
      ReadyTwoPhase(cfg, s, v);
    } else {
      OtherHistory(cfg, s, v);
      Continuing(cfg, s, o.s);
      OtherTwoPhase(cfg, s, v);
      ResponseKept(cfg, s, v);
      FlyingNode(cfg, o.s);
      DriveTwoPhase(cfg, o.s, v);
    }
  }

  lemma SentTwoPhase(cfg: Config, s: State, p: Step)
    requires Boundary(cfg, s) && |p.v| == cfg.n && cfg.mode == MasterSlave && IsTwoPhase(p.stmt)
    requires SentState(cfg, s, p).status == Continue && s.conn[cfg.PrimaryNode()].tstate != Idle
    ensures TwoPhaseMark(cfg, SentState(cfg, s, p).s)
  {
    var k := cfg.PrimaryNode();
    var t := Routing(cfg, s, p);
    RoutingIs(cfg, s, p);
    TwoPhaseRouted(cfg, s, p);
    TwoPhaseUnwrapped(cfg, t);
    assert Quiet(s.conn[k]);
    hide InFlight, Boundary, Routed, Quiet, Respond, NotePrepare, Opens, Withheld, SendOut, Routing, Preparing;
    SentHistory(cfg, s, p);
    TwoPhaseSent(s.conn[k], p.stmt, p.id, p.v[k].main);
    hide *;
    SendOutForm(cfg, t, p.v);
    TwoPhaseAgain(cfg, SendOut(cfg, t, p.v).s, s.conn[k].tstate);
  }

  lemma TwoPhaseUnwrapped(cfg: Config, t: State)
    requires Routed(cfg, t) && IsTwoPhase(t.context.value.stmt) && t.uncompleted == None
    ensures forall k :: 0 <= k < cfg.n ==> !Withheld(cfg, t, k)
    ensures !Opens(cfg, t) && NotePrepare(t).uncompleted == None
  {
    hide SeveralTargets;
  }

  lemma TwoPhaseRouted(cfg: Config, s: State, p: Step)
    requires Boundary(cfg, s) && cfg.mode == MasterSlave && IsTwoPhase(p.stmt)
    ensures var t := Routing(cfg, s, p);
            t.context.value.where == Only(cfg, cfg.PrimaryNode()) && t.conn == s.conn &&
            TheQuery(t) == Client(p.stmt, p.id)
  {
    hide FirstTarget, Only;
  }

  lemma TwoPhaseSent(c: Conn, stmt: Stmt, id: nat, a: Answer)
    requires Quiet(c) && IsTwoPhase(stmt)
    ensures var d := Sent1(c, false, true, Client(stmt, id), a);
            d.tstate == c.tstate && (!a.Lost? ==> HasError(d.queue) || d.remote.state == Idle)
  {
    if !a.Lost? {
      TwoPhaseAnswers(c.remote, stmt, id, a);
      var r := Respond(c.remote, Client(stmt, id), a);
      assert c.queue + Wrap(r.msgs) == Wrap(r.msgs);
    }
    hide Respond, HasError;
  }

  lemma OpenAtBoundary(cfg: Config, s: State)
    requires Boundary(cfg, s) && cfg.mode == MasterSlave
    ensures s.conn[cfg.PrimaryNode()].tstate != Idle ==> Open(cfg, s)
  {
  }

  /** A statement that is not a read SELECT, answered in a block, pins the session, unless it takes the
      primary out of the block. */
  lemma WritePins(cfg: Config, s: State, p: Step)
    requires Boundary(cfg, s) && |p.v| == cfg.n && cfg.mode == MasterSlave && s.conn[cfg.PrimaryNode()].tstate != Idle
    requires !IsSelect(p.stmt) && !IsStart(p.stmt) && !p.stmt.ShowPool?
    requires RunStep(cfg, s, p).status == Continue && RunStep(cfg, s, p).s.commandSuccess
    ensures Pinned(RunStep(cfg, s, p).s) || RunStep(cfg, s, p).s.conn[cfg.PrimaryNode()].tstate == Idle
  {
    var r := SentState(cfg, s, p);
    assert RunStep(cfg, s, p) == if r.status == End then r else Drive(cfg, r.s, p.v);
    OpenAtBoundary(cfg, s);
    hide SentState, RunStep, Drive, IsStart, IsSelect, SetsSerializable, IsTwoPhase, InFlight, Boundary, Preparing, Open;
    SentHistory(cfg, s, p);
    SentOpen(cfg, s, p);
    DriveHistory(cfg, r.s, p.v);
    if IsTwoPhase(p.stmt) {
      SentTwoPhase(cfg, s, p);
      DriveTwoPhase(cfg, r.s, p.v);
    }
  }

  // ---------------------------------------------------------------------------------------
  // Runs
  // ---------------------------------------------------------------------------------------

  lemma {:induction false} PinLasts(cfg: Config, s: State, steps: seq<Step>)
    requires Boundary(cfg, s) && cfg.mode == MasterSlave && s.commandSuccess && Pinned(s) && SizedSteps(cfg, steps)
    requires forall i :: 0 <= i < |steps| ==> !IsStart(steps[i].stmt)
    requires RunAll(cfg, s, steps).status == Continue
    ensures Pinned(RunAll(cfg, s, steps).s)
    decreases |steps|
  {
    if steps != [] {
      var p := steps[0];
      PinStays(cfg, s, p);
      StatementKeepsBoundary(cfg, s, p.stmt, p.id, p.noBalance, p.asked, p.v);
      assert forall i :: 0 <= i < |steps[1..]| ==> steps[1..][i] == steps[i + 1];
      hide Boundary, RunStatement, Pinned, IsStart;
      PinLasts(cfg, RunStep(cfg, s, p).s, steps[1..]);
    }
  }

  /** Over every run: after a statement that is not a read SELECT has been answered in a block without ending
      it, every later SELECT is routed to exactly the primary, until the primary is idle or another BEGIN
      is issued. */
  lemma {:induction false} ReadsFollowWrites(cfg: Config, s: State, p: Step, between: seq<Step>, q: Step)
    requires Boundary(cfg, s) && cfg.mode == MasterSlave && |p.v| == cfg.n && SizedSteps(cfg, between)
    requires s.conn[cfg.PrimaryNode()].tstate != Idle && !IsSelect(p.stmt) && !IsStart(p.stmt) && !p.stmt.ShowPool?
    requires RunStep(cfg, s, p).status == Continue && RunStep(cfg, s, p).s.commandSuccess
    requires RunStep(cfg, s, p).s.conn[cfg.PrimaryNode()].tstate != Idle
    requires forall i :: 0 <= i < |between| ==> !IsStart(between[i].stmt)
    requires RunAll(cfg, RunStep(cfg, s, p).s, between).status == Continue
    requires RunAll(cfg, RunStep(cfg, s, p).s, between).s.conn[cfg.PrimaryNode()].tstate != Idle
    requires q.stmt.Select? || IsSelect(q.stmt)
    ensures RoutedTo(cfg, RunAll(cfg, RunStep(cfg, s, p).s, between).s, q) == Only(cfg, cfg.PrimaryNode())
  {
    WritePins(cfg, s, p);
    StatementKeepsBoundary(cfg, s, p.stmt, p.id, p.noBalance, p.asked, p.v);
    var t := RunStep(cfg, s, p).s;
    hide Boundary, RunStep, RunAll, Pinned, IsStart, IsSelect, RoutedTo;
    PinLasts(cfg, t, between);
    PinnedSelect(cfg, RunAll(cfg, t, between).s, q);
  }
}
