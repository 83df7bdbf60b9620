/** Every statement that the session survives leads from the boundary between statements back to it. */
module StatementBoundary {
  import opened Options
  import opened Statements
  import opened Postgres
  import opened SessionModel
  import opened Batches
  import opened CommitOrder
  import opened Framing
  import opened Reading
  import opened Settlement
  import opened Forgetting

  /** A standby whose transaction has been committed after a two-phase command. */
  function Standby(c: Conn, a: Answer): Conn {
    c.(remote := RespondCommit(c.remote, a).remote, tstate := Idle)
  }

  predicate ClosesStandby(cfg: Config, s: State, k: nat)
    requires Sized(cfg, s) && s.context.Some? && k < cfg.n
  {
    IsTwoPhase(s.context.value.stmt) && s.commandSuccess && s.conn[k].tstate == InBlock && cfg.up[k] && k != cfg.MainNode()
  }

  lemma CloseStandbyForm(cfg: Config, s: State, v: seq<Verdicts>)
    requires cfg.WellFormed() && Sized(cfg, s) && |v| == cfg.n && AllQuiet(cfg, s.conn)
    requires CloseStandby(cfg, s, v).status == Continue
    ensures var r := CloseStandby(cfg, s, v).s;
            forall k :: 0 <= k < cfg.n ==>
              r.conn[k] == (if s.conn[k].tstate == InBlock && cfg.up[k] && k != cfg.MainNode()
                            then Standby(s.conn[k], v[k].commit) else s.conn[k]) &&
              (s.conn[k].tstate == InBlock && cfg.up[k] && k != cfg.MainNode() ==> !v[k].commit.Lost?)
  {
    var mask := seq(cfg.n, k requires 0 <= k < cfg.n => s.conn[k].tstate == InBlock && cfg.up[k] && k != cfg.MainNode());
    hide Act, RunOn;
    RunOnSucceeds(cfg, s, CommitStandby, mask, v);
    forall k | 0 <= k < cfg.n && mask[k]
      ensures Act(CommitStandby, s.conn[k], v[k]).ok <==> !v[k].commit.Lost?
      ensures Act(CommitStandby, s.conn[k], v[k]).ok ==> Act(CommitStandby, s.conn[k], v[k]).c == Standby(s.conn[k], v[k].commit)
    {
      CommitStandbyActs(s.conn[k], v[k]);
    }
  }

  lemma StandbyQuiet(c: Conn, a: Answer)
    requires Quiet(c) && !a.Lost?
    ensures Quiet(Standby(c, a))
  {
    CommitAnswer(c.remote, a);
  }

  /** The session with its history brought up to date. */
  function Remembered(s: State): State
    requires s.context.Some?
  {
    var h := Remember(s.context.value.stmt, History(s.writing, s.failed, s.isolation));
    s.(writing := h.writing, failed := h.failed, isolation := h.isolation)
  }

  lemma NotedIs(cfg: Config, s: State, v: seq<Verdicts>)
    requires Sized(cfg, s) && |v| == cfg.n && s.context.Some?
    ensures NoteOutcome(cfg, s, v) ==
            if IsTwoPhase(s.context.value.stmt) then CloseStandby(cfg, Remembered(s), v) else Outcome(Remembered(s), Continue)
  {
    hide CloseStandby, Remember;
  }

  lemma NotedForm(cfg: Config, s: State, v: seq<Verdicts>)
    requires cfg.WellFormed() && Sized(cfg, s) && |v| == cfg.n && AllQuiet(cfg, s.conn) && s.context.Some? && s.commandSuccess
    requires NoteOutcome(cfg, s, v).status == Continue
    ensures var r := NoteOutcome(cfg, s, v).s;
            r == Remembered(s).(conn := r.conn, log := r.log) &&
            forall k :: 0 <= k < cfg.n ==>
              r.conn[k] == (if ClosesStandby(cfg, s, k) then Standby(s.conn[k], v[k].commit) else s.conn[k]) &&
              (ClosesStandby(cfg, s, k) ==> !v[k].commit.Lost?)
  {
    hide CloseStandby, Standby, IsTwoPhase, NoteOutcome, Remember;
    NotedIs(cfg, s, v);
    if IsTwoPhase(s.context.value.stmt) {
      CloseStandbyForm(cfg, Remembered(s), v);
    }
  }

  /** The end of ReadyForQuery. */
  lemma CloseForm(cfg: Config, s: State, v: seq<Verdicts>)
    requires cfg.WellFormed() && Sized(cfg, s) && |v| == cfg.n && AllQuiet(cfg, s.conn) && s.inProgress && s.context.Some?
    requires CloseQuery(cfg, s, v).status == Continue
    ensures var r := CloseQuery(cfg, s, v).s;
            var h := if s.commandSuccess then Remembered(s) else s;
            r == h.(conn := r.conn, log := r.log, inProgress := false, context := r.context) &&
            |r.conn| == cfg.n && r.context == if s.commandSuccess && s.context.value.stmt.Prepare? then s.context else None
    ensures var r := CloseQuery(cfg, s, v).s;
            forall k :: 0 <= k < cfg.n ==>
              r.conn[k] == (if ClosesStandby(cfg, s, k) then Standby(s.conn[k], v[k].commit) else s.conn[k]) &&
              (ClosesStandby(cfg, s, k) ==> !v[k].commit.Lost?)
  {
    hide NoteOutcome, Standby, Remember;
    if s.commandSuccess {
      NotedForm(cfg, s, v);
    }
  }

  // ---------------------------------------------------------------------------------------
  // From message to message
  // ---------------------------------------------------------------------------------------

  lemma SettledQuiet(cfg: Config, s: State, t: State, v: seq<Verdicts>)
    requires Settling(cfg, s) && |v| == |t.conn| == cfg.n
    requires forall k :: 0 <= k < cfg.n ==>
               t.conn[k] == if s.context.value.where[k] then Settled(s.conn[k], s.mismatch, v[k].commit) else s.conn[k]
    ensures AllQuiet(cfg, t.conn)
  {
  }

  lemma ReadyKept(cfg: Config, s: State, v: seq<Verdicts>)
    requires Settling(cfg, s) && |v| == cfg.n && ReadyForQuery(cfg, s, v).status == Continue && s.uncompleted == None
    ensures Boundary(cfg, ReadyForQuery(cfg, s, v).s)
  {
    ReachesIfContinues(cfg, s, v);
    var t := SettledForm(cfg, s, v);
    SettledQuiet(cfg, s, t, v);
    CloseForm(cfg, t, v);
    var r := CloseQuery(cfg, t, v).s;
    forall k | 0 <= k < cfg.n && cfg.live[k] ensures Quiet(r.conn[k]) {
      assert Quiet(t.conn[k]);
      if ClosesStandby(cfg, t, k) { StandbyQuiet(t.conn[k], v[k].commit); }
    }
    hide ReadyForQuery, CloseQuery, ClosesStandby, Quiet, HalfRead, Proper, Settled, Standby, Remember;
  }

  lemma ResponseIs(cfg: Config, s: State, v: seq<Verdicts>)
    requires InFlight(cfg, s) && |v| == cfg.n && Agree(cfg, s)
    ensures s.conn[s.context.value.vmaster].queue != []
    ensures var o := ProcessBackendResponse(cfg, s, v);
            match Head(s, s.context.value.vmaster)
            case Ready(_) => o == ReadyForQuery(cfg, Begun(cfg, s), v)
            case Error => o == ErrorResponse(cfg, Begun(cfg, s), v)
            case Complete(_) => o == Outcome(Completed(cfg, s).(commandSuccess := true), Continue)
            case _ => o == Outcome(ReadBodies(cfg, Begun(cfg, s)), Continue)
  {
    hide ReadyForQuery, ErrorResponse, CommandComplete, ReadBodies, ReadKinds;
  }

  lemma SuccessFlies(cfg: Config, s: State)
    requires InFlight(cfg, s)
    ensures InFlight(cfg, s.(commandSuccess := true))
  {
    hide Proper, ConnsOk, RaiseReady;
  }

  /** While a statement is in progress, also one whose context has gone with its PREPARE. */
  ghost predicate Flying(cfg: Config, s: State) {
    (InFlight(cfg, s) && Preparing(s)) || Forgotten(cfg, s)
  }

  lemma FlyingNode(cfg: Config, s: State)
    requires Flying(cfg, s)
    ensures s.inProgress && Sized(cfg, s) && MasterNode(cfg, s) == if s.context.Some? then s.context.value.vmaster else cfg.realMaster
  {
  }

  ghost predicate Progress(cfg: Config, s: State, r: State)
    requires Sized(cfg, s)
  {
    Flying(cfg, r) && Sized(cfg, r) && |r.conn[MasterNode(cfg, r)].queue| < |s.conn[MasterNode(cfg, s)].queue|
  }

  lemma CompletePrepares(cfg: Config, s: State)
    requires InFlight(cfg, s)
    ensures Completed(cfg, s).uncompleted == if s.context.value.stmt.Prepare? then None else s.uncompleted
  {
    var b := Begun(cfg, s);
    BegunForm(cfg, s, s.context.value.vmaster);
    hide Begun, ReadBodies, Valid, IsStart, ListAfter, InFlight;
  }

  lemma CompleteProgress(cfg: Config, s: State)
    requires InFlight(cfg, s) && Preparing(s) && Agree(cfg, s) && Head(s, s.context.value.vmaster).Complete?
    ensures Progress(cfg, s, Completed(cfg, s).(commandSuccess := true)) && Completed(cfg, s).context == s.context
    ensures Completed(cfg, s).uncompleted == None && InFlight(cfg, Completed(cfg, s).(commandSuccess := true))
  {
    CompleteKept(cfg, s);
    CompletedConn(cfg, s, s.context.value.vmaster);
    CompletedFields(cfg, s);
    CompletePrepares(cfg, s);
    SuccessFlies(cfg, Completed(cfg, s));
    assert s.context.value.where[s.context.value.vmaster];
    ValidIsTarget(cfg, s, s.context.value.vmaster);
    ValidIsTarget(cfg, Completed(cfg, s), s.context.value.vmaster);
    hide InFlight, Completed, Agree, Valid, Ending;
  }

  /** What an error leads to. */
  lemma ErrorLeads(cfg: Config, s: State, v: seq<Verdicts>)
    requires InFlight(cfg, s) && Preparing(s) && |v| == cfg.n && Agree(cfg, s) && Head(s, s.context.value.vmaster).Error?
    ensures var u := RaiseError(cfg, ReadBodies(cfg, Begun(cfg, s)), v).s;
            var r := ErrorResponse(cfg, Begun(cfg, s), v).s;
            r == NoteFailure(cfg, u) && NearReady(cfg, u) && u.context.Some? &&
            u == s.(conn := u.conn, log := u.log, context := u.context) &&
            r == u.(sent := r.sent, uncompleted := None, context := r.context, commandSuccess := true, failed := r.failed) &&
            (s.uncompleted == None ==> r.sent == s.sent && r.context == u.context) &&
            (forall p :: p in r.sent ==> p in s.sent || s.uncompleted == Some(p)) &&
            (s.failed || u.conn[cfg.MainNode()].tstate != Idle ==> r.failed) &&
            if r.context.Some? then r.context == u.context && NearReady(cfg, r) else Forgotten(cfg, r) && s.uncompleted.Some?
    ensures ErrorResponse(cfg, Begun(cfg, s), v).status == Continue
  {
    ErrorKept(cfg, s, v);
    var u := RaiseError(cfg, ReadBodies(cfg, Begun(cfg, s)), v).s;
    hide ErrorResponse, Raised, Begun, ReadBodies, RaiseError, NearReady, InFlight, Agree, NoteFailure, Forgotten;
    FailureNoted(cfg, u);
  }

  lemma OneLeft(cfg: Config, r: State)
    requires (NearReady(cfg, r) && r.uncompleted == None) || Forgotten(cfg, r)
    ensures Flying(cfg, r) && Sized(cfg, r) && |r.conn[MasterNode(cfg, r)].queue| <= 1
  {
    hide RaiseReady, Proper;
  }

  lemma ErrorProgress(cfg: Config, s: State, v: seq<Verdicts>)
    requires InFlight(cfg, s) && Preparing(s) && |v| == cfg.n && Agree(cfg, s) && Head(s, s.context.value.vmaster).Error?
    ensures Progress(cfg, s, ErrorResponse(cfg, Begun(cfg, s), v).s)
  {
    var m := s.context.value.vmaster;
    ErrorLeads(cfg, s, v);
    TargetTail(cfg, s, m);
    PopTail(s.conn[m]);
    ValidIsTarget(cfg, s, m);
    var r := ErrorResponse(cfg, Begun(cfg, s), v).s;
    hide ErrorResponse, Begun, ReadBodies, RaiseError, NoteFailure, Agree;
    OneLeft(cfg, r);
  }

  /** Either the statement is still in progress, and the master has less to read, or the session is between
      statements again. */
  ghost predicate Kept(cfg: Config, s: State, o: Outcome)
    requires Sized(cfg, s)
  {
    o.status == Continue ==> if o.s.inProgress then Progress(cfg, s, o.s) else Boundary(cfg, o.s)
  }

  lemma ReadyResponse(cfg: Config, s: State, v: seq<Verdicts>)
    requires InFlight(cfg, s) && Preparing(s) && |v| == cfg.n && Agree(cfg, s) && Head(s, s.context.value.vmaster).Ready?
    ensures s.uncompleted == None
    ensures ReadyForQuery(cfg, Begun(cfg, s), v).status == Continue ==> Boundary(cfg, ReadyForQuery(cfg, Begun(cfg, s), v).s)
  {
    BegunSettles(cfg, s);
    assert s.context.value.where[s.context.value.vmaster];
    assert |s.conn[s.context.value.vmaster].queue| == 1;
    assert s.uncompleted == None;
    hide InFlight, ReadyForQuery, Begun, Agree, Preparing;
    if ReadyForQuery(cfg, Begun(cfg, s), v).status == Continue {
      ReadyKept(cfg, Begun(cfg, s), v);
    }
  }

  lemma PopEnding(c: Conn)
    requires ConnOk(true, c) && Ending(c.queue) && !c.queue[0].msg.Complete? && !c.queue[0].msg.Error?
    ensures Ending(Pop(c).queue)
  {
  }

  lemma OtherResponse(cfg: Config, s: State)
    requires InFlight(cfg, s) && Preparing(s) && Agree(cfg, s)
    requires var m := Head(s, s.context.value.vmaster); !m.Ready? && !m.Complete? && !m.Error?
    ensures Progress(cfg, s, ReadBodies(cfg, Begun(cfg, s)))
    ensures InFlight(cfg, ReadBodies(cfg, Begun(cfg, s))) && Preparing(ReadBodies(cfg, Begun(cfg, s)))
  {
    var r := ReadBodies(cfg, Begun(cfg, s));
    MessageKept(cfg, s);
    ReadForm(cfg, s, s.context.value.vmaster);
    if s.uncompleted.Some? {
      forall k | 0 <= k < cfg.n && s.context.value.where[k] ensures Ending(r.conn[k].queue) {
        SameKind(cfg, s, k);
        TargetTail(cfg, s, k);
        PopEnding(s.conn[k]);
      }
    }
    ValidIsTarget(cfg, s, s.context.value.vmaster);
    ValidIsTarget(cfg, r, s.context.value.vmaster);
    hide Begun, ReadBodies, Agree, InFlight, Ending, Valid;
  }

  /** A statement without a context ends with the next message. */
  lemma ForgottenKept(cfg: Config, s: State, v: seq<Verdicts>)
    requires Forgotten(cfg, s) && |v| == cfg.n
    ensures var o := ProcessBackendResponse(cfg, s, v);
            o.status == Continue ==> Boundary(cfg, o.s)
  {
    ForgottenResponse(cfg, s, v);
    var t := Shade(cfg, s);
    assert t.uncompleted == None;
    hide ProcessBackendResponse, ReadyForQuery, Begun, Agree, Boundary;
    if Agree(cfg, s) { ReadyResponse(cfg, t, v); }
  }

  /** One round of ProcessBackendResponse while a statement is in progress. */
  lemma ResponseKept(cfg: Config, s: State, v: seq<Verdicts>)
    requires Flying(cfg, s) && |v| == cfg.n
    ensures Kept(cfg, s, ProcessBackendResponse(cfg, s, v))
  {
    FlyingNode(cfg, s);
    if Forgotten(cfg, s) {
      ForgottenKept(cfg, s, v);
      hide ProcessBackendResponse, Forgotten, InFlight, Progress, Flying;
    } else if Agree(cfg, s) {
      ResponseIs(cfg, s, v);
      hide ProcessBackendResponse, Agree, Progress, InFlight, Preparing, Begun, Completed, ErrorResponse, Forgotten, Flying,
        ReadBodies, ReadyForQuery, Boundary;
      match Head(s, s.context.value.vmaster)
      case Ready(_) => ReadyResponse(cfg, s, v);
      case Error =>
        ErrorKept(cfg, s, v);
        ErrorProgress(cfg, s, v);
      case Complete(_) => CompleteProgress(cfg, s);
      case _ => OtherResponse(cfg, s);
    }
  }

  lemma DriveStep(cfg: Config, s: State, v: seq<Verdicts>)
    requires Flying(cfg, s) && |v| == cfg.n
    ensures var o := ProcessBackendResponse(cfg, s, v);
            Drive(cfg, s, v) == if o.status == Continue && o.s.inProgress then Drive(cfg, o.s, v) else o
  {
    FlyingNode(cfg, s);
    ResponseKept(cfg, s, v);
    hide ProcessBackendResponse, Flying, Boundary;
  }

  /** The driving loop, started in flight, ends at the boundary, and its guard against standing still
      never has to act. */
  lemma {:induction false} DriveKept(cfg: Config, s: State, v: seq<Verdicts>)
    requires Flying(cfg, s) && |v| == cfg.n && Drive(cfg, s, v).status == Continue
    ensures Boundary(cfg, Drive(cfg, s, v).s)
    decreases |s.conn[MasterNode(cfg, s)].queue|
  {
    FlyingNode(cfg, s);
    var o := ProcessBackendResponse(cfg, s, v);
    ResponseKept(cfg, s, v);
    hide ProcessBackendResponse, Flying, Boundary;
    if o.s.inProgress { DriveKept(cfg, o.s, v); }
  }

  // ---------------------------------------------------------------------------------------
  // Who survives
  // ---------------------------------------------------------------------------------------

  lemma CloseContinues(cfg: Config, s: State, v: seq<Verdicts>)
    requires Sized(cfg, s) && |v| == cfg.n && s.context.Some? && !IsTwoPhase(s.context.value.stmt)
    ensures CloseQuery(cfg, s, v).status == Continue
  {
    hide CloseStandby, Remember, IsStart, SetsSerializable;
  }

  /** Unless the statement is a two-phase command, whose end has standbys to close, the session survives its
      readiness message exactly when readiness is reached. */
  lemma ReadyContinuesIff(cfg: Config, s: State, v: seq<Verdicts>)
    requires Settling(cfg, s) && |v| == cfg.n && !IsTwoPhase(s.context.value.stmt)
    ensures ReadyForQuery(cfg, s, v).status == Continue <==> Reaches(cfg, s, v)
  {
    assert Sized(cfg, s) && s.context.Some?;
    hide ReadyForQuery, Reaches, CloseQuery, Settling, IsTwoPhase;
    if ReadyForQuery(cfg, s, v).status == Continue { ReachesIfContinues(cfg, s, v); }
    if Reaches(cfg, s, v) {
      var t := SettledForm(cfg, s, v);
      CloseContinues(cfg, t, v);
    }
  }

  lemma ShadeSettles(cfg: Config, s: State)
    requires Forgotten(cfg, s) && Agree(cfg, s)
    ensures InFlight(cfg, Shade(cfg, s))
    ensures var h := Begun(cfg, Shade(cfg, s));
            Settling(cfg, h) && !h.mismatch && h.context.Some? && !IsTwoPhase(h.context.value.stmt) &&
            forall k :: 0 <= k < cfg.n ==> (h.context.value.where[k] <==> cfg.live[k]) && h.conn[k].internal == s.conn[k].internal
  {
    ShadeFlies(cfg, s);
    NearFlies(cfg, Shade(cfg, s));
    BegunSettles(cfg, Shade(cfg, s));
    hide Begun, Agree, NearReady, Forgotten, InFlight, Settling, IsTwoPhase;
  }

  /** A statement whose context is gone: the session survives it if and only if the nodes agree on what to
      read and no COMMIT of an internal transaction is lost. */
  lemma ForgottenSurvivesIff(cfg: Config, s: State, v: seq<Verdicts>)
    requires Forgotten(cfg, s) && |v| == cfg.n
    ensures Drive(cfg, s, v).status == Continue <==>
            Agree(cfg, s) && forall k :: 0 <= k < cfg.n && cfg.live[k] && s.conn[k].internal ==> !v[k].commit.Lost?
  {
    DriveStep(cfg, s, v);
    ForgottenResponse(cfg, s, v);
    ForgottenKept(cfg, s, v);
    hide ProcessBackendResponse, ReadyForQuery, Drive, NearReady, Forgotten, Settling;
    if Agree(cfg, s) {
      hide Agree, Begun;
      ShadeSettles(cfg, s);
      var h := Begun(cfg, Shade(cfg, s));
      ReadyContinuesIff(cfg, h, v);
      ReachesIff(cfg, h, v);
    }
  }

  /** A PREPARE of a new name that fails: the session goes on if and only if all live nodes were asked and no
      COMMIT of an internal transaction is lost. */
  lemma FailedPrepare(cfg: Config, s: State, v: seq<Verdicts>)
    requires InFlight(cfg, s) && Preparing(s) && |v| == cfg.n && Agree(cfg, s) && Head(s, s.context.value.vmaster).Error?
    requires s.uncompleted.Some? && (s.uncompleted.value.name == "" || FindPrepared(s.sent, s.uncompleted.value.name) == None)
    ensures var r := ErrorResponse(cfg, Begun(cfg, s), v).s;
            Forgotten(cfg, r) &&
            (Drive(cfg, r, v).status == Continue <==>
              (forall k :: 0 <= k < cfg.n && cfg.live[k] ==> s.context.value.where[k]) &&
              forall k :: 0 <= k < cfg.n && s.context.value.where[k] && s.conn[k].internal ==> !v[k].commit.Lost?)
  {
    ErrorLeads(cfg, s, v);
    var t := ReadBodies(cfg, Begun(cfg, s));
    var r := ErrorResponse(cfg, Begun(cfg, s), v).s;
    ErrorKept(cfg, s, v);
    forall k | 0 <= k < cfg.n
      ensures cfg.live[k] ==> (AtReady(t.conn[k], false) <==> s.context.value.where[k])
      ensures t.conn[k].internal == s.conn[k].internal && (s.context.value.where[k] ==> cfg.live[k])
      ensures !s.context.value.where[k] && cfg.live[k] ==> !s.conn[k].internal
    {
      ReadForm(cfg, s, k);
      assert cfg.live[k] ==> ConnOk(s.context.value.where[k], s.conn[k]);
    }
    assert s.context.value.stmt.Prepare? && t.context == s.context;
    hide Agree, InFlight, Preparing, Forgotten, NearReady, Begun, ReadBodies, RaiseError, ErrorResponse, AtReady, Raised, Drive;
    PrepareNotRaised(cfg, t, v);
    SurvivesOnlyIfAsked(cfg, r);
    ForgottenSurvivesIff(cfg, r, v);
  }

  lemma PrepareNotRaised(cfg: Config, t: State, v: seq<Verdicts>)
    requires Sized(cfg, t) && |v| == cfg.n && t.context.Some? && t.context.value.stmt.Prepare?
    ensures RaiseError(cfg, t, v) == Outcome(t, Continue)
  {
  }

  /** A statement that the session survives leaves nothing unread on any live node, no transaction of
      pgpool's own open, and the session knowing every node's transaction state. */
  lemma StatementKeepsBoundary(cfg: Config, s: State, stmt: Stmt, id: nat, noBalance: bool, asked: Isolation, v: seq<Verdicts>)
    requires Boundary(cfg, s) && |v| == cfg.n
    requires RunStatement(cfg, s, stmt, id, noBalance, asked, v).status == Continue
    ensures Boundary(cfg, RunStatement(cfg, s, stmt, id, noBalance, asked, v).s)
  {
    if !stmt.ShowPool? {
      SendOutFlies(cfg, s, stmt, id, noBalance, asked, v);
      hide SimpleQuery, InFlight, Boundary, Drive;
      DriveKept(cfg, SimpleQuery(cfg, s, stmt, id, noBalance, asked, v).s, v);
    }
  }

  // ---------------------------------------------------------------------------------------
  // Runs
  // ---------------------------------------------------------------------------------------

  /** Where runs start. */
  lemma BeginsAtBoundary(cfg: Config, conn: seq<Conn>)
    requires cfg.WellFormed() && cfg.mode != Raw && |conn| == cfg.n && AllQuiet(cfg, conn)
    ensures Boundary(cfg, NewSession(conn))
  {
    hide Quiet;
  }

  /** One client statement with the answers it gets from the nodes. */
  datatype Step = Step(stmt: Stmt, id: nat, noBalance: bool, asked: Isolation, v: seq<Verdicts>)

  ghost predicate SizedSteps(cfg: Config, steps: seq<Step>) {
    forall i :: 0 <= i < |steps| ==> |steps[i].v| == cfg.n
  }

  /** The session when the statement has been routed. */
  function Routing(cfg: Config, s: State, p: Step): (t: State)
    requires Sized(cfg, s)
    ensures Sized(cfg, t) && t.context.Some?
  {
    WhereToSend(cfg, StartQuery(cfg, s, p.stmt, p.id), p.noBalance, p.asked)
  }

  /** The targets of the statement. */
  function RoutedTo(cfg: Config, s: State, p: Step): (where: seq<bool>)
    requires Sized(cfg, s)
    ensures |where| == cfg.n
  {
    Routing(cfg, s, p).context.value.where
  }

  function RunStep(cfg: Config, s: State, p: Step): (o: Outcome)
    requires Sized(cfg, s) && |p.v| == cfg.n
    ensures Sized(cfg, o.s)
  {
    RunStatement(cfg, s, p.stmt, p.id, p.noBalance, p.asked, p.v)
  }

  /** The session over a run of statements, as long as it lasts. */
  function RunAll(cfg: Config, s: State, steps: seq<Step>): (o: Outcome)
    requires Sized(cfg, s) && SizedSteps(cfg, steps)
    ensures Sized(cfg, o.s)
    decreases |steps|
  {
    if steps == [] then Outcome(s, Continue)
    else
      var o := RunStep(cfg, s, steps[0]);
      if o.status == End then o else RunAll(cfg, o.s, steps[1..])
  }

  /** Over every run, with whatever answers and in either mode: as long as the session lasts it is at the
      boundary after each statement. */
  lemma {:induction false} RunsKeepBoundary(cfg: Config, s: State, steps: seq<Step>)
    requires Boundary(cfg, s) && SizedSteps(cfg, steps) && RunAll(cfg, s, steps).status == Continue
    ensures Boundary(cfg, RunAll(cfg, s, steps).s)
    decreases |steps|
  {
    if steps != [] {
      var p := steps[0];
      StatementKeepsBoundary(cfg, s, p.stmt, p.id, p.noBalance, p.asked, p.v);
      hide Boundary, RunStatement;
      RunsKeepBoundary(cfg, RunStep(cfg, s, p).s, steps[1..]);
    }
  }

  // ---------------------------------------------------------------------------------------
  // A session that is cut off
  // ---------------------------------------------------------------------------------------

  lemma PrepareRefused(c: Conn, opens: bool, stmt: Stmt, id: nat)
    requires Quiet(c) && stmt.Prepare?
    ensures var q := Sent1(c, opens, true, Client(stmt, id), Reject).queue;
            q != [] && q[0] == Packet(Error, false)
  {
  }

  /** A PREPARE that every target refuses, as the session has it once it is sent. */
  lemma SentRefused(cfg: Config, s: State, p: Step)
    requires Boundary(cfg, s) && |p.v| == cfg.n && p.stmt.Prepare?
    requires forall k :: 0 <= k < cfg.n && RoutedTo(cfg, s, p)[k] ==> !p.v[k].begin.Lost? && p.v[k].main.Reject?
    ensures var o := SimpleQuery(cfg, s, p.stmt, p.id, p.noBalance, p.asked, p.v);
            o.status == Continue && InFlight(cfg, o.s) && Preparing(o.s) &&
            o.s.context.value.where == RoutedTo(cfg, s, p) && o.s.sent == s.sent &&
            o.s.uncompleted == Some(Prepared(p.stmt.name, RoutedTo(cfg, s, p))) &&
            forall k :: 0 <= k < cfg.n && RoutedTo(cfg, s, p)[k] ==> o.s.conn[k].queue != [] && o.s.conn[k].queue[0] == Packet(Error, false)
  {
    var t := Routing(cfg, s, p);
    PrepareRouted(cfg, s, p);
    hide *;
    var o := SendOut(cfg, t, p.v);
    SendOutSucceeds(cfg, t, p.v);
    SendOutForm(cfg, t, p.v);
    SendOutFlies(cfg, s, p.stmt, p.id, p.noBalance, p.asked, p.v);
    assert o.s.context.value.where == t.context.value.where;
    forall k | 0 <= k < cfg.n && t.context.value.where[k] ensures o.s.conn[k].queue != [] && o.s.conn[k].queue[0] == Packet(Error, false) {
      PrepareRefused(s.conn[k], Opens(cfg, t), p.stmt, p.id);
    }
  }

  lemma PrepareRouted(cfg: Config, s: State, p: Step)
    requires Boundary(cfg, s) && |p.v| == cfg.n && p.stmt.Prepare?
    ensures var t := Routing(cfg, s, p);
            Routed(cfg, t) && TheQuery(t) == Client(p.stmt, p.id) && t.conn == s.conn && t.sent == s.sent &&
            |t.context.value.where| == cfg.n && RoutedTo(cfg, s, p) == t.context.value.where &&
            SimpleQuery(cfg, s, p.stmt, p.id, p.noBalance, p.asked, p.v) == SendOut(cfg, t, p.v) &&
            NotePrepare(t).uncompleted == Some(Prepared(p.stmt.name, t.context.value.where)) &&
            forall k :: 0 <= k < cfg.n ==> !Withheld(cfg, t, k) && (t.context.value.where[k] ==> Quiet(t.conn[k]))
  {
    TargetsAreProper(cfg, s, p.stmt, p.id, p.noBalance, p.asked);
    hide WhereToSend, StartQuery, SendOut;
  }

  lemma AgreeOnError(cfg: Config, s: State)
    requires InFlight(cfg, s)
    requires forall k :: 0 <= k < cfg.n && s.context.value.where[k] ==> s.conn[k].queue != [] && s.conn[k].queue[0] == Packet(Error, false)
    ensures Agree(cfg, s) && Head(s, s.context.value.vmaster).Error?
  {
    var m := s.context.value.vmaster;
    ValidIsTarget(cfg, s, m);
    forall k | 0 <= k < cfg.n ensures Valid(cfg, s, k) <==> s.context.value.where[k] { ValidIsTarget(cfg, s, k); }
    hide Valid, InFlight;
  }

  /** A PREPARE of a new name that every target refuses: the session survives it if and only if every live
      node is a target. */
  lemma RefusedPrepare(cfg: Config, s: State, p: Step)
    requires Boundary(cfg, s) && |p.v| == cfg.n && p.stmt.Prepare?
    requires p.stmt.name == "" || FindPrepared(s.sent, p.stmt.name) == None
    requires forall k :: 0 <= k < cfg.n && RoutedTo(cfg, s, p)[k] ==>
               !p.v[k].begin.Lost? && p.v[k].main.Reject? && !p.v[k].commit.Lost?
    ensures RunStep(cfg, s, p).status == Continue <==> forall k :: 0 <= k < cfg.n && cfg.live[k] ==> RoutedTo(cfg, s, p)[k]
  {
    SentRefused(cfg, s, p);
    var r := SimpleQuery(cfg, s, p.stmt, p.id, p.noBalance, p.asked, p.v).s;
    assert RunStep(cfg, s, p) == Drive(cfg, r, p.v);
    hide *;
    AgreeOnError(cfg, r);
    FlyingIs(cfg, r);
    DriveStep(cfg, r, p.v);
    ResponseIs(cfg, r, p.v);
    ErrorLeads(cfg, r, p.v);
    FailedPrepare(cfg, r, p.v);
    FlyingIs(cfg, ErrorResponse(cfg, Begun(cfg, r), p.v).s);
  }

  lemma FlyingIs(cfg: Config, s: State)
    ensures (InFlight(cfg, s) && Preparing(s)) || Forgotten(cfg, s) ==> Flying(cfg, s) && s.inProgress
  {
  }

  /** It does happen: in master/slave mode a PREPARE goes to the primary alone, and when it is refused the
      session waits for the standby, which has not been asked. */
  lemma RefusedPrepareEndsSession() returns (cfg: Config, s: State, p: Step)
    ensures Boundary(cfg, s) && |p.v| == cfg.n && p.stmt.Prepare? && (forall k :: 0 <= k < cfg.n ==> !p.v[k].main.Lost?)
    ensures RunStep(cfg, s, p).status == End
  {
    var b := Remote(Idle, [], [], [], map[]);
    var a := Verdicts(Accept(0, 0), Reject, Accept(0, 0));
    cfg := Config(MasterSlave, 2, [true, true], [true, true], 0, 0, 1, true, false, false, false, false);
    s := NewSession([Conn(b, [], Idle, false), Conn(b, [], Idle, false)]);
    p := Step(Prepare("q", Dml), 7, false, UnknownIsolation, [a, a]);
    BeginsAtBoundary(cfg, s.conn);
    assert RoutedTo(cfg, s, p) == Only(cfg, 0);
    hide RunStep, Boundary;
    RefusedPrepare(cfg, s, p);
    assert cfg.live[1] && !RoutedTo(cfg, s, p)[1];
  }
}
