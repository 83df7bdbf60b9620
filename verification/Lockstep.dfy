/** Replicated nodes that answer alike stay alike: every live node ends up where a single server would
    that had been given the client's statements alone. */
module Lockstep {
  import opened Options
  import opened Statements
  import opened Postgres
  import opened SessionModel
  import opened Batches
  import opened CommitOrder
  import opened Delivery
  import opened Framing
  import opened Reading
  import opened Settlement
  import opened Forgetting
  import opened StatementBoundary

  /** An idle connection to a node in state b. */
  function Rest(b: Remote): Conn { Conn(b, [], b.state, false) }

  ghost predicate Full(cfg: Config, where: seq<bool>)
    requires |cfg.live| == |where| == cfg.n
  {
    forall k :: 0 <= k < cfg.n && cfg.live[k] ==> where[k]
  }

  /** Every prepared statement is held by every live node. */
  ghost predicate FullLists(cfg: Config, sent: seq<Prepared>, uncompleted: Option<Prepared>)
    requires SizedConfig(cfg) && SizedList(cfg.n, sent, uncompleted)
  {
    (forall p :: p in sent ==> Full(cfg, p.where)) && (uncompleted.Some? ==> Full(cfg, uncompleted.value.where))
  }

  ghost predicate AllAt(cfg: Config, conn: seq<Conn>, c: Conn)
    requires |cfg.live| == |conn| == cfg.n
  {
    forall k :: 0 <= k < cfg.n && cfg.live[k] ==> conn[k] == c
  }

  /** Between statements, with all live nodes in the same state. */
  ghost predicate Synced(cfg: Config, s: State, b: Remote) {
    Boundary(cfg, s) && cfg.mode == Replication && FullLists(cfg, s.sent, s.uncompleted) &&
    Sound(b) && AllAt(cfg, s.conn, Rest(b))
  }

  /** The live nodes answer alike, and no connection breaks. */
  ghost predicate Alike(cfg: Config, v: seq<Verdicts>, w: Verdicts) {
    |cfg.live| == |v| == cfg.n && !w.begin.Lost? && !w.main.Lost? && !w.commit.Lost? &&
    forall k :: 0 <= k < cfg.n && cfg.live[k] ==> v[k] == w
  }

  /** A SELECT that changes nothing. */
  predicate PlainRead(stmt: Stmt) { IsSelect(stmt) && !IsSequence(stmt) && !TraitsOf(stmt).callsFunction }

  /** A statement goes to all live nodes, or it is a plain read and goes to one: to the master, unless
      the nodes are idle. */
  ghost predicate RoutedAlike(cfg: Config, c: Context, state: TState)
    requires SizedConfig(cfg) && |c.where| == cfg.n
  {
    Full(cfg, c.where) ||
    (PlainRead(c.stmt) && !cfg.replicateSelect && c.where == Only(cfg, c.vmaster) && (state == Idle || c.vmaster == cfg.realMaster))
  }

  lemma AllLiveFull(cfg: Config, where: seq<bool>)
    requires SizedConfig(cfg) && |where| == cfg.n
    ensures Full(cfg, AllLive(cfg, where))
  {
  }

  lemma OnlyFirst(cfg: Config, i: nat)
    requires i < cfg.n
    ensures FirstTarget(Only(cfg, i), 0) == i
  {
    var t := FirstTarget(Only(cfg, i), 0);
    assert Only(cfg, i)[i];
    assert t != -1;
  }

  /** A NO LOAD BALANCE comment sends a statement to the master alone, so it has to be a plain read. */
  ghost predicate Admitted(cfg: Config, stmt: Stmt, noBalance: bool) {
    noBalance ==> stmt.ShowPool? || (PlainRead(stmt) && !cfg.replicateSelect)
  }

  lemma RouteAlike(cfg: Config, s: State, b: Remote, stmt: Stmt, id: nat, noBalance: bool, asked: Isolation)
    requires Synced(cfg, s, b) && Admitted(cfg, stmt, noBalance) && !stmt.ShowPool?
    ensures var r := WhereToSend(cfg, StartQuery(cfg, s, stmt, id), noBalance, asked);
            RoutedAlike(cfg, r.context.value, b.state)
  {
    AllLiveFull(cfg, Nobody(cfg));
    OnlyFirst(cfg, cfg.realMaster);
    OnlyFirst(cfg, cfg.lbNode);
    var t := StartQuery(cfg, s, stmt, id);
    var base := RouteReplication(cfg, t, stmt);
    assert s.conn[cfg.realMaster] == Rest(b);
    FollowFull(cfg, t, stmt, base);
    hide FirstTarget, Full, Boundary, Only, AllLive, IsSelect, FindPrepared;
  }

  lemma FollowFull(cfg: Config, s: State, stmt: Stmt, where: seq<bool>)
    requires Sized(cfg, s) && FullLists(cfg, s.sent, s.uncompleted) && |where| == cfg.n
    ensures FollowPrepare(cfg, s, stmt, where) == where || Full(cfg, FollowPrepare(cfg, s, stmt, where))
  {
    AllLiveFull(cfg, where);
    hide AllLive, Full;
  }

  // ---------------------------------------------------------------------------------------
  // One statement, in flight
  // ---------------------------------------------------------------------------------------

  /** What is left of the node once an internal transaction has been committed. */
  function Final(c: Conn, a: Answer): Remote {
    if c.internal then RespondCommit(c.remote, a).remote else c.remote
  }

  /** How a target's connection c stands to the state b before the statement and e after it. A plain read
      sent to one node changes nothing there, or fails it; the other nodes are then failed as well. */
  ghost predicate InStep(stmt: Stmt, c: Conn, b: Remote, e: Remote, a: Answer, full: bool) {
    if full then Final(c, a) == e && (IsSelect(stmt) && HasError(c.queue) ==> c.remote.Fail() == c.remote)
    else !c.internal && c.tstate == b.state && c.remote == e && e == if HasError(c.queue) then b.Fail() else b
  }

  /** In flight, with all targets in the same place. */
  ghost predicate Sync(cfg: Config, s: State, c: Conn, b: Remote, e: Remote, a: Answer) {
    InFlight(cfg, s) && Preparing(s) && cfg.mode == Replication && !s.mismatch && FullLists(cfg, s.sent, s.uncompleted) &&
    RoutedAlike(cfg, s.context.value, b.state) && (IsTwoPhase(s.context.value.stmt) ==> e.state != InBlock) &&
    TwoClasses(cfg, s.context.value.where, s.conn, c, Rest(b)) &&
    InStep(s.context.value.stmt, c, b, e, a, Full(cfg, s.context.value.where))
  }

  ghost predicate TwoClasses(cfg: Config, where: seq<bool>, conn: seq<Conn>, c: Conn, d: Conn)
    requires |cfg.live| == |where| == |conn| == cfg.n
  {
    forall k :: 0 <= k < cfg.n && cfg.live[k] ==> conn[k] == if where[k] then c else d
  }

  lemma SyncAgree(cfg: Config, s: State, c: Conn, b: Remote, e: Remote, a: Answer)
    requires Sync(cfg, s, c, b, e, a)
    ensures Agree(cfg, s) && ConnOk(true, c) && c.queue != []
    ensures s.conn[s.context.value.vmaster] == c && s.conn[cfg.realMaster] == if s.context.value.where[cfg.realMaster] then c else Rest(b)
    ensures forall k :: 0 <= k < cfg.n && s.context.value.where[k] ==> cfg.live[k] && s.conn[k] == c
  {
    var m := s.context.value.vmaster;
    assert cfg.live[m];
    TargetTail(cfg, s, m);
    forall k | 0 <= k < cfg.n && Valid(cfg, s, k)
      ensures s.conn[k] == c
    {
      ValidIsTarget(cfg, s, k);
    }
    ValidIsTarget(cfg, s, m);
  }

  lemma PopStep(stmt: Stmt, c: Conn, b: Remote, e: Remote, a: Answer, full: bool)
    requires ConnOk(true, c) && InStep(stmt, c, b, e, a, full) && !c.queue[0].msg.Ready? && !c.queue[0].msg.Error?
    ensures InStep(stmt, Pop(c), b, e, a, full)
  {
  }

  /** A step on which the targets keep pace with each other. */
  lemma StillSync(cfg: Config, s: State, c: Conn, r: State, c': Conn, b: Remote, e: Remote, a: Answer)
    requires Sync(cfg, s, c, b, e, a) && InFlight(cfg, r) && Preparing(r) && r.context == s.context && !r.mismatch
    requires FullLists(cfg, r.sent, r.uncompleted) && InStep(s.context.value.stmt, c', b, e, a, Full(cfg, s.context.value.where))
    requires TwoClasses(cfg, s.context.value.where, r.conn, c', Rest(b))
    ensures Sync(cfg, r, c', b, e, a)
  {
    hide InFlight, Preparing, FullLists, InStep, Full, TwoClasses, RoutedAlike;
  }

  lemma MessageSyncs(cfg: Config, s: State, c: Conn, b: Remote, e: Remote, a: Answer)
    requires Sync(cfg, s, c, b, e, a) && c.queue != []
    requires !c.queue[0].msg.Ready? && !c.queue[0].msg.Error? && !c.queue[0].msg.Complete?
    ensures Sync(cfg, ReadBodies(cfg, Begun(cfg, s)), Pop(c), b, e, a)
  {
    SyncAgree(cfg, s, c, b, e, a);
    OtherResponse(cfg, s);
    PopStep(s.context.value.stmt, c, b, e, a, Full(cfg, s.context.value.where));
    forall k | 0 <= k < cfg.n
      ensures ReadBodies(cfg, Begun(cfg, s)).conn[k] == if s.context.value.where[k] then Pop(s.conn[k]) else s.conn[k]
    {
      ReadForm(cfg, s, k);
    }
    ReadForm(cfg, s, s.context.value.vmaster);
    assert TwoClasses(cfg, s.context.value.where, ReadBodies(cfg, Begun(cfg, s)).conn, Pop(c), Rest(b));
    hide InFlight, Preparing, Begun, ReadBodies, Agree, InStep, FullLists, RoutedAlike, Full, TwoClasses, Progress;
    StillSync(cfg, s, c, ReadBodies(cfg, Begun(cfg, s)), Pop(c), b, e, a);
  }

  lemma CompletedFull(cfg: Config, s: State)
    requires InFlight(cfg, s) && FullLists(cfg, s.sent, s.uncompleted)
    ensures FullLists(cfg, Completed(cfg, s).sent, Completed(cfg, s).uncompleted)
  {
    BegunForm(cfg, s, s.context.value.vmaster);
    NoteForm(cfg, Begun(cfg, s));
    NoteFull(cfg, Begun(cfg, s));
    hide Begun, NoteComplete, FullLists, ReadBodies;
  }

  lemma NoteFull(cfg: Config, s: State)
    requires Sized(cfg, s) && FullLists(cfg, s.sent, s.uncompleted)
    ensures FullLists(cfg, NoteComplete(cfg, s).sent, NoteComplete(cfg, s).uncompleted)
  {
    hide Valid, Full, ListAfter, IsStart;
  }

  lemma CompletedClasses(cfg: Config, s: State, c: Conn, b: Remote, e: Remote, a: Answer)
    requires Sync(cfg, s, c, b, e, a) && c.queue != []
    ensures |Completed(cfg, s).conn| == cfg.n
    ensures TwoClasses(cfg, s.context.value.where, Completed(cfg, s).conn, Note(Pop(c), IsStart(s.context.value.stmt)), Rest(b))
    ensures !Completed(cfg, s).mismatch && Completed(cfg, s).context == s.context
  {
    SyncAgree(cfg, s, c, b, e, a);
    CompletedFields(cfg, s);
    CompletedMismatch(cfg, s);
    forall k | 0 <= k < cfg.n
      ensures Completed(cfg, s).conn[k] ==
              if s.context.value.where[k] then Note(Pop(s.conn[k]), IsStart(s.context.value.stmt)) else s.conn[k]
    {
      CompletedConn(cfg, s, k);
    }
    hide InFlight, Completed, Agree, FullLists, Full, IsSelect, IsStart, InStep, RoutedAlike;
  }

  lemma NoteStep(stmt: Stmt, c: Conn, b: Remote, e: Remote, a: Answer, full: bool)
    requires InStep(stmt, c, b, e, a, full) && (!full ==> IsSelect(stmt))
    ensures InStep(stmt, Note(c, IsStart(stmt)), b, e, a, full)
  {
    assert IsSelect(stmt) ==> !IsStart(stmt);
  }

  lemma CompleteSyncs(cfg: Config, s: State, c: Conn, b: Remote, e: Remote, a: Answer)
    requires Sync(cfg, s, c, b, e, a) && c.queue != [] && c.queue[0].msg.Complete?
    ensures Sync(cfg, Completed(cfg, s).(commandSuccess := true), Note(Pop(c), IsStart(s.context.value.stmt)), b, e, a)
  {
    var stmt := s.context.value.stmt;
    var full := Full(cfg, s.context.value.where);
    SyncAgree(cfg, s, c, b, e, a);
    CompletedClasses(cfg, s, c, b, e, a);
    CompleteKept(cfg, s);
    SuccessFlies(cfg, Completed(cfg, s));
    CompletedFull(cfg, s);
    PopStep(stmt, c, b, e, a, full);
    NoteStep(stmt, Pop(c), b, e, a, full);
    hide InFlight, Completed, Agree, FullLists, Full, IsSelect, IsStart, InStep, TwoClasses;
    StillSync(cfg, s, c, Completed(cfg, s).(commandSuccess := true), Note(Pop(c), IsStart(stmt)), b, e, a);
  }

  /** After an error on the targets, nodes that are failed on purpose are where the targets are. */
  lemma ProvokedAlike(stmt: Stmt, c: Conn, b: Remote, e: Remote, a: Answer, full: bool)
    requires ConnOk(true, c) && c.queue[0].msg.Error? && InStep(stmt, c, b, e, a, full) && IsSelect(stmt)
    requires !full ==> b.state == InBlock
    ensures Failing(if full then Pop(c) else Rest(b)) == Pop(c)
    ensures InStep(stmt, Pop(c), b, e, a, true)
  {
    PopTail(c);
  }

  lemma NotProvoked(stmt: Stmt, c: Conn, b: Remote, e: Remote, a: Answer, full: bool)
    requires ConnOk(true, c) && c.queue[0].msg.Error? && InStep(stmt, c, b, e, a, full)
    requires !full ==> b.state != InBlock
    ensures InStep(stmt, Pop(c), b, e, a, full)
  {
    PopTail(c);
  }

  /** Whether raise_intentional_error_if_need acts on replicated nodes. */
  ghost predicate Raises(cfg: Config, s: State, c: Conn, b: Remote)
    requires InFlight(cfg, s)
  {
    IsSelect(s.context.value.stmt) && !cfg.replicateSelect &&
    (if s.context.value.where[cfg.realMaster] then c.tstate else b.state) == InBlock
  }

  lemma RaisedIs(cfg: Config, s: State, c: Conn, b: Remote, t: State)
    requires InFlight(cfg, s) && InFlight(cfg, t) && cfg.mode == Replication && t.context == s.context
    requires TwoClasses(cfg, s.context.value.where, t.conn, Pop1(c), Rest(b))
    ensures Raised(cfg, t) ==
            if Raises(cfg, s, c, b)
            then Raise(AllLive(cfg, s.context.value.where), seq(cfg.n, k requires 0 <= k < cfg.n => cfg.live[k] && k != cfg.realMaster))
            else Raise(s.context.value.where, Nobody(cfg))
  {
    hide IsSelect, AllLive, Nobody;
  }

  function Pop1(c: Conn): Conn {
    if c.queue == [] then c else Pop(c)
  }

  lemma ErrorClasses(cfg: Config, s: State, c: Conn, b: Remote, e: Remote, a: Answer, t: State, o: Outcome)
    requires Sync(cfg, s, c, b, e, a) && c.queue != [] && c.queue[0].msg.Error?
    requires InFlight(cfg, t) && t.context == s.context && TwoClasses(cfg, s.context.value.where, t.conn, Pop1(c), Rest(b))
    requires RaisedTo(cfg, t, o, Raised(cfg, t))
    ensures o.s.context.Some? && o.s.context.value.stmt == s.context.value.stmt && |o.s.context.value.where| == cfg.n
    ensures TwoClasses(cfg, o.s.context.value.where, o.s.conn, Pop(c), Rest(b))
    ensures InStep(s.context.value.stmt, Pop(c), b, e, a, Full(cfg, o.s.context.value.where))
    ensures RoutedAlike(cfg, o.s.context.value, b.state)
  {
    var stmt := s.context.value.stmt;
    var where := s.context.value.where;
    var full := Full(cfg, where);
    SyncAgree(cfg, s, c, b, e, a);
    RaisedIs(cfg, s, c, b, t);
    AllLiveFull(cfg, where);
    assert full ==> where[cfg.realMaster];
    if Raises(cfg, s, c, b) {
      ProvokedAlike(stmt, c, b, e, a, full);
      hide InFlight, IsSelect, InStep, Raised, Agree, FullLists, Raises;
      ClassesAfterRaise(cfg, s, c, b, t, o);
    } else {
      assert !full ==> b.state != InBlock;
      NotProvoked(stmt, c, b, e, a, full);
      hide InFlight, IsSelect, InStep, Raised, Agree, FullLists, Raises;
    }
  }

  lemma ClassesAfterRaise(cfg: Config, s: State, c: Conn, b: Remote, t: State, o: Outcome)
    requires Sized(cfg, s) && Sized(cfg, t) && s.context.Some? && t.context == s.context && |cfg.live| == cfg.n
    requires c.queue != [] && TwoClasses(cfg, s.context.value.where, t.conn, Pop1(c), Rest(b))
    requires RaisedTo(cfg, t, o, Raise(AllLive(cfg, s.context.value.where),
                                       seq(cfg.n, k requires 0 <= k < cfg.n => cfg.live[k] && k != cfg.realMaster)))
    requires s.context.value.where[cfg.realMaster]
    requires Full(cfg, s.context.value.where) || s.context.value.where == Only(cfg, cfg.realMaster)
    requires Failing(if Full(cfg, s.context.value.where) then Pop(c) else Rest(b)) == Pop(c)
    ensures TwoClasses(cfg, AllLive(cfg, s.context.value.where), o.s.conn, Pop(c), Rest(b))
  {
    hide Failing;
  }

  /** All live nodes in the same place with just the readiness message to read, the context gone. */
  ghost predicate ForgottenSync(cfg: Config, s: State, c: Conn, e: Remote, a: Answer) {
    Forgotten(cfg, s) && cfg.mode == Replication && FullLists(cfg, s.sent, None) &&
    AllAt(cfg, s.conn, c) && AtReady(c, false) && Final(c, a) == e
  }

  lemma RaiseSyncs(cfg: Config, s: State, c: Conn, b: Remote, e: Remote, a: Answer, v: seq<Verdicts>) returns (u: State)
    requires Sync(cfg, s, c, b, e, a) && |v| == cfg.n && c.queue != [] && c.queue[0].msg.Error?
    ensures u == RaiseError(cfg, ReadBodies(cfg, Begun(cfg, s)), v).s
    ensures u.context.Some? && u.context.value.stmt == s.context.value.stmt && |u.context.value.where| == |u.conn| == |cfg.live| == cfg.n
    ensures TwoClasses(cfg, u.context.value.where, u.conn, Pop(c), Rest(b))
    ensures InStep(s.context.value.stmt, Pop(c), b, e, a, Full(cfg, u.context.value.where))
    ensures RoutedAlike(cfg, u.context.value, b.state)
  {
    SyncAgree(cfg, s, c, b, e, a);
    var t := ReadBodies(cfg, Begun(cfg, s));
    ErrorRead(cfg, s);
    ReadClasses(cfg, s, c, Rest(b));
    RaiseForm(cfg, t, v);
    ErrorClasses(cfg, s, c, b, e, a, t, RaiseError(cfg, t, v));
    u := RaiseError(cfg, t, v).s;
    hide InFlight, Begun, ReadBodies, RaiseError, Raised, Agree, FullLists, RoutedAlike, InStep, TwoClasses, Full;
  }

  /** An error, the same on all nodes that were asked: they are still in step, also when it takes the
      query's context away. */
  lemma ErrorSyncs(cfg: Config, s: State, c: Conn, b: Remote, e: Remote, a: Answer, v: seq<Verdicts>)
    requires Sync(cfg, s, c, b, e, a) && |v| == cfg.n && c.queue != [] && c.queue[0].msg.Error?
    ensures var o := ErrorResponse(cfg, Begun(cfg, s), v);
            o.status == Continue && if o.s.context.Some? then Sync(cfg, o.s, Pop(c), b, e, a) else ForgottenSync(cfg, o.s, Pop(c), e, a)
  {
    SyncAgree(cfg, s, c, b, e, a);
    ErrorLeads(cfg, s, v);
    var u := RaiseSyncs(cfg, s, c, b, e, a, v);
    var r := ErrorResponse(cfg, Begun(cfg, s), v).s;
    ListsStayFull(cfg, s, r);
    PopTail(c);
    NearFlies(cfg, r);
    if r.context == None {
      OnlyPreparesForgotten(cfg, s, u);
      hide *;
      StillForgotten(cfg, s, u, r, c, b, e, a);
    } else {
      hide *;
      StillFailing(cfg, s, u, r, c, b, e, a);
    }
  }

  lemma ListsStayFull(cfg: Config, s: State, r: State)
    requires Sized(cfg, s) && Sized(cfg, r) && FullLists(cfg, s.sent, s.uncompleted)
    requires forall p :: p in r.sent ==> p in s.sent || s.uncompleted == Some(p)
    ensures FullLists(cfg, r.sent, None)
  {
    hide Full;
  }

  lemma StillFailing(cfg: Config, s: State, u: State, r: State, c: Conn, b: Remote, e: Remote, a: Answer)
    requires Sync(cfg, s, c, b, e, a) && c.queue != [] && InFlight(cfg, r) && FullLists(cfg, r.sent, None)
    requires u.context.Some? && u.context.value.stmt == s.context.value.stmt && |u.context.value.where| == |u.conn| == |cfg.live| == cfg.n
    requires TwoClasses(cfg, u.context.value.where, u.conn, Pop(c), Rest(b)) && RoutedAlike(cfg, u.context.value, b.state)
    requires InStep(s.context.value.stmt, Pop(c), b, e, a, Full(cfg, u.context.value.where))
    requires r.context == u.context && r.conn == u.conn && r.uncompleted == None && r.mismatch == s.mismatch
    ensures Sync(cfg, r, Pop(c), b, e, a)
  {
    hide InFlight, FullLists, InStep, TwoClasses, Full, RoutedAlike;
  }

  lemma StillForgotten(cfg: Config, s: State, u: State, r: State, c: Conn, b: Remote, e: Remote, a: Answer)
    requires Sync(cfg, s, c, b, e, a) && c.queue != [] && AtReady(Pop(c), false) && Forgotten(cfg, r) && FullLists(cfg, r.sent, None)
    requires u.context.Some? && u.context.value.stmt == s.context.value.stmt && |u.context.value.where| == |u.conn| == |cfg.live| == cfg.n
    requires TwoClasses(cfg, u.context.value.where, u.conn, Pop(c), Rest(b)) && RoutedAlike(cfg, u.context.value, b.state)
    requires InStep(s.context.value.stmt, Pop(c), b, e, a, Full(cfg, u.context.value.where))
    requires r.conn == u.conn && !PlainRead(u.context.value.stmt)
    ensures ForgottenSync(cfg, r, Pop(c), e, a)
  {
    hide InFlight, FullLists, Final, PlainRead, Forgotten, AtReady;
  }

  lemma OnlyPreparesForgotten(cfg: Config, s: State, u: State)
    requires InFlight(cfg, s) && Preparing(s) && s.uncompleted.Some? && u.context.Some? && u.context.value.stmt == s.context.value.stmt
    ensures !PlainRead(u.context.value.stmt)
  {
  }

  lemma ReadClasses(cfg: Config, s: State, c: Conn, d: Conn)
    requires InFlight(cfg, s) && c.queue != [] && TwoClasses(cfg, s.context.value.where, s.conn, c, d)
    ensures |ReadBodies(cfg, Begun(cfg, s)).conn| == cfg.n
    ensures TwoClasses(cfg, s.context.value.where, ReadBodies(cfg, Begun(cfg, s)).conn, Pop1(c), d)
  {
    forall k | 0 <= k < cfg.n
      ensures ReadBodies(cfg, Begun(cfg, s)).conn[k] == if s.context.value.where[k] then Pop1(s.conn[k]) else s.conn[k]
    {
      ReadForm(cfg, s, k);
    }
    hide InFlight, Begun, ReadBodies;
  }

  // ---------------------------------------------------------------------------------------
  // The end of the statement
  // ---------------------------------------------------------------------------------------

  lemma SettledAtRest(c: Conn, a: Answer)
    requires !a.Lost?
    ensures Settled(c, false, a) == Rest(Final(c, a))
  {
  }

  lemma AllSettled(cfg: Config, s: State, c: Conn, b: Remote, e: Remote, a: Answer, t: State, v: seq<Verdicts>)
    requires Sync(cfg, s, c, b, e, a) && c.queue != [] && c.queue[0].msg.Ready? && !a.Lost? && |v| == |t.conn| == cfg.n
    requires forall k :: 0 <= k < cfg.n && cfg.live[k] ==> v[k].commit == a
    requires forall k :: 0 <= k < cfg.n && cfg.live[k] ==>
               t.conn[k] == if s.context.value.where[k] then Settled(c, false, v[k].commit) else Rest(b)
    ensures AllAt(cfg, t.conn, Rest(e))
  {
    SyncAgree(cfg, s, c, b, e, a);
    ReadyTail(c);
    SettledAtRest(c, a);
    hide InFlight, Agree, FullLists, RoutedAlike, Settled, IsSelect;
  }

  lemma NoStandbyOpen(cfg: Config, t: State, v: seq<Verdicts>, e: Remote)
    requires cfg.WellFormed() && Sized(cfg, t) && |v| == cfg.n && t.context.Some? && t.inProgress && AllAt(cfg, t.conn, Rest(e))
    requires IsTwoPhase(t.context.value.stmt) ==> e.state != InBlock
    ensures CloseQuery(cfg, t, v).status == Continue
    ensures forall k :: 0 <= k < cfg.n ==> !ClosesStandby(cfg, t, k)
  {
    forall k | 0 <= k < cfg.n ensures !ClosesStandby(cfg, t, k) {
      if IsTwoPhase(t.context.value.stmt) && cfg.live[k] { assert t.conn[k] == Rest(e); }
    }
    if t.commandSuccess {
      NotedIs(cfg, t, v);
      if IsTwoPhase(t.context.value.stmt) { NothingToClose(cfg, t, v); }
    }
    hide ClosesStandby, CloseStandby, NoteOutcome, IsTwoPhase, Remember, AllAt;
  }

  lemma NothingToClose(cfg: Config, t: State, v: seq<Verdicts>)
    requires Sized(cfg, t) && |v| == cfg.n && t.context.Some? && t.commandSuccess && IsTwoPhase(t.context.value.stmt)
    requires forall k :: 0 <= k < cfg.n ==> !ClosesStandby(cfg, t, k)
    ensures CloseStandby(cfg, Remembered(t), v).status == Continue
  {
    var u := Remembered(t);
    var mask := StandbyMask(cfg, u);
    assert forall k :: 0 <= k < cfg.n ==> (mask[k] <==> ClosesStandby(cfg, t, k));
    RunOnSucceeds(cfg, u, CommitStandby, mask, v);
    hide Act, RunOn, Remember, IsTwoPhase;
  }

  lemma SettleSync(cfg: Config, s: State, c: Conn, b: Remote, e: Remote, w: Verdicts, v: seq<Verdicts>) returns (t: State)
    requires Sync(cfg, s, c, b, e, w.commit) && c.queue != [] && c.queue[0].msg.Ready? && Alike(cfg, v, w)
    ensures Sized(cfg, t) && ReadyForQuery(cfg, Begun(cfg, s), v) == CloseQuery(cfg, t, v)
    ensures t == Begun(cfg, s).(conn := t.conn, log := t.log, mismatch := false, reported := t.conn[cfg.MainNode()].tstate)
    ensures AllAt(cfg, t.conn, Rest(e))
  {
    SyncAgree(cfg, s, c, b, e, w.commit);
    var h := Begun(cfg, s);
    BegunSettles(cfg, s);
    assert h.context == s.context && !h.mismatch;
    NoneLostAtEnd(cfg, s, h, v, w);
    hide *;
    ReachesUnlessLost(cfg, h, v);
    t := SettledForm(cfg, h, v);
    SettledClasses(cfg, s, h, t, c, b, v);
    AllSettled(cfg, s, c, b, e, w.commit, t, v);
  }

  lemma NoneLostAtEnd(cfg: Config, s: State, h: State, v: seq<Verdicts>, w: Verdicts)
    requires Settling(cfg, h) && Alike(cfg, v, w)
    ensures |v| == cfg.n && !w.commit.Lost?
    ensures forall k :: 0 <= k < cfg.n && h.context.value.where[k] && h.conn[k].internal ==> !v[k].commit.Lost?
    ensures forall k :: 0 <= k < cfg.n && cfg.live[k] ==> v[k].commit == w.commit
  {
  }

  lemma SettledClasses(cfg: Config, s: State, h: State, t: State, c: Conn, b: Remote, v: seq<Verdicts>)
    requires Sized(cfg, s) && Sized(cfg, h) && Sized(cfg, t) && s.context.Some? && h.context == s.context && !h.mismatch
    requires |cfg.live| == |v| == cfg.n && TwoClasses(cfg, s.context.value.where, s.conn, c, Rest(b))
    requires forall k :: 0 <= k < cfg.n ==>
               h.conn[k] == s.conn[k].(queue := h.conn[k].queue) && (!s.context.value.where[k] ==> h.conn[k] == s.conn[k])
    requires forall k :: 0 <= k < cfg.n ==>
               t.conn[k] == if h.context.value.where[k] then Settled(h.conn[k], h.mismatch, v[k].commit) else h.conn[k]
    ensures forall k :: 0 <= k < cfg.n && cfg.live[k] ==>
              t.conn[k] == if s.context.value.where[k] then Settled(c, false, v[k].commit) else Rest(b)
  {
    forall k | 0 <= k < cfg.n && cfg.live[k]
      ensures t.conn[k] == if s.context.value.where[k] then Settled(c, false, v[k].commit) else Rest(b)
    {
      SettledIgnoresQueue(h.conn[k], s.conn[k], v[k].commit);
    }
  }

  lemma ReadySyncs(cfg: Config, s: State, c: Conn, b: Remote, e: Remote, w: Verdicts, v: seq<Verdicts>)
    requires Sync(cfg, s, c, b, e, w.commit) && c.queue != [] && c.queue[0].msg.Ready? && Alike(cfg, v, w)
    ensures var o := ReadyForQuery(cfg, Begun(cfg, s), v);
            o.status == Continue && !o.s.inProgress && AllAt(cfg, o.s.conn, Rest(e)) &&
            FullLists(cfg, o.s.sent, o.s.uncompleted) && o.s.reported == e.state && Boundary(cfg, o.s)
  {
    SyncAgree(cfg, s, c, b, e, w.commit);
    BegunSettles(cfg, s);
    var h := Begun(cfg, s);
    var t := SettleSync(cfg, s, c, b, e, w, v);
    hide Begun, InStep, RoutedAlike, Settling, IsSelect, IsTwoPhase, Full, ReadyForQuery, CloseQuery, AllAt, TwoClasses, Boundary;
    AtRestClosed(cfg, s, h, t, e, v);
    ReadyKept(cfg, h, v);
  }

  lemma SettledIgnoresQueue(c: Conn, d: Conn, a: Answer)
    requires c == d.(queue := c.queue)
    ensures Settled(c, false, a) == Settled(d, false, a)
  {
  }

  lemma AtRestClosed(cfg: Config, s: State, h: State, t: State, e: Remote, v: seq<Verdicts>)
    requires cfg.WellFormed() && Sized(cfg, t) && |v| == cfg.n && AllAt(cfg, t.conn, Rest(e))
    requires t == h.(conn := t.conn, log := t.log, mismatch := false, reported := t.conn[cfg.MainNode()].tstate)
    requires h.context == s.context && s.context.Some? && h.inProgress && FullLists(cfg, h.sent, h.uncompleted)
    requires IsTwoPhase(s.context.value.stmt) ==> e.state != InBlock
    ensures var o := CloseQuery(cfg, t, v);
            o.status == Continue && !o.s.inProgress && AllAt(cfg, o.s.conn, Rest(e)) &&
            FullLists(cfg, o.s.sent, o.s.uncompleted) && o.s.reported == e.state
  {
    NoStandbyOpen(cfg, t, v, e);
    assert AllQuiet(cfg, t.conn);
    hide ClosesStandby, CloseQuery, Full, Quiet, IsTwoPhase, Remember;
    CloseForm(cfg, t, v);
  }

  /** Where the driving loop leaves the session. */
  ghost predicate EndsAt(cfg: Config, o: Outcome, e: Remote) {
    o.status == Continue && Boundary(cfg, o.s) && AllAt(cfg, o.s.conn, Rest(e)) &&
    FullLists(cfg, o.s.sent, o.s.uncompleted) && o.s.reported == e.state
  }

  lemma SyncKinds(cfg: Config, s: State, c: Conn, b: Remote, e: Remote, a: Answer)
    requires Sync(cfg, s, c, b, e, a)
    ensures Agree(cfg, s) && c.queue != [] && InFlight(cfg, s) && Preparing(s) && Flying(cfg, s) && s.inProgress && SizedConfig(cfg)
    ensures Head(s, s.context.value.vmaster) == c.queue[0].msg
  {
    SyncAgree(cfg, s, c, b, e, a);
  }

  /** One round of ProcessBackendResponse. */
  lemma ResponseSyncs(cfg: Config, s: State, c: Conn, b: Remote, e: Remote, w: Verdicts, v: seq<Verdicts>) returns (c': Conn)
    requires Sync(cfg, s, c, b, e, w.commit) && Alike(cfg, v, w)
    ensures var o := ProcessBackendResponse(cfg, s, v);
            o.status == Continue && |c'.queue| < |c.queue| &&
            if !o.s.inProgress then EndsAt(cfg, o, e)
            else if o.s.context.Some? then Sync(cfg, o.s, c', b, e, w.commit) else ForgottenSync(cfg, o.s, c', e, w.commit)
  {
    SyncKinds(cfg, s, c, b, e, w.commit);
    ResponseIs(cfg, s, v);
    hide Sync, ForgottenSync, ProcessBackendResponse, InFlight, Agree, Alike, Begun, ReadBodies, Completed,
      ErrorResponse, ReadyForQuery, Boundary, AllAt, FullLists, IsStart;
    c' := Pop(c);
    match c.queue[0].msg
    case Ready(_) => ReadySyncs(cfg, s, c, b, e, w, v);
    case Error =>
      ErrorSyncs(cfg, s, c, b, e, w.commit, v);
    case Complete(_) =>
      CompleteSyncs(cfg, s, c, b, e, w.commit);
      c' := Note(Pop(c), IsStart(s.context.value.stmt));
    case _ => MessageSyncs(cfg, s, c, b, e, w.commit);
    SyncInProgress(cfg, ProcessBackendResponse(cfg, s, v).s, c', b, e, w);
  }

  lemma SyncInProgress(cfg: Config, s: State, c: Conn, b: Remote, e: Remote, w: Verdicts)
    ensures Sync(cfg, s, c, b, e, w.commit) ==> s.inProgress && s.context.Some?
    ensures ForgottenSync(cfg, s, c, e, w.commit) ==> s.inProgress && s.context == None
  {
  }

  lemma ShadeSyncs(cfg: Config, s: State, c: Conn, e: Remote, a: Answer)
    requires ForgottenSync(cfg, s, c, e, a) && NearReady(cfg, Shade(cfg, s))
    ensures Sync(cfg, Shade(cfg, s), c, e, e, a)
  {
    hide IsSelect, InFlight;
  }

  lemma ForgottenSyncs(cfg: Config, s: State, c: Conn, e: Remote, w: Verdicts, v: seq<Verdicts>)
    requires ForgottenSync(cfg, s, c, e, w.commit) && Alike(cfg, v, w)
    ensures EndsAt(cfg, Drive(cfg, s, v), e)
  {
    var t := Shade(cfg, s);
    SurvivesOnlyIfAsked(cfg, s);
    assert Agree(cfg, s) && AtReady(c, false);
    ForgottenResponse(cfg, s, v);
    DriveStep(cfg, s, v);
    ShadeSyncs(cfg, s, c, e, w.commit);
    hide ProcessBackendResponse, ReadyForQuery, Drive, Sync, Agree, Begun, NearReady, Boundary, AllAt, FullLists,
      ForgottenSync, InFlight, Forgotten;
    ReadySyncs(cfg, t, c, e, e, w, v);
  }

  lemma {:induction false} DriveSyncs(cfg: Config, s: State, c: Conn, b: Remote, e: Remote, w: Verdicts, v: seq<Verdicts>)
    requires Sync(cfg, s, c, b, e, w.commit) && Alike(cfg, v, w)
    ensures EndsAt(cfg, Drive(cfg, s, v), e)
    decreases |c.queue|
  {
    SyncKinds(cfg, s, c, b, e, w.commit);
    var c' := ResponseSyncs(cfg, s, c, b, e, w, v);
    hide *;
    DriveStep(cfg, s, v);
    var r := ProcessBackendResponse(cfg, s, v).s;
    if r.inProgress && r.context.Some? {
      DriveSyncs(cfg, r, c', b, e, w, v);
    } else if r.inProgress {
      ForgottenSyncs(cfg, r, c', e, w, v);
    }
  }

  // ---------------------------------------------------------------------------------------
  // The beginning of the statement
  // ---------------------------------------------------------------------------------------

  /** The state in which a statement leaves a node, when the transaction around it, if any, is committed. */
  function Served(b: Remote, stmt: Stmt, id: nat, w: Verdicts, opens: bool): Remote {
    Final(SendQuery(Started(Rest(b), opens), Client(stmt, id), w.main), w.commit)
  }

  /** Something to keep is accepted outside a block, and the commit of pgpool's own transaction around it
      refused. */
  predicate Undoes(b: Remote, stmt: Stmt, w: Verdicts, opens: bool) {
    opens && b.state == Idle && HasEffect(stmt) && w.main.Accept? && w.commit.Reject?
  }

  /** Then it is as if the statement had not been run. In every other case, and in no other, the node is
      where the statement alone leaves a server. */
  lemma ServedAlone(b: Remote, stmt: Stmt, id: nat, w: Verdicts, opens: bool)
    requires Sound(b) && !w.main.Lost? && !w.commit.Lost? && (opens ==> NeedsInternalTransaction(stmt))
    ensures Served(b, stmt, id, w, opens) == if Undoes(b, stmt, w, opens) then b else Respond(b, Client(stmt, id), w.main).remote
    ensures Undoes(b, stmt, w, opens) <==> Served(b, stmt, id, w, opens) != Respond(b, Client(stmt, id), w.main).remote
  {
    SendKeeps(Started(Rest(b), opens), Client(stmt, id), w.main);
    if opens && b.state == Idle {
      assert Respond(b, Begin, Accept(0, 0)).remote == b.(state := InBlock);
      if w.commit.Reject? {
        RefusedCommitUndoes(b, stmt, id, w.main);
      } else {
        AutocommitWithBegin(b, stmt, id, w.main, w.commit);
      }
    }
  }

  lemma RefusedCommitUndoes(b: Remote, s: Stmt, id: nat, a: Answer)
    requires Sound(b) && b.state == Idle && NeedsInternalTransaction(s) && !a.Lost?
    ensures RespondCommit(Respond(b.(state := InBlock), Client(s, id), a).remote, Reject).remote == b
    ensures (Respond(b, Client(s, id), a).remote != b) <==> (a.Accept? && HasEffect(s))
  {
    assert |b.committed + [id]| != |b.committed|;
    assert b.committed + [] == b.committed && b.uncommitted + [] == b.uncommitted;
  }

  lemma AutocommitWithBegin(b: Remote, s: Stmt, id: nat, a: Answer, c: Answer)
    requires Sound(b) && b.state == Idle && !s.Transaction? && !a.Lost? && !c.Lost? && !c.Reject?
    ensures RespondCommit(Respond(b.(state := InBlock), Client(s, id), a).remote, c).remote == Respond(b, Client(s, id), a).remote
  {
    AutocommitIsTransaction(b, s, id, a, c);
    assert Respond(b, Begin, c).remote == b.(state := InBlock);
  }

  lemma ServedSound(b: Remote, stmt: Stmt, id: nat, w: Verdicts, opens: bool)
    requires Sound(b) && !w.main.Lost? && !w.commit.Lost?
    ensures Sound(Served(b, stmt, id, w, opens))
  {
    var c := Started(Rest(b), opens);
    RespondSound(c.remote, Client(stmt, id), w.main);
    RespondSound(Respond(c.remote, Client(stmt, id), w.main).remote, Commit, w.commit);
    hide RespondTransaction, RespondOrdinary;
  }

  lemma TwoPhaseEndsBlock(b: Remote, stmt: Stmt, id: nat, a: Answer)
    requires IsTwoPhase(stmt) && !a.Lost?
    ensures Respond(b, Client(stmt, id), a).remote.state != InBlock
  {
  }

  /** A plain read changes nothing, or fails the block it is in. */
  lemma PlainReadLeaves(b: Remote, stmt: Stmt, id: nat, a: Answer)
    requires PlainRead(stmt) && !a.Lost?
    ensures var r := Respond(b, Client(stmt, id), a);
            r.remote == if HasError(Wrap(r.msgs)) then b.Fail() else b
  {
    assert b.committed + [] == b.committed && b.uncommitted + [] == b.uncommitted;
  }

  /** A SELECT that fails leaves nothing to fail. */
  lemma SelectFails(b: Remote, stmt: Stmt, id: nat, a: Answer)
    requires IsSelect(stmt) && !a.Lost?
    ensures var r := Respond(b, Client(stmt, id), a);
            HasError(Wrap(r.msgs)) ==> r.remote.Fail() == r.remote
  {
  }

  lemma SentInStep(b: Remote, stmt: Stmt, id: nat, w: Verdicts, opens: bool, full: bool)
    requires !w.main.Lost? && (!full ==> PlainRead(stmt) && !opens)
    ensures var c := SendQuery(Started(Rest(b), opens), Client(stmt, id), w.main);
            InStep(stmt, c, b, Served(b, stmt, id, w, opens), w.commit, full)
  {
    var d := Started(Rest(b), opens);
    var r := Respond(d.remote, Client(stmt, id), w.main);
    assert d.queue + Wrap(r.msgs) == Wrap(r.msgs);
    if !full { PlainReadLeaves(b, stmt, id, w.main); }
    if IsSelect(stmt) { SelectFails(d.remote, stmt, id, w.main); }
    hide Respond, HasError, IsSelect, IsSequence;
  }

  lemma TwoPhaseServed(b: Remote, stmt: Stmt, id: nat, w: Verdicts, opens: bool)
    requires !w.main.Lost? && (opens ==> NeedsInternalTransaction(stmt))
    ensures IsTwoPhase(stmt) ==> Served(b, stmt, id, w, opens).state != InBlock
  {
    if IsTwoPhase(stmt) {
      SendKeeps(Rest(b), Client(stmt, id), w.main);
      TwoPhaseEndsBlock(b, stmt, id, w.main);
    }
    hide RespondTransaction;
  }

  lemma NothingWithheld(cfg: Config, s: State, k: nat)
    requires Sized(cfg, s) && s.context.Some? && k < cfg.n && cfg.mode == Replication && !s.reset
    ensures !Withheld(cfg, s, k)
  {
  }

  /** Where the statement goes, and that nothing is withheld, when the nodes are in lockstep. */
  lemma SentAlike(cfg: Config, s: State, t: State, b: Remote, w: Verdicts, v: seq<Verdicts>) returns (c: Conn)
    requires Routed(cfg, t) && cfg.mode == Replication && AllAt(cfg, t.conn, Rest(b)) && Alike(cfg, v, w)
    ensures SendOut(cfg, t, v).status == Continue
    ensures c == SendQuery(Started(Rest(b), Opens(cfg, t)), TheQuery(t), w.main)
    ensures var r := SendOut(cfg, t, v).s;
            r == t.(conn := r.conn, log := r.log, writing := r.writing, context := t.context, uncompleted := NotePrepare(t).uncompleted) &&
            TwoClasses(cfg, t.context.value.where, r.conn, c, Rest(b))
  {
    c := SendQuery(Started(Rest(b), Opens(cfg, t)), TheQuery(t), w.main);
    SendOutSucceeds(cfg, t, v);
    SendOutForm(cfg, t, v);
    var r := SendOut(cfg, t, v).s;
    forall k | 0 <= k < cfg.n ensures r.context.value.where[k] <==> t.context.value.where[k] { NothingWithheld(cfg, t, k); }
    assert r.context.value.where == t.context.value.where;
    hide SendOut, Withheld, Started, SendQuery, Opens, TheQuery;
  }

  lemma PreparedFull(cfg: Config, t: State, state: TState)
    requires Sized(cfg, t) && FullLists(cfg, t.sent, t.uncompleted) && |cfg.live| == cfg.n && t.context.Some?
    requires RoutedAlike(cfg, t.context.value, state)
    ensures FullLists(cfg, t.sent, NotePrepare(t).uncompleted)
  {
    hide Full;
  }

  lemma OneOpensNothing(cfg: Config, t: State, state: TState)
    requires Routed(cfg, t) && RoutedAlike(cfg, t.context.value, state)
    ensures !Full(cfg, t.context.value.where) ==> PlainRead(t.context.value.stmt) && !Opens(cfg, t)
    ensures Opens(cfg, t) ==> NeedsInternalTransaction(t.context.value.stmt)
  {
    if !Full(cfg, t.context.value.where) { OneIsNotSeveral(cfg, t, t.context.value.vmaster); }
    hide SeveralTargets, Full, IsSelect;
  }

  /** More than one node is live. */
  predicate SeveralLive(cfg: Config) { |Chosen(cfg.live)| > 1 }

  /** Statements that leave something behind go to all live nodes, so whether pgpool opens a transaction for
      them depends on nothing else. */
  lemma EffectOpens(cfg: Config, t: State, state: TState)
    requires Routed(cfg, t) && RoutedAlike(cfg, t.context.value, state) && HasEffect(t.context.value.stmt)
    ensures Opens(cfg, t) <==> SeveralLive(cfg) && NeedsInternalTransaction(t.context.value.stmt)
  {
    assert seq(cfg.n, k requires 0 <= k < cfg.n => cfg.live[k] && t.context.value.where[k]) == cfg.live;
    hide Chosen, IsSelect;
  }

  /** Sending a statement to nodes in lockstep. */
  lemma SendSyncs(cfg: Config, s: State, b: Remote, p: Step, w: Verdicts) returns (c: Conn, opens: bool)
    requires Synced(cfg, s, b) && Alike(cfg, p.v, w) && Admitted(cfg, p.stmt, p.noBalance) && !p.stmt.ShowPool?
    ensures var o := SimpleQuery(cfg, s, p.stmt, p.id, p.noBalance, p.asked, p.v);
            o.status == Continue && Sync(cfg, o.s, c, b, Served(b, p.stmt, p.id, w, opens), w.commit)
    ensures opens ==> NeedsInternalTransaction(p.stmt)
    ensures HasEffect(p.stmt) ==> (opens <==> SeveralLive(cfg) && NeedsInternalTransaction(p.stmt))
  {
    var t := WhereToSend(cfg, StartQuery(cfg, s, p.stmt, p.id), p.noBalance, p.asked);
    TargetsAreProper(cfg, s, p.stmt, p.id, p.noBalance, p.asked);
    RouteAlike(cfg, s, b, p.stmt, p.id, p.noBalance, p.asked);
    assert SimpleQuery(cfg, s, p.stmt, p.id, p.noBalance, p.asked, p.v) == SendOut(cfg, t, p.v);
    assert Routed(cfg, t);
    opens := Opens(cfg, t);
    OneOpensNothing(cfg, t, b.state);
    if HasEffect(p.stmt) { EffectOpens(cfg, t, b.state); }
    hide WhereToSend, StartQuery, SendOut, Opens, Full, RoutedAlike, SeveralTargets, SeveralLive, IsSelect, HasEffect,
      SendQuery, Started, InFlight, InStep;
    c := SentAlike(cfg, s, t, b, w, p.v);
    SendOutFlies(cfg, s, p.stmt, p.id, p.noBalance, p.asked, p.v);
    PreparedFull(cfg, t, b.state);
    SentInStep(b, p.stmt, p.id, w, opens, Full(cfg, t.context.value.where));
    TwoPhaseServed(b, p.stmt, p.id, w, opens);
  }

  // ---------------------------------------------------------------------------------------
  // Statements and runs
  // ---------------------------------------------------------------------------------------

  /** What a single server makes of the statement. SHOW pool_status and the like never get there. */
  function Alone(b: Remote, stmt: Stmt, id: nat, a: Answer): Remote {
    if stmt.ShowPool? then b else Respond(b, Client(stmt, id), a).remote
  }

  /** The nodes accept a statement that several of them are given outside a block, and refuse the commit of
      pgpool's own transaction around it. */
  predicate Undone(cfg: Config, b: Remote, stmt: Stmt, w: Verdicts) {
    SeveralLive(cfg) && NeedsInternalTransaction(stmt) && Undoes(b, stmt, w, true)
  }

  /** What is left of the statement on a single server, if one is left out whose commit is refused. */
  function Remains(cfg: Config, b: Remote, p: Step, w: Verdicts): Remote {
    if Undone(cfg, b, p.stmt, w) then b else Alone(b, p.stmt, p.id, w.main)
  }

  lemma ServedKept(cfg: Config, b: Remote, p: Step, w: Verdicts, opens: bool)
    requires Sound(b) && !w.main.Lost? && !w.commit.Lost? && !p.stmt.ShowPool? && (opens ==> NeedsInternalTransaction(p.stmt))
    requires HasEffect(p.stmt) ==> (opens <==> SeveralLive(cfg) && NeedsInternalTransaction(p.stmt))
    ensures Served(b, p.stmt, p.id, w, opens) == Remains(cfg, b, p, w)
  {
    ServedAlone(b, p.stmt, p.id, w, opens);
    hide Served, Respond, SeveralLive, HasEffect, NeedsInternalTransaction;
  }

  /** A statement answered alike by all live nodes leaves them in lockstep, with the client told their
      common state: that of a single server that has run the statement, or that has not been given it if
      they all refused the commit of pgpool's own transaction around it. */
  lemma StatementInLockstep(cfg: Config, s: State, b: Remote, p: Step, w: Verdicts)
    requires Synced(cfg, s, b) && Alike(cfg, p.v, w) && Admitted(cfg, p.stmt, p.noBalance)
    ensures var o := RunStep(cfg, s, p);
            var e := Remains(cfg, b, p, w);
            o.status == Continue && Synced(cfg, o.s, e) && (!p.stmt.ShowPool? ==> o.s.reported == e.state)
  {
    if p.stmt.ShowPool? {
      hide AllAt, Full, AllQuiet, Proper, SeveralLive;
    } else {
      var c, opens := SendSyncs(cfg, s, b, p, w);
      var e := Served(b, p.stmt, p.id, w, opens);
      ServedSound(b, p.stmt, p.id, w, opens);
      ServedKept(cfg, b, p, w, opens);
      assert cfg.mode == Replication;
      hide Boundary, SimpleQuery, Drive, Sync, Served, Sound, AllAt, FullLists, Respond, Remains, Admitted, HasEffect, SeveralLive;
      DriveSyncs(cfg, SimpleQuery(cfg, s, p.stmt, p.id, p.noBalance, p.asked, p.v).s, c, b, e, w, p.v);
    }
  }

  /** A new session on nodes in the same state starts in lockstep. */
  lemma BeginsSynced(cfg: Config, conn: seq<Conn>, b: Remote)
    requires cfg.WellFormed() && cfg.mode == Replication && |conn| == cfg.n && Sound(b) && AllAt(cfg, conn, Rest(b))
    ensures Synced(cfg, NewSession(conn), b)
  {
    assert AllQuiet(cfg, conn);
    BeginsAtBoundary(cfg, conn);
    hide Boundary, AllQuiet, AllAt, Sound;
  }

  /** In every step the live nodes answer alike, and only plain reads have a NO LOAD BALANCE comment. */
  ghost predicate StepsAlike(cfg: Config, steps: seq<Step>, ws: seq<Verdicts>) {
    |ws| == |steps| &&
    forall i :: 0 <= i < |steps| ==> Admitted(cfg, steps[i].stmt, steps[i].noBalance) && Alike(cfg, steps[i].v, ws[i])
  }

  lemma TailAlike(cfg: Config, steps: seq<Step>, ws: seq<Verdicts>)
    requires steps != [] && SizedSteps(cfg, steps) && StepsAlike(cfg, steps, ws)
    ensures SizedSteps(cfg, steps[1..]) && StepsAlike(cfg, steps[1..], ws[1..])
  {
    assert forall i :: 0 <= i < |steps[1..]| ==> steps[1..][i] == steps[i + 1] && ws[1..][i] == ws[i + 1];
    hide Alike, Admitted;
  }

  /** A single server that is given the client's statements, less those whose commit is refused. */
  function ServeKept(cfg: Config, b: Remote, steps: seq<Step>, ws: seq<Verdicts>): Remote
    requires |ws| == |steps|
    decreases |steps|
  {
    if steps == [] then b else ServeKept(cfg, Remains(cfg, b, steps[0], ws[0]), steps[1..], ws[1..])
  }

  /** Over every run of statements answered alike, the session lasts, and at the end of it every live node
      is in the state of a single server that has been given the client's statements, less those whose
      commit all of them have refused. */
  lemma {:induction false} RunsInLockstep(cfg: Config, s: State, b: Remote, steps: seq<Step>, ws: seq<Verdicts>)
    requires Synced(cfg, s, b) && SizedSteps(cfg, steps) && StepsAlike(cfg, steps, ws)
    ensures var o := RunAll(cfg, s, steps);
            o.status == Continue && Synced(cfg, o.s, ServeKept(cfg, b, steps, ws))
    decreases |steps|
  {
    if steps != [] {
      var p := steps[0];
      assert Alike(cfg, p.v, ws[0]) && Admitted(cfg, p.stmt, p.noBalance);
      StatementInLockstep(cfg, s, b, p, ws[0]);
      TailAlike(cfg, steps, ws);
      hide Synced, RunStep, Alike, Remains, Admitted, StepsAlike, SizedSteps;
      RunsInLockstep(cfg, RunStep(cfg, s, p).s, Remains(cfg, b, p, ws[0]), steps[1..], ws[1..]);
    }
  }
}
