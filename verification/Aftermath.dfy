/** What a statement leaves behind in the session: which marks it sets or clears, and what it puts on the list of
    prepared statements or takes off it. */
module Aftermath {
  import opened Options
  import opened Statements
  import opened Postgres
  import opened SessionModel
  import opened Batches
  import opened Delivery
  import opened Framing
  import opened Reading
  import opened Settlement
  import opened Forgetting
  import opened StatementBoundary
  import opened WriteRouting
  import opened QueryRouting
  import Lockstep

  // ---------------------------------------------------------------------------------------
  // The list of prepared statements as a set
  // ---------------------------------------------------------------------------------------

  ghost predicate NamesUnique(sent: seq<Prepared>) {
    forall i, j :: 0 <= i < j < |sent| ==> sent[i].name != sent[j].name
  }

  ghost predicate Named(sent: seq<Prepared>, name: string) { exists p :: p in sent && p.name == name }

  /** Looking up a name finds its statement. */
  lemma {:induction false} FoundAre(sent: seq<Prepared>, name: string)
    ensures FindPrepared(sent, name) == None <==> !Named(sent, name)
    ensures NamesUnique(sent) ==> forall p :: FindPrepared(sent, name) == Some(p) <==> p in sent && p.name == name
  {
    if sent != [] {
      var rest := sent[1..];
      FoundAre(rest, name);
      assert forall p :: p in sent <==> p == sent[0] || p in rest;
      if NamesUnique(sent) {
        forall i, j | 0 <= i < j < |rest| ensures rest[i].name != rest[j].name { assert sent[i + 1].name != sent[j + 1].name; }
        forall p | p in rest ensures p.name != sent[0].name {
          var i :| 0 <= i < |rest| && rest[i] == p;
          assert sent[i + 1] == p;
        }
      }
      if Named(rest, name) { assert Named(sent, name); }
      if sent[0].name == name { assert Named(sent, name); }
    }
  }

  /** Removing a name leaves the others. */
  lemma {:induction false} RemovedAre(sent: seq<Prepared>, name: string)
    requires NamesUnique(sent)
    ensures NamesUnique(RemovePrepared(sent, name))
    ensures forall p :: p in RemovePrepared(sent, name) <==> p in sent && p.name != name
  {
    if sent != [] {
      var rest := sent[1..];
      forall i, j | 0 <= i < j < |rest| ensures rest[i].name != rest[j].name { assert sent[i + 1].name != sent[j + 1].name; }
      RemovedAre(rest, name);
      assert forall p :: p in sent <==> p == sent[0] || p in rest;
      forall p | p in rest ensures p.name != sent[0].name {
        var i :| 0 <= i < |rest| && rest[i] == p;
        assert sent[i + 1] == p;
      }
      var left := RemovePrepared(rest, name);
      if sent[0].name != name {
        assert RemovePrepared(sent, name) == [sent[0]] + left;
        forall i, j | 0 <= i < j < |left| + 1 ensures ([sent[0]] + left)[i].name != ([sent[0]] + left)[j].name {
          if i == 0 { assert left[j - 1] in left; }
        }
      }
    }
  }

  /** A statement is added unless its name is taken; the unnamed one takes the place of the one before. */
  lemma AddedAre(sent: seq<Prepared>, p: Prepared)
    requires NamesUnique(sent)
    ensures NamesUnique(AddPrepared(sent, p))
    ensures forall q :: q in AddPrepared(sent, p) <==>
              if q.name != p.name || (p.name != "" && Named(sent, p.name)) then q in sent else q == p
    ensures var r := AddPrepared(sent, p);
            if p.name != "" && Named(sent, p.name) then r == sent else r != [] && r[|r| - 1] == p
  {
    FoundAre(sent, p.name);
    RemovedAre(sent, "");
    var left := RemovePrepared(sent, "");
    hide RemovePrepared, FindPrepared;
    if Named(sent, p.name) {
      if p.name == "" {
        forall i, j | 0 <= i < j < |left| + 1 ensures (left + [p])[i].name != (left + [p])[j].name {
          if j == |left| { assert left[i] in left; }
        }
      }
    } else {
      forall i, j | 0 <= i < j < |sent| + 1 ensures (sent + [p])[i].name != (sent + [p])[j].name {
        if j == |sent| { assert sent[i] in sent; }
      }
    }
  }

  /** The list after a statement that has completed, has failed, or neither, being the answer to an empty text.
      A PREPARE that completes is listed; one that fails takes an earlier one of its name off the list. u is the
      statement to be listed. */
  ghost predicate ListLeft(stmt: Stmt, u: Option<Prepared>, completed: bool, failed: bool, sent: seq<Prepared>, r: seq<Prepared>) {
    NamesUnique(r) &&
    forall q :: q in r <==>
      match stmt
      case Prepare(_, _) =>
        if u == None then q in sent
        else if completed then
          (if q.name != u.value.name || (q.name != "" && Named(sent, q.name)) then q in sent else q == u.value)
        else q in sent && (failed ==> q.name != u.value.name)
      case Deallocate(None) => q in sent && !completed
      case Deallocate(Some(name)) => q in sent && (completed ==> q.name != name)
      case Discard(target) => q in sent && (completed ==> target == DiscardTemp)
      case _ => q in sent
  }

  lemma CompletedLists(stmt: Stmt, u: Option<Prepared>, sent: seq<Prepared>)
    requires NamesUnique(sent)
    ensures ListLeft(stmt, u, true, false, sent, ListAfter(stmt, sent, u))
  {
    match stmt
    case Prepare(_, _) => if u.Some? { AddedAre(sent, u.value); }
    case Deallocate(Some(name)) => RemovedAre(sent, name);
    case _ =>
  }

  lemma ForgottenLists(stmt: Stmt, s: State)
    requires NamesUnique(s.sent) && (s.uncompleted.Some? ==> stmt.Prepare?)
    ensures ListLeft(stmt, s.uncompleted, false, true, s.sent, ForgetPrepare(s).sent)
  {
    if s.uncompleted.Some? {
      var p := s.uncompleted.value;
      AddedAre(s.sent, p);
      RemovedAre(AddPrepared(s.sent, p), p.name);
    }
  }

  lemma UnchangedLists(stmt: Stmt, u: Option<Prepared>, sent: seq<Prepared>)
    requires NamesUnique(sent)
    ensures ListLeft(stmt, u, false, false, sent, sent)
  {
  }

  // ---------------------------------------------------------------------------------------
  // What is left when a statement that is in progress has ended
  // ---------------------------------------------------------------------------------------

  /** The answer is a completion. */
  predicate Completes(q: seq<Packet>) { |q| >= 2 && q[|q| - 2].msg.Complete? }

  /** A failed PREPARE has taken the context of the query with it. */
  ghost predicate ContextLost(s: State, q: seq<Packet>) {
    HasError(q) && s.uncompleted.Some? && (s.uncompleted.value.name == "" || !Named(s.sent, s.uncompleted.value.name))
  }

  /** The marks when the statement has ended. BEGIN clears them all; a SET to serializable is noted; COMMIT
      PREPARED and the like leave no mark, nor do reads; everything else has written. A statement that did not
      get through leaves the failed mark if the client is in a block. */
  ghost predicate MarksLeft(stmt: Stmt, answered: bool, failing: bool, s: State, r: State) {
    r.commandSuccess == (s.commandSuccess || answered) &&
    if r.commandSuccess && stmt.Transaction? && stmt.kind in {BeginTx, StartTx} then
      !r.writing && !r.failed && r.isolation == UnknownIsolation
    else
      r.failed == (s.failed || failing) &&
      r.isolation == (if r.commandSuccess && SetsSerializable(stmt) then Serializable else s.isolation) &&
      r.writing == (s.writing || (r.commandSuccess && !IsSelect(stmt) && !SetsSerializable(stmt) &&
                                  !(stmt.Transaction? &&
                                    (stmt.kind.PrepareTx? || stmt.kind.CommitPrepared? || stmt.kind.RollbackPrepared?))))
  }

  ghost predicate Leaves(cfg: Config, s: State, r: State)
    requires Sized(cfg, s) && s.context.Some?
  {
    var q := s.conn[s.context.value.vmaster].queue;
    var stmt := s.context.value.stmt;
    var failing := HasError(q) && 0 <= cfg.MainNode() < cfg.n && s.conn[cfg.MainNode()].tstate != Idle;
    ListLeft(stmt, s.uncompleted, Completes(q), HasError(q), s.sent, r.sent) && r.uncompleted == None &&
    (r.context.Some? <==> stmt.Prepare? && r.commandSuccess && !ContextLost(s, q)) &&
    if ContextLost(s, q) then
      r.commandSuccess && r.failed == (s.failed || failing) && r.writing == s.writing && r.isolation == s.isolation
    else MarksLeft(stmt, HasError(q) || Completes(q), failing, s, r)
  }

  lemma RememberedMarks(s: State)
    requires s.context.Some?
    ensures MarksLeft(s.context.value.stmt, false, false, s, if s.commandSuccess then Remembered(s) else s)
  {
    hide IsSelect, SetsSerializable;
  }

  lemma ReadyLeaves(cfg: Config, s: State, v: seq<Verdicts>)
    requires InFlight(cfg, s) && |v| == cfg.n && Agree(cfg, s) && Head(s, s.context.value.vmaster).Ready? && s.uncompleted == None
    requires ReadyForQuery(cfg, Begun(cfg, s), v).status == Continue && NamesUnique(s.sent)
    ensures Leaves(cfg, s, ReadyForQuery(cfg, Begun(cfg, s), v).s)
  {
    var h := Begun(cfg, s);
    BegunSettles(cfg, s);
    ReachesIfContinues(cfg, h, v);
    var t := SettledForm(cfg, h, v);
    SettledQuiet(cfg, h, t, v);
    CloseForm(cfg, t, v);
    var m := s.context.value.vmaster;
    assert s.context.value.where[m];
    assert |s.conn[m].queue| == 1;
    UnchangedLists(s.context.value.stmt, None, s.sent);
    RememberedMarks(t);
    hide Begun, ReadyForQuery, CloseQuery, InFlight, Settling, Agree, SetsSerializable, IsSelect, ClosesStandby, Settled, ListLeft,
      NamesUnique, Remember, AllQuiet;
  }

  lemma {:induction false} PopAnswer(c: Conn)
    requires ConnOk(true, c) && !c.queue[0].msg.Ready?
    ensures var q := c.queue;
            if q[0].msg.Complete? || q[0].msg.Error? || q[0].msg.EmptyQuery?
            then |q| == 2 && (Completes(q) <==> q[0].msg.Complete?) && (HasError(q) <==> q[0].msg.Error?)
            else (Completes(Pop(c).queue) <==> Completes(q)) && (HasError(Pop(c).queue) <==> HasError(q))
    ensures |c.queue| == 2 ==> !Completes(Pop(c).queue) && !HasError(Pop(c).queue)
  {
  }

  /** A row or a notice: what is left is what the rest of the answer leaves. */
  lemma RowLeaves(cfg: Config, s: State, r: State)
    requires InFlight(cfg, s) && Agree(cfg, s)
    requires var m := Head(s, s.context.value.vmaster); !m.Ready? && !m.Complete? && !m.Error?
    requires InFlight(cfg, ReadBodies(cfg, Begun(cfg, s))) && Leaves(cfg, ReadBodies(cfg, Begun(cfg, s)), r)
    ensures Leaves(cfg, s, r)
  {
    var m := s.context.value.vmaster;
    ReadForm(cfg, s, m);
    ReadForm(cfg, s, cfg.MainNode());
    TargetTail(cfg, s, m);
    PopAnswer(s.conn[m]);
    hide InFlight, Begun, ReadBodies, Agree, ListLeft, MarksLeft, HasError, Completes;
  }

  lemma CompletedList(cfg: Config, s: State)
    requires InFlight(cfg, s)
    ensures Completed(cfg, s).sent == ListAfter(s.context.value.stmt, s.sent, s.uncompleted)
    ensures IsStart(s.context.value.stmt) ==>
              !Completed(cfg, s).writing && !Completed(cfg, s).failed && Completed(cfg, s).isolation == UnknownIsolation
  {
    var b := Begun(cfg, s);
    BegunForm(cfg, s, s.context.value.vmaster);
    hide Begun, ReadBodies, Valid, IsStart, ListAfter, InFlight;
  }

  /** r.sent is the list as the completion message left it. */
  lemma ListStays(stmt: Stmt, u: Option<Prepared>, completed: bool, failed: bool, sent: seq<Prepared>, mid: seq<Prepared>, r: seq<Prepared>)
    requires ListLeft(stmt, u, completed, failed, sent, mid) && ListLeft(stmt, None, false, false, mid, r)
    ensures ListLeft(stmt, u, completed, failed, sent, r)
  {
    assert forall q :: q in r <==> q in mid;
  }

  lemma CompleteLeaves(cfg: Config, s: State, r: State)
    requires InFlight(cfg, s) && Preparing(s) && Agree(cfg, s) && Head(s, s.context.value.vmaster).Complete? && NamesUnique(s.sent)
    requires Sized(cfg, Completed(cfg, s)) && Completed(cfg, s).context == s.context
    requires Leaves(cfg, Completed(cfg, s).(commandSuccess := true), r)
    ensures Leaves(cfg, s, r)
  {
    var m := s.context.value.vmaster;
    var stmt := s.context.value.stmt;
    CompletedFields(cfg, s);
    CompletedConn(cfg, s, m);
    CompletedConn(cfg, s, cfg.MainNode());
    CompletedList(cfg, s);
    CompletePrepares(cfg, s);
    TargetTail(cfg, s, m);
    PopAnswer(s.conn[m]);
    assert s.uncompleted.Some? ==> stmt.Prepare?;
    CompletedLists(stmt, s.uncompleted, s.sent);
    assert IsStart(stmt) <==> stmt.Transaction? && stmt.kind in {BeginTx, StartTx};
    hide InFlight, Completed, Agree, ListLeft, HasError, Completes, ListAfter, IsStart, IsSelect, SetsSerializable, NamesUnique;
    ListStays(stmt, s.uncompleted, true, false, s.sent, Completed(cfg, s).sent, r.sent);
  }

  lemma NotedFailure(cfg: Config, u: State)
    requires Sized(cfg, u)
    ensures NoteFailure(cfg, u).sent == ForgetPrepare(u).sent
    ensures NoteFailure(cfg, u).failed == (u.failed || u.conn[cfg.MainNode()].tstate != Idle)
    ensures NoteFailure(cfg, u).context ==
            if u.uncompleted.Some? && (u.uncompleted.value.name == "" || !Named(u.sent, u.uncompleted.value.name)) then None else u.context
  {
    if u.uncompleted.Some? { FoundAre(u.sent, u.uncompleted.value.name); }
    hide FindPrepared, AddPrepared, RemovePrepared;
  }

  /** The session after an error has been read. */
  lemma ErrorFields(cfg: Config, s: State, v: seq<Verdicts>)
    requires InFlight(cfg, s) && Preparing(s) && |v| == cfg.n && Agree(cfg, s) && Head(s, s.context.value.vmaster).Error?
    requires NamesUnique(s.sent)
    ensures var r := ErrorResponse(cfg, Begun(cfg, s), v).s;
            var q := s.conn[s.context.value.vmaster].queue;
            HasError(q) && !Completes(q) && r.commandSuccess && r.uncompleted == None && |r.conn| == cfg.n &&
            ListLeft(s.context.value.stmt, s.uncompleted, false, true, s.sent, r.sent) && NamesUnique(r.sent) &&
            r.writing == s.writing && r.isolation == s.isolation && r.inProgress &&
            r.failed == (s.failed || s.conn[cfg.MainNode()].tstate != Idle) &&
            if ContextLost(s, q) then Forgotten(cfg, r)
            else NearReady(cfg, r) && r.context.Some? && r.context.value.stmt == s.context.value.stmt
  {
    var m := s.context.value.vmaster;
    ErrorLeads(cfg, s, v);
    ErrorKept(cfg, s, v);
    ReadKeepsState(cfg, s);
    var t := ReadBodies(cfg, Begun(cfg, s));
    RaiseKeepsState(cfg, t, RaiseError(cfg, t, v));
    var u := RaiseError(cfg, t, v).s;
    assert Sized(cfg, u);
    TargetTail(cfg, s, m);
    PopAnswer(s.conn[m]);
    assert s.uncompleted.Some? ==> s.context.value.stmt.Prepare?;
    NotedFailure(cfg, u);
    ForgottenLists(s.context.value.stmt, u);
    hide InFlight, Preparing, Begun, ReadBodies, RaiseError, Agree, ErrorResponse, NoteFailure, ForgetPrepare, ListLeft, NearReady,
      Forgotten, RaisedTo, Raised, HasError, Completes, Named;
    assert ListLeft(s.context.value.stmt, s.uncompleted, false, true, s.sent, ErrorResponse(cfg, Begun(cfg, s), v).s.sent);
  }

  lemma ListIsUnique(stmt: Stmt, u: Option<Prepared>, completed: bool, failed: bool, sent: seq<Prepared>, r: seq<Prepared>)
    requires ListLeft(stmt, u, completed, failed, sent, r)
    ensures NamesUnique(r)
  {
  }

  /** Without a context nothing more is noted. */
  lemma ForgottenLeaves(cfg: Config, s: State, v: seq<Verdicts>)
    requires Forgotten(cfg, s) && |v| == cfg.n && Drive(cfg, s, v).status == Continue && NamesUnique(s.sent)
    ensures var r := Drive(cfg, s, v).s;
            r.commandSuccess == s.commandSuccess && r.failed == s.failed && r.writing == s.writing && r.isolation == s.isolation &&
            r.uncompleted == None && r.context == None && ListLeft(Dml, None, false, false, s.sent, r.sent)
  {
    DriveStep(cfg, s, v);
    ForgottenResponse(cfg, s, v);
    ForgottenKept(cfg, s, v);
    var t := Shade(cfg, s);
    assert NearReady(cfg, t) ==> AtReady(t.conn[cfg.realMaster], false);
    hide ProcessBackendResponse, ReadyForQuery, Begun, Agree, Drive, NearReady, InFlight;
    NearFlies(cfg, t);
    ReadyLeaves(cfg, t, v);
    assert |t.conn[cfg.realMaster].queue| == 1;
  }

  lemma ErrorContext(cfg: Config, s: State, v: seq<Verdicts>)
    requires InFlight(cfg, s) && Preparing(s) && |v| == cfg.n && Agree(cfg, s) && Head(s, s.context.value.vmaster).Error?
    requires NamesUnique(s.sent)
    ensures ErrorResponse(cfg, Begun(cfg, s), v).s.context == None <==> ContextLost(s, s.conn[s.context.value.vmaster].queue)
  {
    ErrorFields(cfg, s, v);
    hide InFlight, Preparing, Agree, ErrorResponse, ContextLost, ListLeft, NamesUnique;
  }

  lemma MarksAfterError(stmt: Stmt, failing: bool, s: State, e: State, r: State)
    requires e.commandSuccess && e.writing == s.writing && e.isolation == s.isolation && e.failed == (s.failed || failing)
    requires MarksLeft(stmt, false, false, e, r)
    ensures MarksLeft(stmt, true, failing, s, r)
  {
    hide IsSelect, SetsSerializable;
  }

  lemma ErrorLeaves(cfg: Config, s: State, v: seq<Verdicts>, r: State)
    requires InFlight(cfg, s) && Preparing(s) && |v| == cfg.n && Agree(cfg, s) && Head(s, s.context.value.vmaster).Error?
    requires NamesUnique(s.sent)
    requires var e := ErrorResponse(cfg, Begun(cfg, s), v).s;
             if e.context.Some? then Sized(cfg, e) && Leaves(cfg, e, r)
             else r.commandSuccess == e.commandSuccess && r.failed == e.failed && r.writing == e.writing && r.isolation == e.isolation &&
                  r.uncompleted == None && r.context == None && ListLeft(Dml, None, false, false, e.sent, r.sent)
    ensures Leaves(cfg, s, r)
  {
    ErrorFields(cfg, s, v);
    var e := ErrorResponse(cfg, Begun(cfg, s), v).s;
    var stmt := s.context.value.stmt;
    ErrorContext(cfg, s, v);
    if e.context.Some? { NearQueue(cfg, e); }
    assert ListLeft(Dml, None, false, false, e.sent, r.sent) ==> ListLeft(stmt, None, false, false, e.sent, r.sent);
    hide InFlight, Preparing, Begun, Agree, ErrorResponse, ListLeft, NearReady, Forgotten, NamesUnique, IsSelect,
      SetsSerializable, ContextLost;
    ListStays(stmt, s.uncompleted, false, true, s.sent, e.sent, r.sent);
    if e.context.Some? { MarksAfterError(stmt, s.conn[cfg.MainNode()].tstate != Idle, s, e, r); }
    hide MarksLeft;
  }

  lemma NearQueue(cfg: Config, s: State)
    requires NearReady(cfg, s)
    ensures |s.conn[s.context.value.vmaster].queue| == 1
  {
  }

  lemma LastPrepares(cfg: Config, s: State)
    requires InFlight(cfg, s) && Preparing(s) && s.conn[s.context.value.vmaster].queue != []
    ensures Head(s, s.context.value.vmaster).Ready? ==> s.uncompleted == None
  {
    TargetTail(cfg, s, s.context.value.vmaster);
  }

  /** A message before the readiness message. */
  lemma NextMessage(cfg: Config, s: State, v: seq<Verdicts>)
    requires InFlight(cfg, s) && Preparing(s) && |v| == cfg.n && Agree(cfg, s) && NamesUnique(s.sent)
    requires s.conn[s.context.value.vmaster].queue != [] && !Head(s, s.context.value.vmaster).Ready?
    ensures var o := ProcessBackendResponse(cfg, s, v);
            o.status == Continue && o.s.inProgress && NamesUnique(o.s.sent) &&
            (if o.s.context.Some? then InFlight(cfg, o.s) && Preparing(o.s) else Forgotten(cfg, o.s)) &&
            |o.s.conn[MasterNode(cfg, o.s)].queue| < |s.conn[MasterNode(cfg, s)].queue|
  {
    ResponseIs(cfg, s, v);
    var m := Head(s, s.context.value.vmaster);
    hide ProcessBackendResponse, InFlight, Preparing, Agree, Begun, ReadBodies, ErrorResponse, Completed, NamesUnique, NearReady, Forgotten;
    if m.Error? {
      ErrorLeads(cfg, s, v);
      ErrorProgress(cfg, s, v);
      ErrorFields(cfg, s, v);
      var e := ErrorResponse(cfg, Begun(cfg, s), v).s;
      UnpreparedIs(e);
      NearFlies(cfg, e);
    } else if m.Complete? {
      CompleteProgress(cfg, s);
      CompletedFields(cfg, s);
      CompletedList(cfg, s);
      CompletedLists(s.context.value.stmt, s.uncompleted, s.sent);
      ListIsUnique(s.context.value.stmt, s.uncompleted, true, false, s.sent, Completed(cfg, s).sent);
      UnpreparedIs(Completed(cfg, s).(commandSuccess := true));
    } else {
      OtherResponse(cfg, s);
      ReadForm(cfg, s, s.context.value.vmaster);
    }
  }

  /** What the rest of the answer leaves is what the whole answer leaves. */
  lemma MessageLeaves(cfg: Config, s: State, v: seq<Verdicts>, r: State)
    requires InFlight(cfg, s) && Preparing(s) && |v| == cfg.n && Agree(cfg, s) && NamesUnique(s.sent)
    requires s.conn[s.context.value.vmaster].queue != [] && !Head(s, s.context.value.vmaster).Ready?
    requires var o := ProcessBackendResponse(cfg, s, v).s;
             if o.context.Some? then Sized(cfg, o) && Leaves(cfg, o, r)
             else r.commandSuccess == o.commandSuccess && r.failed == o.failed && r.writing == o.writing && r.isolation == o.isolation &&
                  r.uncompleted == None && r.context == None && ListLeft(Dml, None, false, false, o.sent, r.sent)
    ensures Leaves(cfg, s, r)
  {
    ResponseIs(cfg, s, v);
    var m := Head(s, s.context.value.vmaster);
    hide ProcessBackendResponse, InFlight, Preparing, Agree, Begun, ReadBodies, ErrorResponse, Completed, NamesUnique, Leaves, NearReady,
      Forgotten, ListLeft, MarksLeft, ContextLost, HasError, Completes;
    if m.Error? {
      ErrorLeaves(cfg, s, v, r);
    } else if m.Complete? {
      CompleteProgress(cfg, s);
      CompletedFields(cfg, s);
      CompleteLeaves(cfg, s, r);
    } else {
      OtherResponse(cfg, s);
      ReadForm(cfg, s, s.context.value.vmaster);
      RowLeaves(cfg, s, r);
    }
  }

  /** From sending to readiness. */
  lemma {:induction false} DriveLeaves(cfg: Config, s: State, v: seq<Verdicts>)
    requires InFlight(cfg, s) && Preparing(s) && |v| == cfg.n && NamesUnique(s.sent) && Drive(cfg, s, v).status == Continue
    ensures Leaves(cfg, s, Drive(cfg, s, v).s)
    decreases |s.conn[MasterNode(cfg, s)].queue|
  {
    DriveStep(cfg, s, v);
    FlyingNode(cfg, s);
    ResponseKept(cfg, s, v);
    var o := ProcessBackendResponse(cfg, s, v);
    hide ProcessBackendResponse, InFlight, Preparing, Boundary, Drive, Agree, Flying, Leaves, NamesUnique, NearReady, Forgotten, ListLeft;
    FlowsOn(cfg, s, v);
    LastPrepares(cfg, s);
    if Head(s, s.context.value.vmaster).Ready? {
      ReadyLeaves(cfg, s, v);
    } else {
      NextMessage(cfg, s, v);
      if o.s.context.Some? { DriveLeaves(cfg, o.s, v); } else { ForgottenLeaves(cfg, o.s, v); }
      MessageLeaves(cfg, s, v, Drive(cfg, o.s, v).s);
    }
  }

  // ---------------------------------------------------------------------------------------
  // Whole statements, and one after the other
  // ---------------------------------------------------------------------------------------

  /** The answer of the virtual master, unread. */
  function AnswerOf(cfg: Config, s: State, p: Step): seq<Packet>
    requires Sized(cfg, s) && |p.v| == cfg.n
  {
    var r := SentState(cfg, s, p).s;
    if r.context.Some? then r.conn[r.context.value.vmaster].queue else []
  }

  lemma SentFields(cfg: Config, s: State, p: Step)
    requires Boundary(cfg, s) && |p.v| == cfg.n && !p.stmt.ShowPool? && SentState(cfg, s, p).status == Continue
    ensures var m := SentState(cfg, s, p).s;
            InFlight(cfg, m) && Preparing(m) && m.context.value.stmt == p.stmt && m.sent == s.sent && m.failed == s.failed &&
            m.commandSuccess == s.commandSuccess && m.writing == (s.writing && !OpensSome(cfg, Routing(cfg, s, p))) &&
            m.uncompleted == if p.stmt.Prepare? then Some(Prepared(p.stmt.name, RoutedTo(cfg, s, p))) else None
  {
    var t := Routing(cfg, s, p);
    RoutingIs(cfg, s, p);
    SendOutFlies(cfg, s, p.stmt, p.id, p.noBalance, p.asked, p.v);
    SendOutForm(cfg, t, p.v);
    TargetsAreProper(cfg, s, p.stmt, p.id, p.noBalance, p.asked);
    OpeningClears(cfg, t, p.v);
    hide InFlight, Preparing, Boundary, Proper, WhereToSend, Routed, SendOut, OpensSome;
  }

  /** pgpool opens a transaction of its own on some node: the statement has two targets, is of a kind that is
      wrapped, and finds a target outside a block. */
  ghost predicate OpensSome(cfg: Config, t: State)
    requires Sized(cfg, t) && t.context.Some?
  {
    var where := t.context.value.where;
    !StandsAlone(t.context.value.stmt) && t.context.value.stmt != Other(false) &&
    (exists i, j :: 0 <= i < j < cfg.n && where[i] && where[j]) && exists k :: 0 <= k < cfg.n && where[k] && t.conn[k].tstate == Idle
  }

  lemma SeveralIff(cfg: Config, t: State)
    requires Routed(cfg, t)
    ensures SeveralTargets(cfg, t) <==> exists i, j :: 0 <= i < j < cfg.n && t.context.value.where[i] && t.context.value.where[j]
  {
    var where := t.context.value.where;
    var mask := seq(cfg.n, k requires 0 <= k < cfg.n => cfg.live[k] && where[k]);
    ChosenAre(mask);
    hide Chosen;
    var nodes := Chosen(mask);
    if |nodes| > 1 {
      assert nodes[0] in nodes && nodes[1] in nodes;
      assert where[nodes[0]] && where[nodes[1]];
    }
    forall i, j | 0 <= i < j < cfg.n && where[i] && where[j] ensures |nodes| > 1 {
      assert i in nodes && j in nodes;
    }
  }

  lemma SendOutWriting(cfg: Config, t: State, v: seq<Verdicts>)
    requires Sized(cfg, t) && t.context.Some? && cfg.mode != Raw && |v| == cfg.n && SendOut(cfg, t, v).status == Continue
    ensures Opening(cfg, t, v).status == Continue && SendOut(cfg, t, v).s.writing == Opening(cfg, t, v).s.writing
  {
    var o := Opening(cfg, t, v);
    assert Awaitable(cfg, NotePrepare(o.s));
    hide Opening, Dispatch, NotePrepare, Awaitable, NoneLost, Delivered, Gets;
    if o.status == Continue { DispatchDelivers(cfg, NotePrepare(o.s), v); }
  }

  /** Opening a transaction clears the writing mark. */
  lemma OpeningClears(cfg: Config, t: State, v: seq<Verdicts>)
    requires Routed(cfg, t) && |v| == cfg.n && SendOut(cfg, t, v).status == Continue
    ensures SendOut(cfg, t, v).s.writing == (t.writing && !OpensSome(cfg, t))
  {
    SendOutWriting(cfg, t, v);
    WrappedIff(t.context.value.stmt);
    SeveralIff(cfg, t);
    var r := Opening(cfg, t, v).s;
    OpeningForm(cfg, t, v);
    assert forall k :: 0 <= k < cfg.n && t.context.value.where[k] ==> !t.conn[k].internal by {
      assert forall k :: 0 <= k < cfg.n && t.context.value.where[k] ==> cfg.live[k] && Quiet(t.conn[k]);
    }
    assert Opens(cfg, t) <==> SeveralTargets(cfg, t) && NeedsInternalTransaction(t.context.value.stmt);
    hide SendOut, SeveralTargets, NeedsInternalTransaction, StandsAlone, Opens, RunOn;
  }

  /** A statement that the session survives changes the marks and the list as its answer says. */
  lemma StatementLeaves(cfg: Config, s: State, p: Step)
    requires Boundary(cfg, s) && NamesUnique(s.sent) && |p.v| == cfg.n && !p.stmt.ShowPool? && RunStep(cfg, s, p).status == Continue
    ensures var r := RunStep(cfg, s, p).s;
            var m := SentState(cfg, s, p).s;
            var u := if p.stmt.Prepare? then Some(Prepared(p.stmt.name, RoutedTo(cfg, s, p))) else None;
            var q := AnswerOf(cfg, s, p);
            SentState(cfg, s, p).status == Continue && Leaves(cfg, m, r) && m.failed == s.failed &&
            m.writing == (s.writing && !OpensSome(cfg, Routing(cfg, s, p))) &&
            NamesUnique(r.sent) && ListLeft(p.stmt, u, Completes(q), HasError(q), s.sent, r.sent)
  {
    var m := SentState(cfg, s, p);
    assert RunStep(cfg, s, p) == if m.status == End then m else Drive(cfg, m.s, p.v);
    hide SentState, RunStep, Drive, InFlight, Boundary, Preparing, ListLeft, MarksLeft, RoutedTo, NamesUnique, OpensSome;
    SentFields(cfg, s, p);
    DriveLeaves(cfg, m.s, p.v);
    var q := AnswerOf(cfg, s, p);
    ListIsUnique(p.stmt, m.s.uncompleted, Completes(q), HasError(q), s.sent, RunStep(cfg, s, p).s.sent);
  }

  lemma AnswerEnds(c: Conn, opens: bool, stmt: Stmt, id: nat, a: Answer)
    requires Quiet(c) && !stmt.Transaction? && !a.Lost? && !a.Empty?
    ensures var q := Sent1(c, opens, true, Client(stmt, id), a).queue;
            (Completes(q) <==> a.Accept? && c.tstate != Failed) && (HasError(q) <==> !Completes(q))
  {
    var d := Started(c, opens);
    var r := Respond(d.remote, Client(stmt, id), a);
    assert d.queue + Wrap(r.msgs) == Wrap(r.msgs);
  }

  /** An ordinary statement is completed exactly if the virtual master accepts it outside a failed block; else it is
      answered by an error. */
  lemma AnswerIs(cfg: Config, s: State, p: Step)
    requires Boundary(cfg, s) && |p.v| == cfg.n && SentState(cfg, s, p).status == Continue
    requires !p.stmt.ShowPool? && !p.stmt.Transaction?
    ensures var m := SentState(cfg, s, p).s.context;
            m.Some? && m.value.vmaster < cfg.n &&
            var a := p.v[m.value.vmaster].main;
            !a.Empty? ==>
              (Completes(AnswerOf(cfg, s, p)) <==> a.Accept? && s.conn[m.value.vmaster].tstate != Failed) &&
              (HasError(AnswerOf(cfg, s, p)) <==> !Completes(AnswerOf(cfg, s, p)))
  {
    var t := Routing(cfg, s, p);
    RoutingIs(cfg, s, p);
    SendOutFlies(cfg, s, p.stmt, p.id, p.noBalance, p.asked, p.v);
    SendOutForm(cfg, t, p.v);
    TargetsAreProper(cfg, s, p.stmt, p.id, p.noBalance, p.asked);
    var r := SentState(cfg, s, p).s;
    var m := r.context.value.vmaster;
    assert r.context.value.where[m] && Quiet(s.conn[m]) && !p.v[m].main.Lost?;
    hide Boundary, InFlight, Preparing, Proper, WhereToSend, Routed, SendOut, Sent1, HasError, Completes, Withheld, Opens, Quiet;
    if !p.v[m].main.Empty? { AnswerEnds(s.conn[m], Opens(cfg, t), p.stmt, p.id, p.v[m].main); }
  }

  /** Such statements exist: with replication every PREPARE that the nodes accept alike outside a failed block
      completes, and the session goes on. */
  lemma PreparesComplete(cfg: Config, s: State, b: Remote, p: Step, w: Verdicts)
    requires Lockstep.Synced(cfg, s, b) && Lockstep.Alike(cfg, p.v, w) && !p.noBalance
    requires p.stmt.Prepare? && w.main.Accept? && b.state != Failed
    ensures Boundary(cfg, s) && |p.v| == cfg.n && RunStep(cfg, s, p).status == Continue && Completes(AnswerOf(cfg, s, p))
  {
    Lockstep.StatementInLockstep(cfg, s, b, p, w);
    var o := SentState(cfg, s, p);
    assert o.status == Continue;
    AnswerIs(cfg, s, p);
    SentFields(cfg, s, p);
    var m := o.s.context.value.vmaster;
    assert cfg.live[m];
    hide Boundary, InFlight, Preparing, RunStep, AnswerOf, SentState, Completes, HasError;
  }

  /** A statement that has been prepared is executed, and deallocated, on the nodes that were given its PREPARE. */
  lemma ExecuteFollowsPrepare(cfg: Config, s: State, p: Step, e: Step)
    requires Boundary(cfg, s) && NamesUnique(s.sent) && |p.v| == cfg.n && RunStep(cfg, s, p).status == Continue
    requires p.stmt.Prepare? && Completes(AnswerOf(cfg, s, p)) && (p.stmt.name == "" || !Named(s.sent, p.stmt.name))
    requires !e.noBalance && (e.stmt == Execute(p.stmt.name) || e.stmt == Deallocate(Some(p.stmt.name)))
    ensures RoutedTo(cfg, RunStep(cfg, s, p).s, e) == RoutedTo(cfg, s, p)
  {
    var r := RunStep(cfg, s, p).s;
    StatementLeaves(cfg, s, p);
    var w := Prepared(p.stmt.name, RoutedTo(cfg, s, p));
    assert w in r.sent by { hide RunStep, AnswerOf, SentState, Leaves, RoutedTo, NamesUnique; }
    hide Leaves, SentState, AnswerOf, Boundary, RunStep, ListLeft;
    var i: nat :| i < |r.sent| && r.sent[i] == w;
    assert IsListed(r.sent, p.stmt.name, i);
    hide NamesUnique, IsListed, RoutedTo;
    PreparedTargets(cfg, r, e, i);
  }

  /** A name that has been deallocated is not listed any more. */
  lemma DeallocatedIsGone(cfg: Config, s: State, p: Step)
    requires Boundary(cfg, s) && NamesUnique(s.sent) && |p.v| == cfg.n && RunStep(cfg, s, p).status == Continue
    requires p.stmt.Deallocate? && Completes(AnswerOf(cfg, s, p))
    ensures var r := RunStep(cfg, s, p).s;
            forall q :: q in r.sent <==> q in s.sent && p.stmt.which.Some? && q.name != p.stmt.which.value
  {
    StatementLeaves(cfg, s, p);
    hide RunStep, AnswerOf, SentState, Leaves, RoutedTo, NamesUnique, Boundary;
  }

  /** BEGIN, once answered, starts with a clean slate. */
  lemma BeginClearsMarks(cfg: Config, s: State, p: Step)
    requires Boundary(cfg, s) && NamesUnique(s.sent) && |p.v| == cfg.n && RunStep(cfg, s, p).status == Continue
    requires p.stmt == Transaction(BeginTx) || p.stmt == Transaction(StartTx)
    requires Completes(AnswerOf(cfg, s, p))
    ensures var r := RunStep(cfg, s, p).s;
            !r.writing && !r.failed && r.isolation == UnknownIsolation
  {
    StatementLeaves(cfg, s, p);
    SentFields(cfg, s, p);
    hide RunStep, SentState, ListLeft, RoutedTo, NamesUnique, Boundary, InFlight, Preparing, HasError;
  }

  /** No name is listed twice, in any run. */
  lemma {:induction false} RunsKeepNames(cfg: Config, s: State, steps: seq<Step>)
    requires Boundary(cfg, s) && NamesUnique(s.sent) && SizedSteps(cfg, steps) && RunAll(cfg, s, steps).status == Continue
    ensures NamesUnique(RunAll(cfg, s, steps).s.sent)
    decreases |steps|
  {
    if steps != [] {
      var p := steps[0];
      if !p.stmt.ShowPool? { StatementLeaves(cfg, s, p); }
      StatementKeepsBoundary(cfg, s, p.stmt, p.id, p.noBalance, p.asked, p.v);
      assert p.stmt.ShowPool? ==> RunStep(cfg, s, p).s.sent == s.sent;
      hide Boundary, NamesUnique, Leaves, ListLeft, SentState, RunStatement;
      RunsKeepNames(cfg, RunStep(cfg, s, p).s, steps[1..]);
    }
  }
}
