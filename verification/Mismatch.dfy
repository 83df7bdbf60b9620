/** A write that replicated nodes count differently is committed on none of them, then or later. */
module Mismatch {
  import opened Options
  import opened Statements
  import opened Postgres
  import opened SessionModel
  import opened Batches
  import opened CommitOrder
  import opened Delivery
  import opened Framing
  import opened Reading
  import opened Settlement
  import opened StatementBoundary
  import opened Evolution

  // ---------------------------------------------------------------------------------------
  // What can never be committed any more
  // ---------------------------------------------------------------------------------------

  /** The node knows nothing of statement id. */
  ghost predicate Fresh(id: nat, b: Remote) {
    id !in b.committed && id !in b.uncommitted && (forall g :: g in b.prepared ==> id !in b.prepared[g]) &&
    forall i :: 0 <= i < |b.saves| ==> id !in b.saves[i].pending
  }

  /** Statement id is not durable on the node and cannot become so: if its effect is still pending, then in
      a failed block, and no savepoint of the block covers it. */
  ghost predicate Doomed(id: nat, b: Remote) {
    Fresh(id, b.(uncommitted := [])) && (id in b.uncommitted ==> b.state == Failed)
  }

  lemma TransactionKeeps(id: nat, b: Remote, k: TransKind, a: Answer)
    ensures Fresh(id, b) ==> Fresh(id, RespondTransaction(b, k, a).remote)
    ensures Doomed(id, b) ==> Doomed(id, RespondTransaction(b, k, a).remote)
  {
    hide LastSave;
  }

  lemma OrdinaryKeeps(id: nat, b: Remote, s: Stmt, id': nat, a: Answer)
    requires id' != id
    ensures Fresh(id, b) ==> Fresh(id, RespondOrdinary(b, s, id', a).remote)
    ensures Doomed(id, b) ==> Doomed(id, RespondOrdinary(b, s, id', a).remote)
  {
    hide IsSelect;
  }

  lemma RespondKeeps(id: nat, b: Remote, q: Query, a: Answer)
    requires Foreign(id, q)
    ensures Fresh(id, b) ==> Fresh(id, Respond(b, q, a).remote)
    ensures Doomed(id, b) ==> Doomed(id, Respond(b, q, a).remote)
  {
    if q.Client? && !a.Lost? {
      if q.stmt.Transaction? { TransactionKeeps(id, b, q.stmt.kind, a); } else { OrdinaryKeeps(id, b, q.stmt, q.id, a); }
    }
  }

  ghost function IsFresh(id: nat): Remote -> bool { b => Fresh(id, b) }
  ghost function IsDoomed(id: nat): Remote -> bool { b => Doomed(id, b) }

  lemma NoWayBack(id: nat)
    ensures KeptBy(id, IsFresh(id)) && KeptBy(id, IsDoomed(id))
  {
    forall b, q, a | Foreign(id, q)
      ensures Fresh(id, b) ==> Fresh(id, Respond(b, q, a).remote)
      ensures Doomed(id, b) ==> Doomed(id, Respond(b, q, a).remote)
    {
      RespondKeeps(id, b, q, a);
    }
    hide Respond, Foreign;
  }

  /** Not committed, and aborting the node's transaction makes sure that it never is. */
  ghost predicate Pending(id: nat, b: Remote) { Doomed(id, b.Fail()) }

  ghost predicate AllPending(id: nat, conn: seq<Conn>) {
    forall k :: 0 <= k < |conn| ==> Pending(id, conn[k].remote)
  }

  ghost predicate NowhereCommitted(id: nat, conn: seq<Conn>) {
    forall k :: 0 <= k < |conn| ==> id !in conn[k].remote.committed
  }

  lemma PendingNowhere(id: nat, conn: seq<Conn>)
    ensures AllPending(id, conn) ==> NowhereCommitted(id, conn)
    ensures AllHave(IsDoomed(id), conn) ==> NowhereCommitted(id, conn) && AllPending(id, conn)
    ensures AllHave(IsFresh(id), conn) ==> AllHave(IsDoomed(id), conn)
  {
    if AllPending(id, conn) {
      forall k | 0 <= k < |conn| ensures id !in conn[k].remote.committed { assert Pending(id, conn[k].remote); }
    }
    if AllHave(IsDoomed(id), conn) {
      forall k | 0 <= k < |conn| ensures id !in conn[k].remote.committed && Pending(id, conn[k].remote) {
        assert IsDoomed(id)(conn[k].remote);
      }
    }
    if AllHave(IsFresh(id), conn) {
      forall k | 0 <= k < |conn| ensures Doomed(id, conn[k].remote) { assert IsFresh(id)(conn[k].remote); }
    }
  }

  // ---------------------------------------------------------------------------------------
  // Sending
  // ---------------------------------------------------------------------------------------

  predicate CountOf(c: Conn, rows: int) {
    |c.queue| >= 2 && c.queue[|c.queue| - 2].msg == Complete(rows)
  }

  /** A write in a block is pending, or refused. */
  lemma WritePends(id: nat, c: Conn, stmt: Stmt, a: Answer)
    requires Fresh(id, c.remote) && c.remote.state != Idle && CountsRows(stmt)
    ensures Pending(id, SendQuery(c, Client(stmt, id), a).remote)
  {
    hide IsSelect;
  }

  lemma WriteCounts(id: nat, c: Conn, stmt: Stmt, a: Answer)
    requires c.queue == [] && c.remote.state == InBlock && CountsRows(stmt) && a.Accept?
    ensures CountOf(SendQuery(c, Client(stmt, id), a), a.rows)
  {
    var r := Respond(c.remote, Client(stmt, id), a);
    assert r.msgs == Rows(a.rowMsgs) + [Complete(a.rows), Ready(r.remote.state)];
    assert c.queue + Wrap(r.msgs) == Wrap(r.msgs);
  }

  /** A write for two nodes or more of a session between statements. */
  ghost predicate WriteRouted(id: nat, cfg: Config, s: State, k1: nat, k2: nat) {
    Routed(cfg, s) && cfg.mode == Replication && k1 < k2 < cfg.n && s.context.value.where[k1] && s.context.value.where[k2] &&
    CountsRows(s.context.value.stmt) && s.context.value.id == id && AllHave(IsFresh(id), s.conn)
  }

  lemma TwoAreSeveral(cfg: Config, s: State, k1: nat, k2: nat)
    requires Routed(cfg, s) && k1 < k2 < cfg.n && s.context.value.where[k1] && s.context.value.where[k2]
    ensures SeveralTargets(cfg, s)
  {
    var mask := seq(cfg.n, k requires 0 <= k < cfg.n => cfg.live[k] && s.context.value.where[k]);
    ChosenAre(mask);
    assert k1 in Chosen(mask) && k2 in Chosen(mask);
  }

  /** Its targets are all put into a block first, if they are not in one. */
  lemma TargetsInBlock(id: nat, cfg: Config, s: State, k1: nat, k2: nat, v: seq<Verdicts>, k: nat)
    requires WriteRouted(id, cfg, s, k1, k2) && |v| == cfg.n && k < cfg.n && s.context.value.where[k]
    requires Opening(cfg, s, v).status == Continue
    ensures var c := Opening(cfg, s, v).s.conn[k];
            c.queue == [] && c.remote.state != Idle && (s.conn[k].remote.state != Failed ==> c.remote.state == InBlock)
  {
    TwoAreSeveral(cfg, s, k1, k2);
    OpeningForm(cfg, s, v);
    assert cfg.live[k] && Quiet(s.conn[k]);
    assert Opens(cfg, s);
    hide Opening, SeveralTargets;
  }

  lemma OpeningFresh(id: nat, cfg: Config, s: State, v: seq<Verdicts>)
    requires Routed(cfg, s) && |v| == cfg.n && AllHave(IsFresh(id), s.conn)
    ensures AllHave(IsFresh(id), Opening(cfg, s, v).s.conn)
  {
    NoWayBack(id);
    hide RunOn, AllHave, SeveralTargets, IsFresh, IsDoomed, KeptBy;
    RunOnKeeps(id, IsFresh(id), cfg, s, OpenInternal, BeginMask(cfg, s), v);
  }

  /** Whether or not it reaches all its targets, the write is committed nowhere by being sent. */
  lemma SentPending(id: nat, cfg: Config, s: State, k1: nat, k2: nat, v: seq<Verdicts>)
    requires WriteRouted(id, cfg, s, k1, k2) && |v| == cfg.n
    ensures AllPending(id, SendOut(cfg, s, v).s.conn)
  {
    OpeningFresh(id, cfg, s, v);
    var started := Opening(cfg, s, v);
    PendingNowhere(id, started.s.conn);
    if started.status == Continue {
      var t := NotePrepare(started.s);
      var r := SendOut(cfg, s, v).s;
      forall k | 0 <= k < cfg.n ensures Pending(id, r.conn[k].remote) {
        DispatchTouches(cfg, t, v, k);
        assert IsFresh(id)(t.conn[k].remote);
        if Gets(cfg, t, k) {
          TargetsInBlock(id, cfg, s, k1, k2, v, k);
          WritePends(id, t.conn[k], s.context.value.stmt, v[k].main);
        }
      }
    }
  }

  // ---------------------------------------------------------------------------------------
  // Reading
  // ---------------------------------------------------------------------------------------

  /** In flight with a write that nodes k1 and k2 have counted differently. */
  ghost predicate Torn(id: nat, cfg: Config, s: State, k1: nat, k2: nat, r1: int, r2: int) {
    InFlight(cfg, s) && s.uncompleted == None && cfg.mode == Replication && !cfg.failoverOnMismatch &&
    CountsRows(s.context.value.stmt) && r1 != r2 &&
    k1 < cfg.n && k2 < cfg.n && s.context.value.where[k1] && s.context.value.where[k2] && AllPending(id, s.conn) &&
    OthersDoomed(id, s.context.value.where, s.conn) &&
    (s.mismatch || (CountOf(s.conn[k1], r1) && CountOf(s.conn[k2], r2)))
  }

  ghost predicate OthersDoomed(id: nat, where: seq<bool>, conn: seq<Conn>)
    requires |where| == |conn|
  {
    forall k :: 0 <= k < |conn| && !where[k] ==> Doomed(id, conn[k].remote)
  }

  lemma SentTorn(id: nat, cfg: Config, s: State, k1: nat, k2: nat, v: seq<Verdicts>)
    requires WriteRouted(id, cfg, s, k1, k2) && |v| == cfg.n && !cfg.failoverOnMismatch && !s.mismatch && s.uncompleted == None
    requires v[k1].main.Accept? && v[k2].main.Accept? && v[k1].main.rows != v[k2].main.rows
    requires s.conn[k1].remote.state != Failed && s.conn[k2].remote.state != Failed
    requires SendOut(cfg, s, v).status == Continue
    ensures Torn(id, cfg, SendOut(cfg, s, v).s, k1, k2, v[k1].main.rows, v[k2].main.rows)
  {
    var r := SendOut(cfg, s, v).s;
    var c := s.context.value;
    assert !IsSelect(c.stmt) && NotePrepare(s).uncompleted == None;
    RoutedFlies(cfg, s, v);
    SendOutForm(cfg, s, v);
    SentPending(id, cfg, s, k1, k2, v);
    SentOthers(id, cfg, s, k1, k2, v);
    SentCount(id, cfg, s, k1, k2, v, k1);
    SentCount(id, cfg, s, k1, k2, v, k2);
    hide Routed, InFlight, SendOut, Withheld, CountOf, OthersDoomed, AllPending;
  }

  /** The nodes that do not get the write, which are those it was not meant for. */
  lemma SentOthers(id: nat, cfg: Config, s: State, k1: nat, k2: nat, v: seq<Verdicts>)
    requires WriteRouted(id, cfg, s, k1, k2) && |v| == cfg.n && SendOut(cfg, s, v).status == Continue
    ensures var r := SendOut(cfg, s, v).s;
            r.context.Some? && r.context.value.where == s.context.value.where && OthersDoomed(id, s.context.value.where, r.conn)
  {
    var r := SendOut(cfg, s, v).s;
    PendingNowhere(id, s.conn);
    assert AllHave(IsDoomed(id), s.conn) && !s.reset && cfg.mode == Replication;
    hide SendOut, WriteRouted, Routed, Doomed, SendQuery, Started, AllHave, IsFresh;
    SendOutForm(cfg, s, v);
    forall k | 0 <= k < cfg.n
      ensures r.context.value.where[k] <==> s.context.value.where[k]
      ensures !s.context.value.where[k] ==> Doomed(id, r.conn[k].remote)
    {
      HaveDoomed(id, s.conn, k);
    }
  }

  lemma HaveDoomed(id: nat, conn: seq<Conn>, k: nat)
    requires AllHave(IsDoomed(id), conn) && k < |conn|
    ensures Doomed(id, conn[k].remote)
  {
    assert IsDoomed(id)(conn[k].remote);
  }

  /** The count that target k is about to report. */
  lemma SentCount(id: nat, cfg: Config, s: State, k1: nat, k2: nat, v: seq<Verdicts>, k: nat)
    requires WriteRouted(id, cfg, s, k1, k2) && |v| == cfg.n && k < cfg.n && s.context.value.where[k]
    requires v[k].main.Accept? && s.conn[k].remote.state != Failed && SendOut(cfg, s, v).status == Continue
    ensures CountOf(SendOut(cfg, s, v).s.conn[k], v[k].main.rows)
  {
    SendOutForm(cfg, s, v);
    OpeningForm(cfg, s, v);
    TargetsInBlock(id, cfg, s, k1, k2, v, k);
    assert !Withheld(cfg, s, k);
    WriteCounts(id, Opening(cfg, s, v).s.conn[k], s.context.value.stmt, v[k].main);
    hide SendOut, CountOf, Withheld, SendQuery, Quiet;
  }

  lemma PendingSame(id: nat, conn: seq<Conn>, conn': seq<Conn>, where: seq<bool>)
    requires AllPending(id, conn) && SameRemotes(conn, conn') && |where| == |conn| && OthersDoomed(id, where, conn)
    ensures AllPending(id, conn') && OthersDoomed(id, where, conn')
  {
    hide Pending, Doomed;
  }

  /** Reading one message that is not the readiness message. */
  lemma TornRead(id: nat, cfg: Config, s: State, k1: nat, k2: nat, r1: int, r2: int, r: State)
    requires Torn(id, cfg, s, k1, k2, r1, r2) && InFlight(cfg, r) && r.context == s.context && SameRemotes(s.conn, r.conn)
    requires r.uncompleted == None
    requires s.mismatch ==> r.mismatch
    requires !s.mismatch ==> r.mismatch || (CountOf(r.conn[k1], r1) && CountOf(r.conn[k2], r2))
    ensures Torn(id, cfg, r, k1, k2, r1, r2)
  {
    assert s.context.Some? && |s.context.value.where| == |s.conn|;
    hide InFlight, AllPending, OthersDoomed, CountOf;
    PendingSame(id, s.conn, r.conn, s.context.value.where);
  }

  lemma PopCount(c: Conn, rows: int)
    requires ConnOk(true, c) && CountOf(c, rows)
    ensures !c.queue[0].msg.Ready? && !c.queue[0].msg.Error? && !c.queue[0].msg.EmptyQuery?
    ensures c.queue[0].msg.Complete? <==> |c.queue| == 2
    ensures c.queue[0].msg.Complete? ==> RowsOf(c.queue[0]) == rows
    ensures !c.queue[0].msg.Complete? ==> CountOf(Pop(c), rows)
  {
  }

  lemma CountRead(cfg: Config, s: State, k: nat, rows: int)
    requires InFlight(cfg, s) && Agree(cfg, s) && k < cfg.n && s.context.value.where[k] && CountOf(s.conn[k], rows)
    ensures s.conn[k].queue != [] && s.conn[s.context.value.vmaster].queue != []
    ensures var m := Head(s, s.context.value.vmaster);
            if m.Complete? then RowsOf(s.conn[k].queue[0]) == rows
            else CountOf(Pop(s.conn[k]), rows) && !m.Ready? && !m.Error?
  {
    HeadsAt(cfg, s, k);
    hide InFlight, Agree;
    PopCount(s.conn[k], rows);
  }

  lemma TornMessage(id: nat, cfg: Config, s: State, k1: nat, k2: nat, r1: int, r2: int)
    requires Torn(id, cfg, s, k1, k2, r1, r2) && Agree(cfg, s)
    requires !Head(s, s.context.value.vmaster).Ready? && !Head(s, s.context.value.vmaster).Complete?
    ensures Torn(id, cfg, ReadBodies(cfg, Begun(cfg, s)), k1, k2, r1, r2)
  {
    var r := ReadBodies(cfg, Begun(cfg, s));
    MessageKept(cfg, s);
    BegunSame(cfg, s);
    assert r.context == s.context && r.mismatch == s.mismatch && r.uncompleted == s.uncompleted;
    TornParts(id, cfg, s, k1, k2, r1, r2);
    assert s.context.value.where[k1] && s.context.value.where[k2];
    hide Begun, ReadBodies, Agree, InFlight, CountOf, Torn, OthersDoomed, AllPending;
    if !s.mismatch {
      CountRead(cfg, s, k1, r1);
      CountRead(cfg, s, k2, r2);
    }
    TornRead(id, cfg, s, k1, k2, r1, r2, r);
  }

  lemma BegunSame(cfg: Config, s: State)
    requires InFlight(cfg, s)
    ensures SameRemotes(s.conn, Begun(cfg, s).conn) && SameRemotes(s.conn, ReadBodies(cfg, Begun(cfg, s)).conn)
  {
    KindsReadable(cfg, s);
    ReadSame(cfg, s);
    ReadSame(cfg, Begun(cfg, s));
    hide InFlight, ReadBodies, ReadKinds;
  }

  lemma CountsDiffer(where: seq<bool>, m: nat, conn: seq<Conn>, k1: nat, k2: nat)
    requires k1 < |conn| && k2 < |conn| && m < |conn| && |where| == |conn| && where[k1] && where[k2]
    requires conn[k1].queue != [] && conn[k2].queue != [] && conn[m].queue != []
    requires RowsOf(conn[k1].queue[0]) != RowsOf(conn[k2].queue[0])
    ensures RowsDiffer(where, m, conn)
  {
    assert RowsOf(conn[k1].queue[0]) != RowsOf(conn[m].queue[0]) || RowsOf(conn[k2].queue[0]) != RowsOf(conn[m].queue[0]);
  }

  lemma TornComplete(id: nat, cfg: Config, s: State, k1: nat, k2: nat, r1: int, r2: int)
    requires Torn(id, cfg, s, k1, k2, r1, r2) && Agree(cfg, s) && Head(s, s.context.value.vmaster).Complete?
    ensures Torn(id, cfg, Completed(cfg, s).(commandSuccess := true), k1, k2, r1, r2)
  {
    var m := s.context.value.vmaster;
    CompleteKept(cfg, s);
    SuccessFlies(cfg, Completed(cfg, s));
    CompletedFields(cfg, s);
    CompletedMismatch(cfg, s);
    CompletePrepares(cfg, s);
    CompletedSame(cfg, s);
    TornParts(id, cfg, s, k1, k2, r1, r2);
    assert s.context.value.where[k1] && s.context.value.where[k2] && r1 != r2;
    assert |s.conn| == cfg.n && |s.context.value.where| == cfg.n && m < cfg.n;
    hide Completed, Agree, InFlight, CountOf, Torn, OthersDoomed, AllPending, RowsDiffer;
    if !s.mismatch {
      CountRead(cfg, s, k1, r1);
      CountRead(cfg, s, k2, r2);
      CountsDiffer(s.context.value.where, m, s.conn, k1, k2);
    }
    TornRead(id, cfg, s, k1, k2, r1, r2, Completed(cfg, s).(commandSuccess := true));
  }

  lemma CompletedSame(cfg: Config, s: State)
    requires InFlight(cfg, s)
    ensures SameRemotes(s.conn, Completed(cfg, s).conn)
  {
    CompletedFields(cfg, s);
    forall k | 0 <= k < cfg.n ensures Completed(cfg, s).conn[k].remote == s.conn[k].remote {
      CompletedConn(cfg, s, k);
    }
    hide InFlight, Completed;
  }

  lemma ProvokePending(id: nat, cfg: Config, s: State, mask: seq<bool>)
    requires Sized(cfg, s) && |mask| == cfg.n && AllPending(id, s.conn)
    ensures AllPending(id, ProvokeEach(cfg, s, mask).conn)
  {
    hide Respond, DrainError;
    forall k | 0 <= k < cfg.n ensures Pending(id, ProvokeEach(cfg, s, mask).conn[k].remote) {
      assert Pending(id, s.conn[k].remote);
      ErrorFails(s.conn[k].remote);
      assert s.conn[k].remote.Fail().Fail() == s.conn[k].remote.Fail();
    }
  }

  lemma ErrorFails(b: Remote)
    ensures Respond(b, ErrorQuery, Reject).remote == b.Fail()
  {
  }

  /** Even if the abort breaks off, the write has not been committed. */
  lemma AbortPending(id: nat, cfg: Config, s: State)
    requires Sized(cfg, s) && AllPending(id, s.conn)
    ensures AllPending(id, AbortMismatched(cfg, s).s.conn)
  {
    hide ProvokeEach, AllPending, Valid, SkipToReady, ErrorMask;
    if !cfg.failoverOnMismatch && AllReadyAlike(cfg, s) {
      var t := ReadBodies(cfg, s);
      ReadSame(cfg, s);
      SamePending(id, s.conn, t.conn);
      ProvokePending(id, cfg, t, ErrorMask(cfg, t, -1));
      var aborted := ProvokeEach(cfg, t, ErrorMask(cfg, t, -1));
      SkipSame(cfg, aborted);
      SamePending(id, aborted.conn, SkipToReady(cfg, aborted).s.conn);
    }
  }

  lemma SamePending(id: nat, conn: seq<Conn>, conn': seq<Conn>)
    requires AllPending(id, conn) && SameRemotes(conn, conn')
    ensures AllPending(id, conn')
  {
    hide Pending;
  }

  /** The abort fails the transaction on every target. */
  lemma CheckedDoomed(id: nat, cfg: Config, h: State, v: seq<Verdicts>)
    requires Settling(cfg, h) && |v| == cfg.n && h.mismatch && AllPending(id, h.conn) && OthersDoomed(id, h.context.value.where, h.conn)
    requires Checked(cfg, h, v).status == Continue
    ensures AllHave(IsDoomed(id), Checked(cfg, h, v).s.conn)
  {
    CheckedForm(cfg, h, v);
    var r := Checked(cfg, h, v).s;
    forall k | 0 <= k < cfg.n ensures Doomed(id, r.conn[k].remote) {
      assert Pending(id, h.conn[k].remote);
    }
    hide Checked, Settling;
  }

  lemma TornMismatch(id: nat, cfg: Config, s: State, k1: nat, k2: nat, r1: int, r2: int)
    requires Torn(id, cfg, s, k1, k2, r1, r2) && Agree(cfg, s) && Head(s, s.context.value.vmaster).Ready?
    ensures s.mismatch
  {
    HeadsAt(cfg, s, k1);
    var c := s.conn[k1];
    assert ConnOk(true, c) && c.queue[0].msg.Ready?;
    hide InFlight, Agree;
    ReadyIsLast(c);
  }

  lemma ReadyIsLast(c: Conn)
    requires ConnOk(true, c) && c.queue[0].msg.Ready?
    ensures |c.queue| == 1
  {
  }

  /** What target k has to read agrees in kind with the virtual master. */
  lemma HeadsAt(cfg: Config, s: State, k: nat)
    requires InFlight(cfg, s) && Agree(cfg, s) && k < cfg.n && s.context.value.where[k]
    ensures s.conn[k].queue != [] && ConnOk(true, s.conn[k]) && s.conn[s.context.value.vmaster].queue != []
    ensures KindOf(Head(s, k)) == KindOf(Head(s, s.context.value.vmaster))
  {
    SameKind(cfg, s, k);
    TargetTail(cfg, s, k);
  }

  /** Once the counts have been found to differ, the readiness message leads to a place from which the
      write cannot be committed. */
  lemma TornReady(id: nat, cfg: Config, s: State, k1: nat, k2: nat, r1: int, r2: int, v: seq<Verdicts>)
    requires Torn(id, cfg, s, k1, k2, r1, r2) && Agree(cfg, s) && Head(s, s.context.value.vmaster).Ready? && |v| == cfg.n
    ensures var o := ReadyForQuery(cfg, Begun(cfg, s), v);
            NowhereCommitted(id, o.s.conn) && (o.status == Continue ==> AllHave(IsDoomed(id), o.s.conn))
  {
    var h := Begun(cfg, s);
    TornMismatch(id, cfg, s, k1, k2, r1, r2);
    BegunSettles(cfg, s);
    BegunSame(cfg, s);
    PendingSame(id, s.conn, h.conn, s.context.value.where);
    hide Torn, Begun, Agree, Settling, InFlight, ReadyForQuery, AllPending, NowhereCommitted, AllHave, OthersDoomed, IsDoomed;
    NoWayBack(id);
    if Checked(cfg, h, v).status == Continue {
      CheckedDoomed(id, cfg, h, v);
      AfterCheckKeeps(id, IsDoomed(id), cfg, h, v);
    } else {
      AbortPending(id, cfg, h);
      CheckedEnds(cfg, h, v);
    }
    PendingNowhere(id, ReadyForQuery(cfg, h, v).s.conn);
  }

  lemma CheckedEnds(cfg: Config, h: State, v: seq<Verdicts>)
    requires Sized(cfg, h) && |v| == cfg.n && Checked(cfg, h, v).status == End
    ensures ReadyForQuery(cfg, h, v) == Checked(cfg, h, v)
  {
    hide AbortMismatched, EndInternal;
  }

  lemma ErrorIsRead(cfg: Config, s: State, v: seq<Verdicts>)
    requires InFlight(cfg, s) && s.uncompleted == None && |v| == cfg.n && !IsSelect(s.context.value.stmt)
    ensures var t := ReadBodies(cfg, Begun(cfg, s));
            var o := ErrorResponse(cfg, Begun(cfg, s), v);
            o.status == Continue && o.s == t.(commandSuccess := true, failed := o.s.failed)
  {
    var t := ReadBodies(cfg, Begun(cfg, s));
    assert t.context == s.context;
    assert RaiseError(cfg, t, v) == Outcome(t, Continue);
    assert t.uncompleted == None;
    hide InFlight, Begun, ReadBodies, RaiseError;
  }

  lemma TornError(id: nat, cfg: Config, s: State, k1: nat, k2: nat, r1: int, r2: int, v: seq<Verdicts>)
    requires Torn(id, cfg, s, k1, k2, r1, r2) && Agree(cfg, s) && Head(s, s.context.value.vmaster).Error? && |v| == cfg.n
    ensures Torn(id, cfg, ErrorResponse(cfg, Begun(cfg, s), v).s, k1, k2, r1, r2)
  {
    TornParts(id, cfg, s, k1, k2, r1, r2);
    hide *;
    var t := ReadBodies(cfg, Begun(cfg, s));
    TornMessage(id, cfg, s, k1, k2, r1, r2);
    ErrorLeads(cfg, s, v);
    ErrorIsRead(cfg, s, v);
    NearFlies(cfg, ErrorResponse(cfg, Begun(cfg, s), v).s);
    TornParts(id, cfg, t, k1, k2, r1, r2);
    TornRead(id, cfg, t, k1, k2, r1, r2, ErrorResponse(cfg, Begun(cfg, s), v).s);
  }

  lemma TornParts(id: nat, cfg: Config, s: State, k1: nat, k2: nat, r1: int, r2: int)
    requires Torn(id, cfg, s, k1, k2, r1, r2)
    ensures s.uncompleted == None && Preparing(s)
    ensures InFlight(cfg, s) && Sized(cfg, s) && s.context.Some? && !IsSelect(s.context.value.stmt)
    ensures s.context.value.vmaster < |s.conn| && |s.conn| == cfg.n && SameRemotes(s.conn, s.conn)
    ensures k1 < |s.conn| && k2 < |s.conn| && (s.mismatch || (CountOf(s.conn[k1], r1) && CountOf(s.conn[k2], r2)))
  {
    hide AllPending, OthersDoomed, CountOf;
  }

  lemma TornResponse(id: nat, cfg: Config, s: State, k1: nat, k2: nat, r1: int, r2: int, v: seq<Verdicts>)
    requires Torn(id, cfg, s, k1, k2, r1, r2) && |v| == cfg.n
    ensures var o := ProcessBackendResponse(cfg, s, v);
            NowhereCommitted(id, o.s.conn) &&
            (o.status == Continue ==> if o.s.inProgress then Torn(id, cfg, o.s, k1, k2, r1, r2) else AllHave(IsDoomed(id), o.s.conn))
  {
    var o := ProcessBackendResponse(cfg, s, v);
    TornFlies(id, cfg, s, k1, k2, r1, r2);
    if Agree(cfg, s) {
      ResponseIs(cfg, s, v);
      ResponseKept(cfg, s, v);
      hide ProcessBackendResponse, Agree, InFlight, Torn, Begun, Completed, ErrorResponse, ReadyForQuery, AllPending,
        NowhereCommitted, AllHave;
      match Head(s, s.context.value.vmaster)
      case Ready(_) =>
        TornReady(id, cfg, s, k1, k2, r1, r2, v);
        ReadyResponse(cfg, s, v);
        FlownIsOver(cfg, s, v);
      case Error =>
        TornError(id, cfg, s, k1, k2, r1, r2, v);
        TornFlies(id, cfg, o.s, k1, k2, r1, r2);
      case Complete(_) =>
        TornComplete(id, cfg, s, k1, k2, r1, r2);
        TornFlies(id, cfg, o.s, k1, k2, r1, r2);
      case _ =>
        TornMessage(id, cfg, s, k1, k2, r1, r2);
        TornFlies(id, cfg, o.s, k1, k2, r1, r2);
    } else {
      PendingNowhere(id, s.conn);
    }
  }

  lemma TornFlies(id: nat, cfg: Config, s: State, k1: nat, k2: nat, r1: int, r2: int)
    requires Torn(id, cfg, s, k1, k2, r1, r2)
    ensures InFlight(cfg, s) && Preparing(s) && Flying(cfg, s) && s.inProgress && NowhereCommitted(id, s.conn)
  {
    PendingNowhere(id, s.conn);
  }

  lemma FlownIsOver(cfg: Config, s: State, v: seq<Verdicts>)
    requires InFlight(cfg, s) && Preparing(s) && |v| == cfg.n && Agree(cfg, s) && Head(s, s.context.value.vmaster).Ready?
    ensures ReadyForQuery(cfg, Begun(cfg, s), v).status == Continue ==> !ReadyForQuery(cfg, Begun(cfg, s), v).s.inProgress
  {
    ReadyResponse(cfg, s, v);
    hide ReadyForQuery, Begun, Agree, InFlight;
  }

  lemma {:induction false} DriveTorn(id: nat, cfg: Config, s: State, k1: nat, k2: nat, r1: int, r2: int, v: seq<Verdicts>)
    requires Torn(id, cfg, s, k1, k2, r1, r2) && |v| == cfg.n
    ensures var o := Drive(cfg, s, v);
            NowhereCommitted(id, o.s.conn) && (o.status == Continue ==> AllHave(IsDoomed(id), o.s.conn))
    decreases |s.conn[MasterNode(cfg, s)].queue|
  {
    TornFlies(id, cfg, s, k1, k2, r1, r2);
    TornResponse(id, cfg, s, k1, k2, r1, r2, v);
    DriveStep(cfg, s, v);
    ResponseKept(cfg, s, v);
    var o := ProcessBackendResponse(cfg, s, v);
    if o.status == Continue && o.s.inProgress {
      FlyingNode(cfg, s);
      FlyingNode(cfg, o.s);
      hide ProcessBackendResponse, InFlight, Boundary, Torn, Drive, NowhereCommitted, AllHave;
      DriveTorn(id, cfg, o.s, k1, k2, r1, r2, v);
    }
  }

  // ---------------------------------------------------------------------------------------
  // The write, and everything after it
  // ---------------------------------------------------------------------------------------

  /** A write of replicated nodes, at least two of which carry it out with different row counts. */
  ghost predicate CountedDifferently(cfg: Config, s: State, p: Step, k1: nat, k2: nat) {
    Boundary(cfg, s) && cfg.mode == Replication && !cfg.failoverOnMismatch && |p.v| == cfg.n && CountsRows(p.stmt) &&
    k1 < k2 < cfg.n && RoutedTo(cfg, s, p)[k1] && RoutedTo(cfg, s, p)[k2] &&
    p.v[k1].main.Accept? && p.v[k2].main.Accept? && p.v[k1].main.rows != p.v[k2].main.rows &&
    s.conn[k1].remote.state != Failed && s.conn[k2].remote.state != Failed
  }

  /** It does happen: two nodes of a new session delete one row and two rows. */
  lemma MismatchHappens() returns (cfg: Config, s: State, p: Step)
    ensures CountedDifferently(cfg, s, p, 0, 1) && AllHave(IsFresh(p.id), s.conn)
  {
    var b := Remote(Idle, [], [], [], map[]);
    var v1 := Verdicts(Accept(0, 0), Accept(1, 0), Accept(0, 0));
    var v2 := Verdicts(Accept(0, 0), Accept(2, 0), Accept(0, 0));
    cfg := Config(Replication, 2, [true, true], [true, true], 0, -1, 0, false, false, false, false, false);
    s := NewSession([Conn(b, [], Idle, false), Conn(b, [], Idle, false)]);
    p := Step(Dml, 7, false, UnknownIsolation, [v1, v2]);
    BeginsAtBoundary(cfg, s.conn);
    assert RoutedTo(cfg, s, p) == AllLive(cfg, Nobody(cfg));
  }

  /** Such a write is committed on no node by the time it has been answered, or the session has ended; and
      if the session goes on, no node can commit it any more. */
  lemma NotCommitted(cfg: Config, s: State, p: Step, k1: nat, k2: nat)
    requires CountedDifferently(cfg, s, p, k1, k2) && AllHave(IsFresh(p.id), s.conn)
    ensures NowhereCommitted(p.id, RunStep(cfg, s, p).s.conn)
    ensures RunStep(cfg, s, p).status == Continue ==> AllHave(IsDoomed(p.id), RunStep(cfg, s, p).s.conn)
  {
    var t := WhereToSend(cfg, StartQuery(cfg, s, p.stmt, p.id), p.noBalance, p.asked);
    TargetsAreProper(cfg, s, p.stmt, p.id, p.noBalance, p.asked);
    var o := SendOut(cfg, t, p.v);
    assert SimpleQuery(cfg, s, p.stmt, p.id, p.noBalance, p.asked, p.v) == o;
    assert WriteRouted(p.id, cfg, t, k1, k2);
    assert !cfg.failoverOnMismatch && !t.mismatch && t.conn == s.conn && t.uncompleted == None;
    assert RunStep(cfg, s, p) == if o.status == End then o else Drive(cfg, o.s, p.v);
    hide *;
    SentPending(p.id, cfg, t, k1, k2, p.v);
    PendingNowhere(p.id, o.s.conn);
    if o.status == Continue {
      SentTorn(p.id, cfg, t, k1, k2, p.v);
      DriveTorn(p.id, cfg, o.s, k1, k2, p.v[k1].main.rows, p.v[k2].main.rows, p.v);
    }
  }

  /** Over every run that contains such a write, before and after it whatever other statements in whatever
      state of transaction, and with whatever answers: the write is committed on no node. */
  lemma {:induction false} MismatchedWriteNeverCommitted(cfg: Config, s: State, before: seq<Step>, p: Step, after: seq<Step>,
                                                         k1: nat, k2: nat)
    requires Boundary(cfg, s) && AllHave(IsFresh(p.id), s.conn) && SizedSteps(cfg, before) && SizedSteps(cfg, after) && |p.v| == cfg.n
    requires (forall i :: 0 <= i < |before| ==> before[i].id != p.id) && (forall i :: 0 <= i < |after| ==> after[i].id != p.id)
    requires RunAll(cfg, s, before).status == Continue && CountedDifferently(cfg, RunAll(cfg, s, before).s, p, k1, k2)
    ensures var o := RunStep(cfg, RunAll(cfg, s, before).s, p);
            NowhereCommitted(p.id, if o.status == End then o.s.conn else RunAll(cfg, o.s, after).s.conn)
  {
    var t := RunAll(cfg, s, before).s;
    var o := RunStep(cfg, t, p);
    hide RunAll, RunStep, Boundary, CountedDifferently, AllHave, NowhereCommitted, KeptBy, IsFresh, IsDoomed;
    NoWayBack(p.id);
    RunsKeep(p.id, IsFresh(p.id), cfg, s, before);
    NotCommitted(cfg, t, p, k1, k2);
    if o.status == Continue {
      RunsKeep(p.id, IsDoomed(p.id), cfg, o.s, after);
      PendingNowhere(p.id, RunAll(cfg, o.s, after).s.conn);
    }
  }
}
