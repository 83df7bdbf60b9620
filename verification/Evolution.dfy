/** What holds of every node, and is kept by whatever the node answers, holds over every run. */
module Evolution {
  import opened Options
  import opened Statements
  import opened Postgres
  import opened SessionModel
  import opened Batches
  import opened CommitOrder
  import opened Delivery
  import opened Framing
  import opened Reading
  import opened Settlement
  import opened StatementBoundary

  /** The query does not run statement id. */
  predicate Foreign(id: nat, q: Query) { q.Client? ==> q.id != id }

  /** No query but that of statement id makes P false. */
  ghost predicate KeptBy(id: nat, P: Remote -> bool) {
    forall b, q, a :: P(b) && Foreign(id, q) ==> P(Respond(b, q, a).remote)
  }

  ghost predicate AllHave(P: Remote -> bool, conn: seq<Conn>) {
    forall k :: 0 <= k < |conn| ==> P(conn[k].remote)
  }

  lemma Stays(id: nat, P: Remote -> bool, b: Remote, q: Query, a: Answer)
    requires P(b) && KeptBy(id, P) && Foreign(id, q)
    ensures P(Respond(b, q, a).remote)
  {
    hide Respond, Foreign;
  }

  /** The connections' remotes are untouched. */
  ghost predicate SameRemotes(conn: seq<Conn>, conn': seq<Conn>) {
    |conn'| == |conn| && forall k :: 0 <= k < |conn| ==> conn'[k].remote == conn[k].remote
  }

  lemma SameKeeps(P: Remote -> bool, conn: seq<Conn>, conn': seq<Conn>)
    requires AllHave(P, conn) && SameRemotes(conn, conn')
    ensures AllHave(P, conn')
  {
  }

  lemma RunOnKeeps(id: nat, P: Remote -> bool, cfg: Config, s: State, action: Action, mask: seq<bool>, v: seq<Verdicts>)
    requires Sized(cfg, s) && |mask| == |v| == cfg.n && AllHave(P, s.conn) && KeptBy(id, P)
    ensures AllHave(P, RunOn(cfg, s, action, mask, v).s.conn)
  {
    hide Act, RunOn, Respond;
    RunOnTouches(cfg, s, action, mask, v);
    forall k | 0 <= k < cfg.n ensures P(RunOn(cfg, s, action, mask, v).s.conn[k].remote) {
      ActEvolves(action, s.conn[k], v[k]);
      Stays(id, P, s.conn[k].remote, QueryOf(action), VerdictOn(action, v[k]));
    }
  }

  lemma SendKeepsAll(id: nat, P: Remote -> bool, cfg: Config, s: State, sendType: int, node: nat, v: seq<Verdicts>)
    requires Sized(cfg, s) && s.context.Some? && |v| == cfg.n && AllHave(P, s.conn) && KeptBy(id, P) && Foreign(id, TheQuery(s))
    ensures AllHave(P, SendAndWait(cfg, s, sendType, node, v).s.conn)
  {
    var r := SendAndWait(cfg, s, sendType, node, v).s;
    hide Respond, Receives, Receivers, KeptBy, Waits;
    forall k | 0 <= k < cfg.n ensures P(r.conn[k].remote) {
      Stays(id, P, s.conn[k].remote, TheQuery(s), v[k].main);
    }
  }

  lemma DispatchKeeps(id: nat, P: Remote -> bool, cfg: Config, s: State, v: seq<Verdicts>)
    requires Sized(cfg, s) && s.context.Some? && |v| == cfg.n && AllHave(P, s.conn) && KeptBy(id, P) && Foreign(id, TheQuery(s))
    ensures AllHave(P, Dispatch(cfg, s, v).s.conn)
  {
    hide SendAndWait, AllHave;
    var m := MasterNode(cfg, s);
    SendKeepsAll(id, P, cfg, s, 1, m, v);
    SendKeepsAll(id, P, cfg, s, -1, m, v);
    SendKeepsAll(id, P, cfg, s, 0, 0, v);
    SendKeepsAll(id, P, cfg, SendAndWait(cfg, s, 1, m, v).s, -1, m, v);
    SendKeepsAll(id, P, cfg, SendAndWait(cfg, s, -1, m, v).s, 1, m, v);
  }

  lemma SendOutKeeps(id: nat, P: Remote -> bool, cfg: Config, s: State, v: seq<Verdicts>)
    requires Sized(cfg, s) && s.context.Some? && |v| == cfg.n && AllHave(P, s.conn) && KeptBy(id, P) && Foreign(id, TheQuery(s))
    ensures AllHave(P, SendOut(cfg, s, v).s.conn)
  {
    hide RunOn, AllHave, Dispatch, SeveralTargets;
    RunOnKeeps(id, P, cfg, s, OpenInternal, BeginMask(cfg, s), v);
    DispatchKeeps(id, P, cfg, NotePrepare(Opening(cfg, s, v).s), v);
  }

  // Reading changes no node.

  lemma ReadSame(cfg: Config, s: State)
    requires Sized(cfg, s)
    ensures AllOpened(cfg, s) ==> SameRemotes(s.conn, ReadBodies(cfg, s).conn)
    ensures (forall i :: 0 <= i < cfg.n && Valid(cfg, s, i) ==> KindReadable(s.conn[i])) ==> SameRemotes(s.conn, ReadKinds(cfg, s).conn)
  {
    hide Valid;
  }

  lemma {:induction false} SkipSame(cfg: Config, s: State)
    requires Sized(cfg, s)
    ensures SameRemotes(s.conn, SkipToReady(cfg, s).s.conn)
    decreases |s.conn[MasterNode(cfg, s)].queue|
  {
    if MasterIsLowestValid(cfg, s) && Agree(cfg, s) {
      ReadSame(cfg, s);
      if !s.conn[MasterNode(cfg, s)].queue[0].msg.Ready? {
        ReadKindsOpens(cfg, s);
        ReadSame(cfg, ReadKinds(cfg, s));
        hide Valid, ReadBodies, ReadKinds;
        SkipSame(cfg, DiscardPackets(cfg, s));
      }
    }
  }

  lemma EachKeeps(id: nat, P: Remote -> bool, cfg: Config, s: State, mask: seq<bool>)
    requires Sized(cfg, s) && |mask| == cfg.n && AllHave(P, s.conn) && KeptBy(id, P)
    ensures AllHave(P, ProvokeEach(cfg, s, mask).conn)
  {
    hide Respond, KeptBy, DrainError;
    forall k | 0 <= k < cfg.n ensures P(ProvokeEach(cfg, s, mask).conn[k].remote) {
      Stays(id, P, s.conn[k].remote, ErrorQuery, Reject);
    }
  }

  lemma AbortKeeps(id: nat, P: Remote -> bool, cfg: Config, s: State)
    requires Sized(cfg, s) && AllHave(P, s.conn) && KeptBy(id, P)
    ensures AllHave(P, AbortMismatched(cfg, s).s.conn)
  {
    hide ProvokeEach, AllHave, Valid, SkipToReady, ErrorMask;
    if !cfg.failoverOnMismatch && AllReadyAlike(cfg, s) {
      var t := ReadBodies(cfg, s);
      ReadSame(cfg, s);
      SameKeeps(P, s.conn, t.conn);
      EachKeeps(id, P, cfg, t, ErrorMask(cfg, t, -1));
      var aborted := ProvokeEach(cfg, t, ErrorMask(cfg, t, -1));
      SkipSame(cfg, aborted);
      SameKeeps(P, aborted.conn, SkipToReady(cfg, aborted).s.conn);
    }
  }

  lemma EndKeeps(id: nat, P: Remote -> bool, cfg: Config, s: State, v: seq<Verdicts>)
    requires Sized(cfg, s) && |v| == cfg.n && AllHave(P, s.conn) && KeptBy(id, P)
    ensures AllHave(P, EndInternal(cfg, s, v).s.conn)
  {
    hide RunOn, AllHave, Valid, CommitMask, Participates;
    RunOnKeeps(id, P, cfg, s, CloseInternal, CommitMask(cfg, s), v);
    var others := RunOn(cfg, s, CloseInternal, CommitMask(cfg, s), v).s;
    RunOnKeeps(id, P, cfg, others, CloseInternal, Only(cfg, MasterNode(cfg, s)), v);
  }

  lemma CloseKeeps(id: nat, P: Remote -> bool, cfg: Config, s: State, v: seq<Verdicts>)
    requires Sized(cfg, s) && |v| == cfg.n && AllHave(P, s.conn) && KeptBy(id, P)
    ensures AllHave(P, CloseQuery(cfg, s, v).s.conn)
  {
    hide RunOn, AllHave, Remember, IsTwoPhase, IsStart, SetsSerializable;
    if s.inProgress && s.commandSuccess && s.context.Some? {
      var h := Remember(s.context.value.stmt, History(s.writing, s.failed, s.isolation));
      var t := s.(writing := h.writing, failed := h.failed, isolation := h.isolation);
      RunOnKeeps(id, P, cfg, t, CommitStandby,
                  seq(cfg.n, k requires 0 <= k < cfg.n => t.conn[k].tstate == InBlock && cfg.up[k] && k != cfg.MainNode()), v);
    }
  }

  lemma TakeSame(cfg: Config, s: State)
    requires Sized(cfg, s) && AllReady(cfg, s)
    ensures SameRemotes(s.conn, TakeStates(cfg, s).conn)
  {
    hide Valid;
  }

  /** ReadyForQuery, from the check for a mismatch on. */
  lemma AfterCheckKeeps(id: nat, P: Remote -> bool, cfg: Config, s: State, v: seq<Verdicts>)
    requires Sized(cfg, s) && |v| == cfg.n && KeptBy(id, P) && AllHave(P, Checked(cfg, s, v).s.conn)
    ensures AllHave(P, ReadyForQuery(cfg, s, v).s.conn)
  {
    hide AbortMismatched, EndInternal, CloseQuery, TakeStates, AllReady, AllHave, KeptBy;
    var checked := Checked(cfg, s, v);
    EndKeeps(id, P, cfg, checked.s, v);
    var ended := EndInternal(cfg, checked.s, v).s;
    if AllReady(cfg, ended) {
      TakeSame(cfg, ended);
      SameKeeps(P, ended.conn, TakeStates(cfg, ended).conn);
      CloseKeeps(id, P, cfg, TakeStates(cfg, ended), v);
    }
  }

  lemma ReadyKeeps(id: nat, P: Remote -> bool, cfg: Config, s: State, v: seq<Verdicts>)
    requires Sized(cfg, s) && |v| == cfg.n && AllHave(P, s.conn) && KeptBy(id, P)
    ensures AllHave(P, ReadyForQuery(cfg, s, v).s.conn)
  {
    hide AbortMismatched, ReadyForQuery, AllHave, KeptBy;
    AbortKeeps(id, P, cfg, s);
    AfterCheckKeeps(id, P, cfg, s, v);
  }

  lemma RaiseKeeps(id: nat, P: Remote -> bool, cfg: Config, s: State, v: seq<Verdicts>)
    requires Sized(cfg, s) && |v| == cfg.n && AllHave(P, s.conn) && KeptBy(id, P)
    ensures AllHave(P, RaiseError(cfg, s, v).s.conn)
  {
    hide RunOn, AllHave, IsSelect, ErrorMask, AllLive;
    if s.context.Some? {
      var c := s.context.value;
      var u := s.(context := Some(c.(where := c.where[cfg.PrimaryNode() := true])));
      RunOnKeeps(id, P, cfg, u, Provoke, Only(cfg, cfg.PrimaryNode()), v);
      var t := s.(context := Some(c.(where := AllLive(cfg, c.where))));
      RunOnKeeps(id, P, cfg, t, Provoke, ErrorMask(cfg, t, cfg.realMaster), v);
    }
  }

  lemma NoteSame(cfg: Config, s: State)
    requires Sized(cfg, s)
    ensures SameRemotes(s.conn, NoteComplete(cfg, s).conn)
  {
    hide Valid, ListAfter, IsStart;
  }

  lemma CompleteSame(cfg: Config, s: State)
    requires Sized(cfg, s) && AllOpened(cfg, s) && Valid(cfg, s, MasterNode(cfg, s))
    ensures SameRemotes(s.conn, CommandComplete(cfg, s).conn)
  {
    var n := NoteComplete(cfg, s);
    NoteSame(cfg, s);
    assert AllOpened(cfg, n);
    hide Valid, NoteComplete, AllOpened, ReadBodies;
    ReadSame(cfg, n);
  }

  lemma ResponseKeeps(id: nat, P: Remote -> bool, cfg: Config, s: State, v: seq<Verdicts>)
    requires Sized(cfg, s) && |v| == cfg.n && AllHave(P, s.conn) && KeptBy(id, P)
    ensures AllHave(P, ProcessBackendResponse(cfg, s, v).s.conn)
  {
    hide ReadyForQuery, RaiseError, CommandComplete, AllHave, Valid, ReadKinds, ReadBodies;
    if Agree(cfg, s) {
      ReadKindsOpens(cfg, s);
      ReadSame(cfg, s);
      var k := ReadKinds(cfg, s);
      SameKeeps(P, s.conn, k.conn);
      ReadSame(cfg, k);
      SameKeeps(P, k.conn, ReadBodies(cfg, k).conn);
      match s.conn[MasterNode(cfg, s)].queue[0].msg
      case Ready(_) => ReadyKeeps(id, P, cfg, k, v);
      case Error => RaiseKeeps(id, P, cfg, ReadBodies(cfg, k), v);
      case Complete(_) =>
        CompleteSame(cfg, k);
        SameKeeps(P, k.conn, CommandComplete(cfg, k).conn);
      case _ =>
    }
  }

  lemma {:induction false} DriveKeeps(id: nat, P: Remote -> bool, cfg: Config, s: State, v: seq<Verdicts>)
    requires Sized(cfg, s) && |v| == cfg.n && AllHave(P, s.conn) && KeptBy(id, P)
    ensures AllHave(P, Drive(cfg, s, v).s.conn)
    decreases |s.conn[MasterNode(cfg, s)].queue|
  {
    hide ProcessBackendResponse, AllHave;
    ResponseKeeps(id, P, cfg, s, v);
    var o := ProcessBackendResponse(cfg, s, v);
    if s.inProgress && o.status == Continue && o.s.inProgress &&
       |o.s.conn[MasterNode(cfg, o.s)].queue| < |s.conn[MasterNode(cfg, s)].queue| {
      DriveKeeps(id, P, cfg, o.s, v);
    }
  }

  lemma StatementKeeps(id: nat, P: Remote -> bool, cfg: Config, s: State, p: Step)
    requires Sized(cfg, s) && |p.v| == cfg.n && AllHave(P, s.conn) && KeptBy(id, P) && p.id != id
    ensures AllHave(P, RunStep(cfg, s, p).s.conn)
  {
    hide SendOut, Drive, AllHave, Route, FollowPrepare, FirstTarget;
    var t := WhereToSend(cfg, StartQuery(cfg, s, p.stmt, p.id), p.noBalance, p.asked);
    SendOutKeeps(id, P, cfg, t, p.v);
    DriveKeeps(id, P, cfg, SimpleQuery(cfg, s, p.stmt, p.id, p.noBalance, p.asked, p.v).s, p.v);
    if p.stmt.ShowPool? {
      assert SimpleQuery(cfg, s, p.stmt, p.id, p.noBalance, p.asked, p.v).s.conn == s.conn;
    }
  }

  /** Over every run of other statements, in either mode and with whatever answers, and whether or not the
      session lasts. */
  lemma {:induction false} RunsKeep(id: nat, P: Remote -> bool, cfg: Config, s: State, steps: seq<Step>)
    requires Sized(cfg, s) && SizedSteps(cfg, steps) && AllHave(P, s.conn) && KeptBy(id, P)
    requires forall i :: 0 <= i < |steps| ==> steps[i].id != id
    ensures AllHave(P, RunAll(cfg, s, steps).s.conn)
    decreases |steps|
  {
    if steps != [] {
      StatementKeeps(id, P, cfg, s, steps[0]);
      hide RunStep;
      RunsKeep(id, P, cfg, RunStep(cfg, s, steps[0]).s, steps[1..]);
    }
  }
}
