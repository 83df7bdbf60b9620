/** ReadyForQuery: what becomes of every node's transaction when a statement has been answered, and the
    way back to the boundary between statements. */
module Settlement {
  import opened Options
  import opened Statements
  import opened Postgres
  import opened SessionModel
  import opened Batches
  import opened CommitOrder
  import opened Framing
  import opened Reading

  /** The kind of the readiness message has been read from every target. */
  ghost predicate Settling(cfg: Config, s: State) {
    cfg.WellFormed() && cfg.mode != Raw && Sized(cfg, s) && ProperLists(cfg, s.sent, s.uncompleted) &&
    s.inProgress && !s.reset && s.context.Some? && Proper(cfg, s.context.value.where) &&
    s.context.value.where[s.context.value.vmaster] && HalfRead(cfg, s.context.value.where, s.conn) &&
    RaiseReady(cfg, s.context.value, s.conn[cfg.realMaster].tstate)
  }

  ghost predicate HalfRead(cfg: Config, where: seq<bool>, conn: seq<Conn>)
    requires |cfg.live| == |where| == |conn| == cfg.n
  {
    forall k :: 0 <= k < cfg.n && cfg.live[k] ==>
      if where[k] then AtReady(conn[k], true) && (conn[k].internal ==> conn[k].tstate != Idle) else Quiet(conn[k])
  }

  lemma TargetValid(cfg: Config, s: State, k: nat)
    requires Settling(cfg, s) && k < cfg.n
    ensures Valid(cfg, s, k) <==> s.context.value.where[k]
    ensures s.context.value.where[k] ==> cfg.live[k] && AtReady(s.conn[k], true) && (s.conn[k].internal ==> s.conn[k].tstate != Idle)
    ensures MasterNode(cfg, s) == s.context.value.vmaster && s.context.value.where[s.context.value.vmaster]
  {
  }

  lemma BegunSettles(cfg: Config, s: State)
    requires InFlight(cfg, s) && Agree(cfg, s) && Head(s, s.context.value.vmaster).Ready?
    ensures Settling(cfg, Begun(cfg, s))
    ensures forall k :: 0 <= k < cfg.n ==>
              Begun(cfg, s).conn[k] == s.conn[k].(queue := Begun(cfg, s).conn[k].queue) &&
              (if s.context.value.where[k] then AtReady(s.conn[k], false) else Begun(cfg, s).conn[k] == s.conn[k])
  {
    var b := Begun(cfg, s);
    var where := s.context.value.where;
    forall k | 0 <= k < cfg.n
      ensures b.conn[k] == s.conn[k].(queue := b.conn[k].queue)
      ensures where[k] ==> AtReady(s.conn[k], false) && AtReady(b.conn[k], true) && ConnOk(true, s.conn[k])
      ensures !where[k] ==> b.conn[k] == s.conn[k]
    {
      BegunForm(cfg, s, k);
      if where[k] {
        SameKind(cfg, s, k);
        TargetTail(cfg, s, k);
        ReadyTail(s.conn[k]);
      }
    }
    hide Begun, Agree, Proper, Tail, Quiet, AtReady, IsSelect;
  }

  // ---------------------------------------------------------------------------------------
  // The abort after a mismatch
  // ---------------------------------------------------------------------------------------

  function Aborted(c: Conn): Conn {
    c.(remote := c.remote.Fail(), queue := [Packet(Ready(c.remote.Fail().state), true)])
  }

  /** Once every target has just a readiness message left, it is found at once, provided that no target
      lies below the virtual master. */
  lemma SkipForm(cfg: Config, s: State)
    requires NearReady(cfg, s)
    ensures SkipToReady(cfg, s).status == Continue <==> MasterIsLowestValid(cfg, s)
    ensures SkipToReady(cfg, s).status == Continue ==>
              forall k :: 0 <= k < cfg.n ==>
                SkipToReady(cfg, s).s.conn[k] ==
                if s.context.value.where[k] then s.conn[k].(queue := [Packet(Ready(s.conn[k].remote.state), true)]) else s.conn[k]
  {
    var m := s.context.value.vmaster;
    assert AtReady(s.conn[m], false);
    assert Agree(cfg, s);
    assert SkipToReady(cfg, s) == if MasterIsLowestValid(cfg, s) then Outcome(Begun(cfg, s), Continue) else Outcome(s, End);
    hide SkipToReady, MasterIsLowestValid;
    forall k | 0 <= k < cfg.n
      ensures Begun(cfg, s).conn[k] ==
              if s.context.value.where[k] then s.conn[k].(queue := [Packet(Ready(s.conn[k].remote.state), true)]) else s.conn[k]
    {
      BegunForm(cfg, s, k);
      if s.context.value.where[k] {
        assert AtReady(s.conn[k], false);
        assert s.conn[k].queue[0 := s.conn[k].queue[0].(begun := true)] == [Packet(Ready(s.conn[k].remote.state), true)];
      }
    }
  }

  /** The targets report the same transaction state, and none of them lies below the virtual master: what
      pool_read_kind asks for. */
  ghost predicate ReportAlike(cfg: Config, s: State)
    requires Sized(cfg, s) && s.context.Some?
  {
    MasterIsLowestValid(cfg, s) &&
    forall k :: 0 <= k < cfg.n && s.context.value.where[k] ==>
      s.conn[k].remote.state == s.conn[s.context.value.vmaster].remote.state
  }

  lemma ReportAlikeIs(cfg: Config, s: State)
    requires Settling(cfg, s)
    ensures AllReadyAlike(cfg, s) <==> ReportAlike(cfg, s)
  {
    var m := s.context.value.vmaster;
    forall k | 0 <= k < cfg.n
      ensures Valid(cfg, s, k) <==> s.context.value.where[k]
      ensures Valid(cfg, s, k) ==> s.conn[k].queue == [Packet(Ready(s.conn[k].remote.state), true)]
    {
      TargetValid(cfg, s, k);
    }
    TargetValid(cfg, s, m);
    hide Settling, Valid, MasterIsLowestValid;
  }

  /** The mismatch path goes on if and only if failover on mismatch is off and the targets report alike; it
      has then aborted the transaction on each of them. */
  lemma AbortForm(cfg: Config, s: State)
    requires Settling(cfg, s)
    ensures AbortMismatched(cfg, s).status == Continue <==> !cfg.failoverOnMismatch && ReportAlike(cfg, s)
    ensures var r := AbortMismatched(cfg, s).s;
            AbortMismatched(cfg, s).status == Continue ==>
              r == s.(conn := r.conn, log := r.log, mismatch := false) && |r.conn| == cfg.n &&
              forall k :: 0 <= k < cfg.n ==> r.conn[k] == if s.context.value.where[k] then Aborted(s.conn[k]) else s.conn[k]
  {
    ReportAlikeIs(cfg, s);
    if !cfg.failoverOnMismatch && ReportAlike(cfg, s) {
      var where := s.context.value.where;
      var t := ReadBodies(cfg, s);
      var mask := ErrorMask(cfg, t, -1);
      forall k | 0 <= k < cfg.n
        ensures t.conn[k] == if where[k] then s.conn[k].(queue := []) else s.conn[k]
        ensures mask[k] <==> where[k]
      {
        ReadAway(cfg, s, k);
      }
      var a := ProvokeEach(cfg, t, mask);
      NothingLeft(cfg, s, t);
      LowestStays(cfg, s, a);
      hide *;
      EachForm(cfg, t, mask);
      FailedNearReady(cfg, s, a);
      SkipForm(cfg, a);
      AbortSkips(cfg, s, a);
      forall k | 0 <= k < cfg.n
        ensures SkipToReady(cfg, a).s.conn[k] == if where[k] then Aborted(s.conn[k]) else s.conn[k]
      {
        AbortedTwice(s.conn[k]);
      }
    }
  }

  lemma AbortSkips(cfg: Config, s: State, a: State)
    requires Sized(cfg, s) && AllReadyAlike(cfg, s) && !cfg.failoverOnMismatch
    requires a == ProvokeEach(cfg, ReadBodies(cfg, s), ErrorMask(cfg, ReadBodies(cfg, s), -1))
    ensures AbortMismatched(cfg, s) ==
            Outcome(if SkipToReady(cfg, a).status == Continue then SkipToReady(cfg, a).s.(mismatch := false) else SkipToReady(cfg, a).s,
                    SkipToReady(cfg, a).status)
  {
    hide SkipToReady, ProvokeEach, ReadBodies, ErrorMask, MasterIsLowestValid;
  }

  lemma LowestStays(cfg: Config, s: State, a: State)
    requires Sized(cfg, s) && Sized(cfg, a) && a.context == s.context && a.inProgress == s.inProgress
    ensures MasterIsLowestValid(cfg, a) <==> MasterIsLowestValid(cfg, s)
  {
    assert forall i :: 0 <= i < cfg.n ==> (Valid(cfg, a, i) <==> Valid(cfg, s, i));
    hide Target;
  }

  lemma EachForm(cfg: Config, s: State, mask: seq<bool>)
    requires Sized(cfg, s) && |mask| == cfg.n
    requires forall k :: 0 <= k < cfg.n && mask[k] ==> s.conn[k].queue == [] || AtReady(s.conn[k], false)
    ensures forall k :: 0 <= k < cfg.n ==>
              ProvokeEach(cfg, s, mask).conn[k] == if mask[k] then Failing(s.conn[k]) else s.conn[k]
  {
    hide DoError;
    var v := Verdicts(Reject, Reject, Reject);
    forall k | 0 <= k < cfg.n && mask[k] ensures DoError(s.conn[k]).c == Failing(s.conn[k]) {
      ProvokeActs(s.conn[k], v);
    }
  }

  lemma AbortedTwice(c: Conn)
    ensures Failing(c.(queue := [])).(queue := [Packet(Ready(Failing(c.(queue := [])).remote.state), true)]) == Aborted(c)
  {
  }

  lemma NothingLeft(cfg: Config, s: State, t: State)
    requires Settling(cfg, s) && |t.conn| == cfg.n
    requires forall k :: 0 <= k < cfg.n ==> t.conn[k] == if s.context.value.where[k] then s.conn[k].(queue := []) else s.conn[k]
    ensures forall k :: 0 <= k < cfg.n && s.context.value.where[k] ==> t.conn[k].queue == []
  {
  }

  lemma ReadAway(cfg: Config, s: State, k: nat)
    requires Settling(cfg, s) && k < cfg.n && AllOpened(cfg, s)
    ensures ReadBodies(cfg, s).conn[k] == if s.context.value.where[k] then s.conn[k].(queue := []) else s.conn[k]
    ensures ErrorMask(cfg, ReadBodies(cfg, s), -1)[k] <==> s.context.value.where[k]
  {
    TargetValid(cfg, s, k);
    hide Settling;
  }

  lemma FailedNearReady(cfg: Config, s: State, a: State)
    requires Settling(cfg, s) && a == s.(conn := a.conn, log := a.log) && |a.conn| == cfg.n
    requires forall k :: 0 <= k < cfg.n ==> a.conn[k] == if s.context.value.where[k] then Failing(s.conn[k].(queue := [])) else s.conn[k]
    ensures NearReady(cfg, a)
  {
    var where := s.context.value.where;
    forall k | 0 <= k < cfg.n && cfg.live[k] ensures ConnOk(where[k], a.conn[k]) && (where[k] ==> AtReady(a.conn[k], false)) {
      TargetValid(cfg, s, k);
    }
    forall k | 0 <= k < cfg.n && where[k] ensures cfg.live[k] { TargetValid(cfg, s, k); }
    hide ConnOk, HalfRead, AtReady, IsSelect;
  }

  // ---------------------------------------------------------------------------------------
  // The end of an internal transaction, and the states taken over
  // ---------------------------------------------------------------------------------------

  function Ended(c: Conn, a: Answer): Conn {
    if c.internal then Closed(c, a) else c
  }

  lemma EndForm(cfg: Config, s: State, v: seq<Verdicts>)
    requires Settling(cfg, s) && |v| == cfg.n && EndInternal(cfg, s, v).status == Continue
    ensures var r := EndInternal(cfg, s, v).s;
            forall k :: 0 <= k < cfg.n ==>
              r.conn[k] == (if s.context.value.where[k] then Ended(s.conn[k], v[k].commit) else s.conn[k]) &&
              (s.context.value.where[k] && s.conn[k].internal ==> !v[k].commit.Lost?)
  {
    var where := s.context.value.where;
    var m := s.context.value.vmaster;
    TargetValid(cfg, s, m);
    forall k | 0 <= k < cfg.n
      ensures MustEnd(cfg, s, k) <==> where[k] && s.conn[k].internal
      ensures MustEnd(cfg, s, k) ==> |s.conn[k].queue| == 1 && BodyReadable(s.conn[k])
    {
      TargetValid(cfg, s, k);
    }
    hide Settling, MustEnd, EndInternal;
    CommitsMasterLast(cfg, s, v);
  }

  /** What ReadyForQuery makes of one target: a mismatch fails its transaction, an internal transaction
      is committed, and the connection knows the state that results. */
  function Settled(c: Conn, mismatch: bool, a: Answer): Conn {
    var b := if mismatch then c.remote.Fail() else c.remote;
    var b' := if c.internal then RespondCommit(b, a).remote else b;
    Conn(b', [], b'.state, false)
  }

  lemma AbortedSettles(cfg: Config, s: State, r: State)
    requires Settling(cfg, s) && r == s.(conn := r.conn, log := r.log, mismatch := false) && |r.conn| == cfg.n
    requires forall k :: 0 <= k < cfg.n ==> r.conn[k] == if s.context.value.where[k] then Aborted(s.conn[k]) else s.conn[k]
    ensures Settling(cfg, r)
  {
    hide IsSelect, Quiet;
  }

  /** The session after the check for a mismatch. */
  function Checked(cfg: Config, s: State, v: seq<Verdicts>): Outcome
    requires Sized(cfg, s) && |v| == cfg.n
  {
    if s.mismatch then AbortMismatched(cfg, s) else Outcome(s, Continue)
  }

  lemma CheckedForm(cfg: Config, s: State, v: seq<Verdicts>)
    requires Settling(cfg, s) && |v| == cfg.n && Checked(cfg, s, v).status == Continue
    ensures var r := Checked(cfg, s, v).s;
            Settling(cfg, r) && r == s.(conn := r.conn, log := r.log, mismatch := false) &&
            forall k :: 0 <= k < cfg.n ==>
              r.conn[k] == if s.mismatch && s.context.value.where[k] then Aborted(s.conn[k]) else s.conn[k]
  {
    var r := Checked(cfg, s, v).s;
    hide AbortMismatched, Settling;
    if s.mismatch {
      AbortForm(cfg, s);
      AbortedSettles(cfg, s, r);
    }
  }

  /** One target on its way: the readiness message is the last thing to read, and its body tells the
      node's state. */
  lemma SettledOne(c: Conn, mismatch: bool, a: Answer)
    requires AtReady(c, true) && (c.internal ==> c.tstate != Idle && !a.Lost?)
    ensures var e := Ended(if mismatch then Aborted(c) else c, a);
            AtReady(e, true) && ReadBody(e).(tstate := e.queue[0].msg.state) == Settled(c, mismatch, a)
  {
    var d := if mismatch then Aborted(c) else c;
    var e := Ended(d, a);
    if d.internal { CommitAnswer(d.remote, a); }
    assert AtReady(e, true) && e.queue[1..] == [];
  }

  /** A target after the end of the internal transaction. */
  function EndedOne(c: Conn, mismatch: bool, a: Answer): Conn {
    Ended(if mismatch then Aborted(c) else c, a)
  }

  /** ReadyForQuery gets as far as reading the nodes' states. */
  ghost predicate Reaches(cfg: Config, s: State, v: seq<Verdicts>)
    requires Sized(cfg, s) && |v| == cfg.n
  {
    Checked(cfg, s, v).status == Continue && EndInternal(cfg, Checked(cfg, s, v).s, v).status == Continue
  }

  lemma ReachesIfContinues(cfg: Config, s: State, v: seq<Verdicts>)
    requires Sized(cfg, s) && |v| == cfg.n && ReadyForQuery(cfg, s, v).status == Continue
    ensures Reaches(cfg, s, v)
  {
    hide AbortMismatched, EndInternal, TakeStates, CloseQuery, AllReady;
  }

  /** Without a mismatch only a connection that breaks can be in the way. */
  lemma ReachesUnlessLost(cfg: Config, s: State, v: seq<Verdicts>)
    requires Settling(cfg, s) && |v| == cfg.n && !s.mismatch
    requires forall k :: 0 <= k < cfg.n && s.context.value.where[k] && s.conn[k].internal ==> !v[k].commit.Lost?
    ensures Reaches(cfg, s, v)
  {
    TargetValid(cfg, s, s.context.value.vmaster);
    forall k | 0 <= k < cfg.n
      ensures MustEnd(cfg, s, k) <==> s.context.value.where[k] && s.conn[k].internal
      ensures MustEnd(cfg, s, k) ==> |s.conn[k].queue| == 1 && BodyReadable(s.conn[k])
    {
      TargetValid(cfg, s, k);
    }
    assert Checked(cfg, s, v) == Outcome(s, Continue);
    hide Settling, MustEnd, EndInternal, Checked;
    CommitsMasterLast(cfg, s, v);
  }

  /** With a mismatch or without: exactly when readiness is reached. */
  lemma ReachesIff(cfg: Config, s: State, v: seq<Verdicts>)
    requires Settling(cfg, s) && |v| == cfg.n
    ensures Reaches(cfg, s, v) <==>
            (s.mismatch ==> !cfg.failoverOnMismatch && ReportAlike(cfg, s)) &&
            forall k :: 0 <= k < cfg.n && s.context.value.where[k] && s.conn[k].internal ==> !v[k].commit.Lost?
  {
    if s.mismatch { AbortForm(cfg, s); }
    if Checked(cfg, s, v).status == Continue {
      var c := Checked(cfg, s, v).s;
      CheckedForm(cfg, s, v);
      forall k | 0 <= k < cfg.n
        ensures MustEnd(cfg, c, k) <==> s.context.value.where[k] && s.conn[k].internal
        ensures MustEnd(cfg, c, k) ==> |c.conn[k].queue| == 1 && BodyReadable(c.conn[k])
      {
        TargetValid(cfg, c, k);
      }
      hide Settling, MustEnd, EndInternal, Checked, AbortMismatched, ReportAlike;
      CommitsMasterLast(cfg, c, v);
    }
  }

  /** The session when the states are about to be taken over. */
  lemma EndedForm(cfg: Config, s: State, v: seq<Verdicts>) returns (e: State)
    requires Settling(cfg, s) && |v| == cfg.n && Reaches(cfg, s, v)
    ensures Sized(cfg, e)
    ensures ReadyForQuery(cfg, s, v) == if AllReady(cfg, e) then CloseQuery(cfg, TakeStates(cfg, e), v) else Outcome(e, End)
    ensures e == s.(conn := e.conn, log := e.log, mismatch := false)
    ensures forall k :: 0 <= k < cfg.n ==>
              e.conn[k] == (if s.context.value.where[k] then EndedOne(s.conn[k], s.mismatch, v[k].commit) else s.conn[k]) &&
              (s.context.value.where[k] && s.conn[k].internal ==> !v[k].commit.Lost?)
  {
    var c := Checked(cfg, s, v);
    CheckedForm(cfg, s, v);
    e := EndInternal(cfg, c.s, v).s;
    EndForm(cfg, c.s, v);
    hide Settling, EndInternal, Checked, CloseQuery, TakeStates, AllReady, Closed;
  }

  lemma SettledForm(cfg: Config, s: State, v: seq<Verdicts>) returns (t: State)
    requires Settling(cfg, s) && |v| == cfg.n && Reaches(cfg, s, v)
    ensures Sized(cfg, t) && ReadyForQuery(cfg, s, v) == CloseQuery(cfg, t, v)
    ensures t == s.(conn := t.conn, log := t.log, mismatch := false, reported := t.conn[cfg.MainNode()].tstate)
    ensures forall k :: 0 <= k < cfg.n ==>
              t.conn[k] == (if s.context.value.where[k] then Settled(s.conn[k], s.mismatch, v[k].commit) else s.conn[k]) &&
              (s.context.value.where[k] && s.conn[k].internal ==> !v[k].commit.Lost?)
  {
    hide ReadyForQuery, CloseQuery;
    var e := EndedForm(cfg, s, v);
    forall k | 0 <= k < cfg.n
      ensures Valid(cfg, e, k) <==> s.context.value.where[k]
      ensures s.context.value.where[k] ==>
                AtReady(e.conn[k], true) &&
                ReadBody(e.conn[k]).(tstate := e.conn[k].queue[0].msg.state) == Settled(s.conn[k], s.mismatch, v[k].commit)
    {
      TargetValid(cfg, s, k);
      if s.context.value.where[k] { SettledOne(s.conn[k], s.mismatch, v[k].commit); }
    }
    assert AllReady(cfg, e);
    t := TakeStates(cfg, e);
    hide Settling, Valid, Settled, AtReady, EndedOne;
  }
}
