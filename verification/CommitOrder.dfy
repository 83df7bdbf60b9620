/** How an internal transaction ends: the secondaries commit one after the other, the master last. */
module CommitOrder {
  import opened Options
  import opened Statements
  import opened Postgres
  import opened SessionModel
  import opened Batches

  /** Node k has an internal transaction to end. */
  ghost predicate MustEnd(cfg: Config, s: State, k: nat)
    requires Sized(cfg, s) && k < cfg.n
  {
    (Valid(cfg, s, k) || k == MasterNode(cfg, s)) && Participates(cfg, s, k)
  }

  /** Every node with a transaction to end has its readiness message half read, and nothing else. */
  ghost predicate ReadyToEnd(cfg: Config, s: State)
    requires Sized(cfg, s)
  {
    forall k :: 0 <= k < cfg.n && MustEnd(cfg, s, k) ==> |s.conn[k].queue| == 1 && BodyReadable(s.conn[k])
  }

  /** What ending its internal transaction makes of a connection. */
  function Closed(c: Conn, a: Answer): Conn {
    Conn(RespondCommit(c.remote, a).remote, [Packet(Ready(Idle), true)], c.tstate, false)
  }

  ghost predicate NoCommitLost(cfg: Config, s: State, v: seq<Verdicts>)
    requires Sized(cfg, s) && |v| == cfg.n
  {
    forall k :: 0 <= k < cfg.n && MustEnd(cfg, s, k) ==> !v[k].commit.Lost?
  }

  /** The commits in the order in which they are sent, each followed by its acknowledgement. */
  function Commits(cfg: Config, s: State): seq<Event>
    requires Sized(cfg, s)
  {
    var m := MasterNode(cfg, s);
    InTurn(Chosen(CommitMask(cfg, s)), Commit) +
    if Participates(cfg, s, m) then [Sent(m, Commit), Waited(m)] else []
  }

  lemma {:induction false} OnlyOne(n: nat, m: nat)
    ensures Chosen(seq(n, k => k == m)) == if m < n then [m] else []
  {
    if n > 0 {
      var mask := seq(n, k => k == m);
      assert mask[..n - 1] == seq(n - 1, k => k == m);
      OnlyOne(n - 1, m);
    }
  }

  lemma Regroup(a: seq<Event>, b: seq<Event>, c: seq<Event>)
    ensures a + b + c == a + (b + c)
  {
  }

  /** The secondaries' part leaves the master's connection alone. */
  lemma Secondaries(cfg: Config, s: State, v: seq<Verdicts>)
    requires Sized(cfg, s) && |v| == cfg.n && ReadyToEnd(cfg, s)
    ensures var o := RunOn(cfg, s, CloseInternal, CommitMask(cfg, s), v);
            o.s.conn[MasterNode(cfg, s)] == s.conn[MasterNode(cfg, s)] &&
            (o.status == Continue <==> forall k :: 0 <= k < cfg.n && CommitMask(cfg, s)[k] ==> !v[k].commit.Lost?) &&
            (o.status == Continue ==>
               o.s.log == s.log + InTurn(Chosen(CommitMask(cfg, s)), Commit) &&
               forall k :: 0 <= k < cfg.n ==>
                 o.s.conn[k] == if CommitMask(cfg, s)[k] then Closed(s.conn[k], v[k].commit) else s.conn[k])
  {
    hide Act, Valid;
    var mask := CommitMask(cfg, s);
    RunOnSucceeds(cfg, s, CloseInternal, mask, v);
    RunOnTouches(cfg, s, CloseInternal, mask, v);
    forall k | 0 <= k < cfg.n && mask[k]
      ensures Act(CloseInternal, s.conn[k], v[k]).ok <==> !v[k].commit.Lost?
      ensures Act(CloseInternal, s.conn[k], v[k]).ok ==> Act(CloseInternal, s.conn[k], v[k]).c == Closed(s.conn[k], v[k].commit)
    {
      CloseInternalActs(s.conn[k], v[k]);
    }
  }

  lemma MastersPart(cfg: Config, s: State, m: nat, v: seq<Verdicts>)
    requires Sized(cfg, s) && |v| == cfg.n && m < cfg.n && |s.conn[m].queue| == 1 && BodyReadable(s.conn[m])
    ensures var o := RunOn(cfg, s, CloseInternal, Only(cfg, m), v);
            (o.status == Continue <==> !v[m].commit.Lost?) &&
            (o.status == Continue ==>
               o.s.log == s.log + [Sent(m, Commit), Waited(m)] && o.s.conn == s.conn[m := Closed(s.conn[m], v[m].commit)])
  {
    hide Act, RunOn;
    RunOnSucceeds(cfg, s, CloseInternal, Only(cfg, m), v);
    OnlyOne(cfg.n, m);
    assert Only(cfg, m) == seq(cfg.n, k => k == m);
    assert InTurn([m], Commit) == [Sent(m, Commit), Waited(m)];
    CloseInternalActs(s.conn[m], v[m]);
  }

  lemma MustEndIs(cfg: Config, s: State, k: nat)
    requires Sized(cfg, s) && k < cfg.n
    ensures MustEnd(cfg, s, k) <==> CommitMask(cfg, s)[k] || (k == MasterNode(cfg, s) && Participates(cfg, s, k))
  {
  }

  /** The two parts put together. */
  lemma BothParts(cfg: Config, s: State, v: seq<Verdicts>)
    requires Sized(cfg, s) && |v| == cfg.n && ReadyToEnd(cfg, s)
    ensures var m := MasterNode(cfg, s);
            var mask := CommitMask(cfg, s);
            var ends := Participates(cfg, s, m);
            var o := EndInternal(cfg, s, v);
            (o.status == Continue <==> (forall k :: 0 <= k < cfg.n && mask[k] ==> !v[k].commit.Lost?) && (ends ==> !v[m].commit.Lost?)) &&
            (o.status == Continue ==>
               o.s.log == s.log + Commits(cfg, s) &&
               forall k :: 0 <= k < cfg.n ==>
                 o.s.conn[k] == if mask[k] || (k == m && ends) then Closed(s.conn[k], v[k].commit) else s.conn[k])
  {
    hide Act, Valid, RunOn, CommitMask;
    var m := MasterNode(cfg, s);
    var mask := CommitMask(cfg, s);
    var ends := Participates(cfg, s, m);
    assert !mask[m] by { MaskSkipsMaster(cfg, s); }
    assert ends ==> |s.conn[m].queue| == 1 && BodyReadable(s.conn[m]) by { assert ends ==> MustEnd(cfg, s, m); }
    Secondaries(cfg, s, v);
    var others := RunOn(cfg, s, CloseInternal, mask, v);
    hide MustEnd, ReadyToEnd;
    if others.status == Continue && ends {
      MastersPart(cfg, others.s, m, v);
      Regroup(s.log, InTurn(Chosen(mask), Commit), [Sent(m, Commit), Waited(m)]);
    }
  }

  lemma MaskSkipsMaster(cfg: Config, s: State)
    requires Sized(cfg, s)
    ensures !CommitMask(cfg, s)[MasterNode(cfg, s)]
  {
  }

  /** end_internal_transaction succeeds exactly when no connection breaks; then the master was sent its
      COMMIT after all others had acknowledged theirs, and no node keeps the internal transaction. */
  lemma CommitsMasterLast(cfg: Config, s: State, v: seq<Verdicts>)
    requires Sized(cfg, s) && |v| == cfg.n && ReadyToEnd(cfg, s)
    ensures var o := EndInternal(cfg, s, v);
            (o.status == Continue <==> NoCommitLost(cfg, s, v)) &&
            (o.status == Continue ==>
               o.s.log == s.log + Commits(cfg, s) &&
               forall k :: 0 <= k < cfg.n ==>
                 o.s.conn[k] == if MustEnd(cfg, s, k) then Closed(s.conn[k], v[k].commit) else s.conn[k])
  {
    hide EndInternal, MustEnd, CommitMask, Participates, ReadyToEnd;
    BothParts(cfg, s, v);
    forall k | 0 <= k < cfg.n
      ensures MustEnd(cfg, s, k) <==> CommitMask(cfg, s)[k] || (k == MasterNode(cfg, s) && Participates(cfg, s, k))
    {
      MustEndIs(cfg, s, k);
    }
  }

  /** If a secondary's connection breaks, the session ends and the master has not been sent COMMIT: what
      it has pending stays pending. */
  lemma MasterStaysUncommitted(cfg: Config, s: State, v: seq<Verdicts>, k: nat)
    requires Sized(cfg, s) && |v| == cfg.n && ReadyToEnd(cfg, s)
    requires k < cfg.n && MustEnd(cfg, s, k) && k != MasterNode(cfg, s) && v[k].commit.Lost?
    ensures var o := EndInternal(cfg, s, v);
            o.status == End && o.s.conn[MasterNode(cfg, s)] == s.conn[MasterNode(cfg, s)] &&
            exists tail :: o.s.log == s.log + tail && forall e :: e in tail ==> e.node != MasterNode(cfg, s)
  {
    hide Act, Valid, RunOn;
    var mask := CommitMask(cfg, s);
    Secondaries(cfg, s, v);
    RunOnTouches(cfg, s, CloseInternal, mask, v);
    assert mask[k];
  }

  /** An internal transaction is marked only on nodes that are not idle. */
  ghost predicate FlagMeansOpen(cfg: Config, s: State)
    requires Sized(cfg, s)
  {
    forall k :: 0 <= k < cfg.n ==> s.conn[k].internal ==> s.conn[k].tstate != Idle
  }

  /** start_internal_transaction establishes it, ... */
  lemma StartKeepsFlagMeansOpen(cfg: Config, s: State, v: seq<Verdicts>)
    requires Sized(cfg, s) && s.context.Some? && |v| == cfg.n && FlagMeansOpen(cfg, s)
    requires forall k :: 0 <= k < cfg.n && BeginMask(cfg, s)[k] ==> Quiet(s.conn[k])
    ensures StartInternal(cfg, s, v).status == Continue ==> FlagMeansOpen(cfg, StartInternal(cfg, s, v).s)
  {
    hide Act, Valid;
    var mask := BeginMask(cfg, s);
    RunOnSucceeds(cfg, s, OpenInternal, mask, v);
    forall k | 0 <= k < cfg.n && mask[k]
      ensures Act(OpenInternal, s.conn[k], v[k]).ok ==> Act(OpenInternal, s.conn[k], v[k]).c.tstate == InBlock
    {
      OpenInternalActs(s.conn[k], v[k]);
    }
  }

  /** ... and with it the end leaves no target with an internal transaction. */
  lemma NoFlagSurvives(cfg: Config, s: State, v: seq<Verdicts>, k: nat)
    requires Sized(cfg, s) && |v| == cfg.n && ReadyToEnd(cfg, s) && FlagMeansOpen(cfg, s)
    requires k < cfg.n && Valid(cfg, s, k) && EndInternal(cfg, s, v).status == Continue
    ensures !EndInternal(cfg, s, v).s.conn[k].internal
  {
    CommitsMasterLast(cfg, s, v);
    hide EndInternal, Valid;
  }

  // ---------------------------------------------------------------------------------------
  // What the acknowledgements are worth
  // ---------------------------------------------------------------------------------------

  /** The node's pending effects have become durable. */
  ghost predicate MadeDurable(before: Remote, after: Remote) { after == before.Durable() }

  /** do_command takes any answer short of a broken connection for an acknowledgement: an error, and also
      that of a failed transaction, which is rolled back. After a successful end everything pending on the
      participants is durable exactly when each that has something pending was in a block and did not refuse
      its COMMIT. */
  lemma AllDurableIff(cfg: Config, s: State, v: seq<Verdicts>)
    requires Sized(cfg, s) && |v| == cfg.n && ReadyToEnd(cfg, s)
    requires EndInternal(cfg, s, v).status == Continue
    ensures (forall k :: 0 <= k < cfg.n && MustEnd(cfg, s, k) && s.conn[k].remote.uncommitted != [] ==>
               MadeDurable(s.conn[k].remote, EndInternal(cfg, s, v).s.conn[k].remote)) <==>
            (forall k :: 0 <= k < cfg.n && MustEnd(cfg, s, k) && s.conn[k].remote.uncommitted != [] ==>
               s.conn[k].remote.state == InBlock && !v[k].commit.Reject?)
  {
    CommitsMasterLast(cfg, s, v);
    hide EndInternal, MustEnd;
    var t := EndInternal(cfg, s, v).s;
    forall k | 0 <= k < cfg.n && MustEnd(cfg, s, k) && s.conn[k].remote.uncommitted != []
      ensures MadeDurable(s.conn[k].remote, t.conn[k].remote) <==> s.conn[k].remote.state == InBlock && !v[k].commit.Reject?
    {
      var b := s.conn[k].remote;
      assert t.conn[k].remote == RespondCommit(b, v[k].commit).remote;
      assert |b.Durable().committed| > |b.committed|;
    }
  }

  /** The master's COMMIT becomes durable even when a secondary has refused its own: the nodes diverge. */
  lemma RefusedCommitDiverges()
    ensures exists cfg, s, v ::
              Sized(cfg, s) && |v| == cfg.n == 2 && cfg.mode == Replication && ReadyToEnd(cfg, s) &&
              EndInternal(cfg, s, v).status == Continue &&
              EndInternal(cfg, s, v).s.conn[0].remote.committed == [7] && EndInternal(cfg, s, v).s.conn[1].remote.committed == []
  {
    var b := Remote(InBlock, [7], [], [], map[]);
    var c := Conn(b, [Packet(Ready(InBlock), true)], InBlock, true);
    var cfg := Config(Replication, 2, [true, true], [true, true], 0, -1, 0, false, false, false, false, false);
    var s := State([c, c], Some(Context(Dml, 7, [true, true], 0)), true, true, false, false, UnknownIsolation,
                   false, [], [], None, false, [], InBlock);
    var ok := Accept(0, 0);
    var v := [Verdicts(ok, ok, ok), Verdicts(ok, ok, Reject)];
    assert ReadyToEnd(cfg, s) && MustEnd(cfg, s, 0) && MustEnd(cfg, s, 1);
    CommitsMasterLast(cfg, s, v);
    hide EndInternal, ReadyToEnd, MustEnd;
    assert EndInternal(cfg, s, v).s.conn[0] == Closed(c, ok) && EndInternal(cfg, s, v).s.conn[1] == Closed(c, Reject);
  }

  /** Whatever comes of it, a node is left alone unless its flag is set, it is not idle, and it takes part in the
      query or is the master. */
  lemma OthersUntouched(cfg: Config, s: State, v: seq<Verdicts>, k: nat)
    requires Sized(cfg, s) && |v| == cfg.n && k < cfg.n
    requires !s.conn[k].internal || s.conn[k].tstate == Idle || (k != MasterNode(cfg, s) && !Valid(cfg, s, k))
    ensures EndInternal(cfg, s, v).s.conn[k] == s.conn[k]
  {
    var m := MasterNode(cfg, s);
    RunOnTouches(cfg, s, CloseInternal, CommitMask(cfg, s), v);
    var o := RunOn(cfg, s, CloseInternal, CommitMask(cfg, s), v);
    RunOnTouches(cfg, o.s, CloseInternal, Only(cfg, m), v);
    hide RunOn, Act, Valid;
  }
}
