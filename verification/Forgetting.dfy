/** A PREPARE that fails. pgpool drops the context of the query in progress with it, and from then on
    takes every live node for one of the query's: it goes on only if all of them were. */
module Forgetting {
  import opened Options
  import opened Statements
  import opened Postgres
  import opened SessionModel
  import opened Batches
  import opened Framing
  import opened Reading
  import opened Settlement

  /** In progress without a context; those nodes that were asked have just their readiness message left. */
  ghost predicate Forgotten(cfg: Config, s: State) {
    cfg.WellFormed() && cfg.mode != Raw && Sized(cfg, s) && ProperLists(cfg, s.sent, None) && s.uncompleted == None &&
    s.inProgress && !s.reset && !s.mismatch && s.context == None && LastMessages(cfg, s.conn)
  }

  ghost predicate LastMessages(cfg: Config, conn: seq<Conn>)
    requires |cfg.live| == |conn| == cfg.n
  {
    forall k :: 0 <= k < cfg.n && cfg.live[k] ==>
      Quiet(conn[k]) || (AtReady(conn[k], false) && (conn[k].internal ==> conn[k].tstate != Idle))
  }

  lemma FailureNoted(cfg: Config, s: State)
    requires NearReady(cfg, s) && (s.uncompleted.Some? ==> !s.mismatch)
    ensures var r := NoteFailure(cfg, s);
            r == s.(sent := r.sent, uncompleted := None, context := r.context, commandSuccess := true, failed := r.failed) &&
            (s.uncompleted == None ==> r.sent == s.sent && r.context == s.context) &&
            (forall p :: p in r.sent ==> p in s.sent || s.uncompleted == Some(p)) &&
            (s.failed || s.conn[cfg.MainNode()].tstate != Idle ==> r.failed) &&
            if r.context.Some? then r.context == s.context && NearReady(cfg, r) else Forgotten(cfg, r)
  {
    var r := NoteFailure(cfg, s);
    forall k | 0 <= k < cfg.n && cfg.live[k]
      ensures Quiet(s.conn[k]) || (AtReady(s.conn[k], false) && (s.conn[k].internal ==> s.conn[k].tstate != Idle))
    {
      assert ConnOk(s.context.value.where[k], s.conn[k]);
    }
    hide ForgetPrepare, Proper, ConnsOk, AtReady, RaiseReady, Quiet;
  }

  // ---------------------------------------------------------------------------------------
  // A query without a context behaves as a plain read sent to all live nodes
  // ---------------------------------------------------------------------------------------

  function Anonymous(cfg: Config): (c: Context)
    requires SizedConfig(cfg)
    ensures |c.where| == cfg.n && c.vmaster == cfg.realMaster && IsSelect(c.stmt) && !IsStart(c.stmt) && !IsTwoPhase(c.stmt)
  {
    Context(Select(false, false, false, true, Traits(false, false, false)), 0, AllLive(cfg, Nobody(cfg)), cfg.realMaster)
  }

  ghost predicate Nameless(cfg: Config, s: State) {
    Sized(cfg, s) && s.context == None && s.inProgress && cfg.mode != Raw
  }

  function Shade(cfg: Config, s: State): (r: State)
    requires SizedConfig(cfg)
  {
    s.(context := Some(Anonymous(cfg)))
  }

  lemma ShadeValid(cfg: Config, s: State, k: nat)
    requires Nameless(cfg, s) && k < cfg.n
    ensures Sized(cfg, Shade(cfg, s)) && (Valid(cfg, Shade(cfg, s), k) <==> Valid(cfg, s, k)) && (Valid(cfg, s, k) <==> cfg.live[k])
    ensures MasterNode(cfg, Shade(cfg, s)) == MasterNode(cfg, s) == cfg.realMaster
  {
  }

  /** If the nodes agree, all live ones are at their readiness message. */
  lemma ShadeFlies(cfg: Config, s: State)
    requires Forgotten(cfg, s) && Agree(cfg, s)
    ensures NearReady(cfg, Shade(cfg, s)) && Agree(cfg, Shade(cfg, s)) && Head(Shade(cfg, s), cfg.realMaster).Ready?
  {
    var t := Shade(cfg, s);
    AllIsProper(cfg, Nobody(cfg));
    forall k | 0 <= k < cfg.n
      ensures Valid(cfg, t, k) <==> Valid(cfg, s, k)
      ensures cfg.live[k] ==> AtReady(s.conn[k], false) && ConnOk(true, s.conn[k])
      ensures t.context.value.where[k] <==> cfg.live[k]
    {
      ShadeValid(cfg, s, k);
      if cfg.live[k] { AtReadyOk(s.conn[k]); }
    }
    ShadeValid(cfg, s, cfg.realMaster);
    hide Valid, ConnOk, Proper, IsSelect;
  }

  lemma ShadeKinds(cfg: Config, s: State)
    requires Nameless(cfg, s) && forall i :: 0 <= i < cfg.n && Valid(cfg, s, i) ==> KindReadable(s.conn[i])
    ensures Sized(cfg, Shade(cfg, s)) && forall i :: 0 <= i < cfg.n && Valid(cfg, Shade(cfg, s), i) ==> KindReadable(Shade(cfg, s).conn[i])
    ensures ReadKinds(cfg, Shade(cfg, s)) == Shade(cfg, ReadKinds(cfg, s))
  {
    ShadeValid(cfg, s, cfg.realMaster);
    forall k | 0 <= k < cfg.n ensures Valid(cfg, Shade(cfg, s), k) <==> Valid(cfg, s, k) { ShadeValid(cfg, s, k); }
    hide Valid, Anonymous;
    assert ReadKinds(cfg, Shade(cfg, s)).conn == ReadKinds(cfg, s).conn;
  }

  lemma ShadeRuns(cfg: Config, s: State, action: Action, mask: seq<bool>, v: seq<Verdicts>)
    requires Nameless(cfg, s) && |mask| == |v| == cfg.n
    ensures var o := RunOn(cfg, s, action, mask, v);
            Nameless(cfg, o.s) && Sized(cfg, Shade(cfg, s)) &&
            RunOn(cfg, Shade(cfg, s), action, mask, v) == Outcome(Shade(cfg, o.s), o.status)
  {
    hide Anonymous;
  }

  lemma ShadeEnds(cfg: Config, s: State, v: seq<Verdicts>)
    requires Nameless(cfg, s) && |v| == cfg.n
    ensures var o := EndInternal(cfg, s, v);
            Nameless(cfg, o.s) && Sized(cfg, Shade(cfg, s)) && EndInternal(cfg, Shade(cfg, s), v) == Outcome(Shade(cfg, o.s), o.status)
  {
    ShadeValid(cfg, s, cfg.realMaster);
    forall k | 0 <= k < cfg.n ensures Valid(cfg, Shade(cfg, s), k) <==> Valid(cfg, s, k) { ShadeValid(cfg, s, k); }
    assert CommitMask(cfg, Shade(cfg, s)) == CommitMask(cfg, s);
    hide Valid, RunOn, CommitMask, Anonymous;
    ShadeRuns(cfg, s, CloseInternal, CommitMask(cfg, s), v);
    ShadeRuns(cfg, RunOn(cfg, s, CloseInternal, CommitMask(cfg, s), v).s, CloseInternal, Only(cfg, cfg.realMaster), v);
  }

  lemma ShadeTakes(cfg: Config, s: State)
    requires Nameless(cfg, s)
    ensures Sized(cfg, Shade(cfg, s)) && (AllReady(cfg, Shade(cfg, s)) <==> AllReady(cfg, s))
    ensures AllReady(cfg, s) ==> TakeStates(cfg, Shade(cfg, s)) == Shade(cfg, TakeStates(cfg, s))
  {
    ShadeValid(cfg, s, cfg.realMaster);
    forall k | 0 <= k < cfg.n ensures Valid(cfg, Shade(cfg, s), k) <==> Valid(cfg, s, k) { ShadeValid(cfg, s, k); }
    hide Valid;
  }

  lemma ShadeCloses(cfg: Config, s: State, v: seq<Verdicts>)
    requires Nameless(cfg, s) && |v| == cfg.n
    ensures Sized(cfg, Shade(cfg, s)) && CloseQuery(cfg, Shade(cfg, s), v) == CloseQuery(cfg, s, v)
  {
    ShadeValid(cfg, s, cfg.realMaster);
  }

  lemma ReadyUnmismatched(cfg: Config, s: State, v: seq<Verdicts>)
    requires Sized(cfg, s) && |v| == cfg.n && !s.mismatch
    ensures var e := EndInternal(cfg, s, v);
            ReadyForQuery(cfg, s, v) ==
            if e.status == End then e
            else if !AllReady(cfg, e.s) then Outcome(e.s, End)
            else CloseQuery(cfg, TakeStates(cfg, e.s), v)
  {
    hide EndInternal, TakeStates, CloseQuery, AllReady, AbortMismatched;
  }

  lemma ShadeReady(cfg: Config, s: State, v: seq<Verdicts>)
    requires Nameless(cfg, s) && |v| == cfg.n && !s.mismatch
    ensures var x := ReadyForQuery(cfg, Shade(cfg, s), v);
            var o := ReadyForQuery(cfg, s, v);
            o.status == x.status && (o.status == Continue ==> o == x)
  {
    var t := Shade(cfg, s);
    ShadeEnds(cfg, s, v);
    ReadyUnmismatched(cfg, s, v);
    ReadyUnmismatched(cfg, t, v);
    var e := EndInternal(cfg, s, v).s;
    ShadeTakes(cfg, e);
    hide EndInternal, TakeStates, CloseQuery, AllReady, Anonymous, ReadyForQuery;
    if AllReady(cfg, e) { ShadeCloses(cfg, TakeStates(cfg, e), v); }
  }

  lemma ForgottenReads(cfg: Config, s: State, v: seq<Verdicts>)
    requires Forgotten(cfg, s) && |v| == cfg.n && Agree(cfg, s)
    requires s.conn[cfg.realMaster].queue != [] && s.conn[cfg.realMaster].queue[0].msg.Ready?
    ensures forall i :: 0 <= i < cfg.n && Valid(cfg, s, i) ==> KindReadable(s.conn[i])
    ensures ProcessBackendResponse(cfg, s, v) == ReadyForQuery(cfg, ReadKinds(cfg, s), v)
  {
    ReadKindsOpens(cfg, s);
    hide ReadyForQuery, ReadKinds, Target, ErrorResponse, CommandComplete, ReadBodies, LastMessages;
  }

  /** The next message: nodes that were not asked have nothing to say, which is taken for the end of the
      session; otherwise the statement ends as if it had been a read. */
  lemma ForgottenResponse(cfg: Config, s: State, v: seq<Verdicts>)
    requires Forgotten(cfg, s) && |v| == cfg.n
    ensures var o := ProcessBackendResponse(cfg, s, v);
            if !Agree(cfg, s) then o.status == End
            else
              var t := Shade(cfg, s);
              NearReady(cfg, t) && Agree(cfg, t) && Head(t, cfg.realMaster).Ready? &&
              var x := ReadyForQuery(cfg, Begun(cfg, t), v);
              o.status == x.status && (o.status == Continue ==> o == x)
  {
    if Agree(cfg, s) {
      ShadeFlies(cfg, s);
      ReadKindsOpens(cfg, s);
      ShadeKinds(cfg, s);
      ForgottenReads(cfg, s, v);
      assert Nameless(cfg, ReadKinds(cfg, s)) && !ReadKinds(cfg, s).mismatch;
      assert Begun(cfg, Shade(cfg, s)) == Shade(cfg, ReadKinds(cfg, s));
      hide *;
      ShadeReady(cfg, ReadKinds(cfg, s), v);
    }
  }

  /** Whether the session survives a failed PREPARE that pgpool had not heard of before: only if it had
      gone to all live nodes. */
  lemma SurvivesOnlyIfAsked(cfg: Config, s: State)
    requires Forgotten(cfg, s)
    ensures Agree(cfg, s) <==> forall k :: 0 <= k < cfg.n && cfg.live[k] ==> AtReady(s.conn[k], false)
  {
    forall k | 0 <= k < cfg.n ensures Valid(cfg, s, k) <==> cfg.live[k] { ShadeValid(cfg, s, k); }
    ShadeValid(cfg, s, cfg.realMaster);
    hide Valid;
  }
}
