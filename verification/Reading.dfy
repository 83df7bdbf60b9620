/** Reading the answers of a statement in progress, message by message, until the session is between
    statements again. */
module Reading {
  import opened Options
  import opened Statements
  import opened Postgres
  import opened SessionModel
  import opened Batches
  import opened CommitOrder
  import opened Framing

  function Pop(c: Conn): Conn
    requires c.queue != []
  {
    c.(queue := c.queue[1..])
  }

  lemma ValidIsTarget(cfg: Config, s: State, k: nat)
    requires InFlight(cfg, s) && k < cfg.n
    ensures Valid(cfg, s, k) <==> s.context.value.where[k]
    ensures Valid(cfg, s, k) ==> cfg.live[k]
    ensures MasterNode(cfg, s) == s.context.value.vmaster && Valid(cfg, s, s.context.value.vmaster)
  {
  }

  lemma TargetTail(cfg: Config, s: State, k: nat)
    requires InFlight(cfg, s) && k < cfg.n && s.context.value.where[k]
    ensures ConnOk(true, s.conn[k]) && KindReadable(s.conn[k])
  {
  }

  /** The message at the head of node k's queue. */
  function Head(s: State, k: nat): Msg
    requires k < |s.conn| && s.conn[k].queue != []
  {
    s.conn[k].queue[0].msg
  }

  lemma SameKind(cfg: Config, s: State, k: nat)
    requires InFlight(cfg, s) && Agree(cfg, s) && k < cfg.n && s.context.value.where[k]
    ensures KindReadable(s.conn[k]) && KindReadable(s.conn[s.context.value.vmaster])
    ensures KindOf(Head(s, k)) == KindOf(Head(s, s.context.value.vmaster))
  {
    ValidIsTarget(cfg, s, k);
    hide InFlight, Valid;
  }

  lemma KindsReadable(cfg: Config, s: State)
    requires InFlight(cfg, s)
    ensures forall i :: 0 <= i < cfg.n && Valid(cfg, s, i) ==> KindReadable(s.conn[i])
  {
    forall i | 0 <= i < cfg.n && Valid(cfg, s, i) ensures KindReadable(s.conn[i]) {
      ValidIsTarget(cfg, s, i);
      TargetTail(cfg, s, i);
    }
  }

  /** The kind bytes have been read. */
  function Begun(cfg: Config, s: State): (r: State)
    requires InFlight(cfg, s)
    ensures Sized(cfg, r) && AllOpened(cfg, r) && r == s.(conn := r.conn)
  {
    KindsReadable(cfg, s);
    ReadKindsOpens(cfg, s);
    ReadKinds(cfg, s)
  }

  lemma BegunForm(cfg: Config, s: State, k: nat)
    requires InFlight(cfg, s) && k < cfg.n
    ensures var c := s.conn[k];
            Begun(cfg, s).conn[k] == (if s.context.value.where[k] then c.(queue := c.queue[0 := c.queue[0].(begun := true)]) else c)
    ensures Valid(cfg, Begun(cfg, s), k) <==> s.context.value.where[k]
    ensures MasterNode(cfg, Begun(cfg, s)) == s.context.value.vmaster
    ensures s.context.value.where[k] ==> BodyReadable(Begun(cfg, s).conn[k])
  {
    ValidIsTarget(cfg, s, k);
    KindsReadable(cfg, s);
    hide InFlight;
  }

  lemma ReadForm(cfg: Config, s: State, k: nat)
    requires InFlight(cfg, s) && k < cfg.n
    ensures s.context.value.where[k] ==> s.conn[k].queue != []
    ensures ReadBodies(cfg, Begun(cfg, s)).conn[k] == if s.context.value.where[k] then Pop(s.conn[k]) else s.conn[k]
    ensures ReadBodies(cfg, Begun(cfg, s)) == s.(conn := ReadBodies(cfg, Begun(cfg, s)).conn)
  {
    BegunForm(cfg, s, k);
    if s.context.value.where[k] {
      TargetTail(cfg, s, k);
      var c := s.conn[k];
      assert c.queue[0 := c.queue[0].(begun := true)][1..] == c.queue[1..];
    }
    hide InFlight, Begun, Valid;
  }

  /** The end of an answer, and what may come before it. */
  lemma PopTail(c: Conn)
    requires ConnOk(true, c) && !c.queue[0].msg.Ready?
    ensures ConnOk(true, Pop(c))
    ensures c.queue[0].msg.Complete? || c.queue[0].msg.Error? || c.queue[0].msg.EmptyQuery? ==> AtReady(Pop(c), false) && |c.queue| == 2
  {
    var q := c.queue;
    assert |q| >= 2;
    assert forall i :: 0 <= i < |q| - 1 ==> q[1..][i] == q[i + 1];
  }

  lemma ReadyTail(c: Conn)
    requires ConnOk(true, c) && c.queue[0].msg.Ready?
    ensures AtReady(c, false)
  {
  }

  // ---------------------------------------------------------------------------------------
  // Rows, notices, completions
  // ---------------------------------------------------------------------------------------

  /** What a step that reads one message leaves alone. */
  ghost predicate SameSession(s: State, r: State) {
    r.context == s.context && r.inProgress == s.inProgress && r.reset == s.reset && |r.conn| == |s.conn|
  }

  /** A step that changes only the targets' connections keeps the session in flight. */
  lemma StillFlying(cfg: Config, s: State, r: State)
    requires InFlight(cfg, s) && Sized(cfg, r) && SameSession(s, r) && ProperLists(cfg, r.sent, r.uncompleted)
    requires forall k :: 0 <= k < cfg.n ==> if s.context.value.where[k] then ConnOk(true, r.conn[k]) else r.conn[k] == s.conn[k]
    requires r.conn[cfg.realMaster].tstate == s.conn[cfg.realMaster].tstate || !IsSelect(s.context.value.stmt)
    ensures InFlight(cfg, r)
  {
    hide Tail, Quiet, Proper, IsSelect;
  }

  lemma MessageKept(cfg: Config, s: State)
    requires InFlight(cfg, s) && Agree(cfg, s) && !Head(s, s.context.value.vmaster).Ready?
    ensures InFlight(cfg, ReadBodies(cfg, Begun(cfg, s)))
    ensures forall k :: 0 <= k < cfg.n && s.context.value.where[k] ==>
              s.conn[k].queue != [] && ReadBodies(cfg, Begun(cfg, s)).conn[k] == Pop(s.conn[k])
  {
    var r := ReadBodies(cfg, Begun(cfg, s));
    ReadForm(cfg, s, s.context.value.vmaster);
    forall k | 0 <= k < cfg.n
      ensures r.conn[k] == (if s.context.value.where[k] then Pop(s.conn[k]) else s.conn[k])
      ensures s.context.value.where[k] ==> ConnOk(true, r.conn[k]) && s.conn[k].queue != []
    {
      ReadForm(cfg, s, k);
      if s.context.value.where[k] {
        SameKind(cfg, s, k);
        TargetTail(cfg, s, k);
        PopTail(s.conn[k]);
      }
    }
    hide InFlight, Begun, ReadBodies, Agree, Valid, ConnOk;
    StillFlying(cfg, s, r);
  }

  function Note(c: Conn, starts: bool): Conn {
    if starts then c.(tstate := InBlock) else c
  }

  /** CommandComplete, without the row counts. */
  lemma NoteForm(cfg: Config, s: State)
    requires Sized(cfg, s) && s.context.Some?
    ensures var r := NoteComplete(cfg, s);
            r == s.(conn := r.conn, sent := r.sent, uncompleted := r.uncompleted, writing := r.writing,
                    failed := r.failed, isolation := r.isolation) &&
            (forall k :: 0 <= k < cfg.n ==>
              r.conn[k] == Note(s.conn[k], Valid(cfg, s, k) && IsStart(s.context.value.stmt))) &&
            (!IsStart(s.context.value.stmt) ==>
              r.writing == s.writing && r.failed == s.failed && r.isolation == s.isolation)
  {
    hide Valid, ListAfter, IsStart;
  }

  lemma NoteLists(cfg: Config, s: State)
    requires Sized(cfg, s) && ProperLists(cfg, s.sent, s.uncompleted)
    ensures ProperLists(cfg, NoteComplete(cfg, s).sent, NoteComplete(cfg, s).uncompleted)
  {
    hide Valid, Proper, ListAfter, IsStart;
  }

  /** Two of the targets have completed with different row counts. */
  ghost predicate RowsDiffer(where: seq<bool>, vmaster: nat, conn: seq<Conn>)
    requires vmaster < |conn| == |where|
  {
    conn[vmaster].queue != [] &&
    exists k :: 0 <= k < |conn| && where[k] && conn[k].queue != [] &&
                RowsOf(conn[k].queue[0]) != RowsOf(conn[vmaster].queue[0])
  }

  /** The session after CommandComplete. */
  function Completed(cfg: Config, s: State): (r: State)
    requires InFlight(cfg, s)
  {
    BegunForm(cfg, s, s.context.value.vmaster);
    CommandComplete(cfg, Begun(cfg, s))
  }

  lemma CompletedFields(cfg: Config, s: State)
    requires InFlight(cfg, s)
    ensures var r := Completed(cfg, s);
            r == s.(conn := r.conn, sent := r.sent, uncompleted := r.uncompleted, writing := r.writing,
                    failed := r.failed, isolation := r.isolation, ntuples := r.ntuples, mismatch := r.mismatch) &&
            |r.conn| == cfg.n && ProperLists(cfg, r.sent, r.uncompleted) &&
            (!IsStart(s.context.value.stmt) ==>
              r.writing == s.writing && r.failed == s.failed && r.isolation == s.isolation)
  {
    BegunForm(cfg, s, s.context.value.vmaster);
    var b := Begun(cfg, s);
    NoteForm(cfg, b);
    NoteLists(cfg, b);
    hide NoteComplete, Begun, Proper, ReadBodies, Valid, IsStart;
  }

  lemma CompletedConn(cfg: Config, s: State, k: nat)
    requires InFlight(cfg, s) && k < cfg.n
    ensures s.context.value.where[k] ==> s.conn[k].queue != []
    ensures Completed(cfg, s).conn[k] ==
            if s.context.value.where[k] then Note(Pop(s.conn[k]), IsStart(s.context.value.stmt)) else s.conn[k]
  {
    var b := Begun(cfg, s);
    BegunForm(cfg, s, s.context.value.vmaster);
    BegunForm(cfg, s, k);
    ReadForm(cfg, s, k);
    NoteForm(cfg, b);
    var n := NoteComplete(cfg, b);
    assert Valid(cfg, n, k) <==> Valid(cfg, b, k);
    hide NoteComplete, Begun, Proper, Valid, IsStart, InFlight;
  }

  /** The row counts that are taken down: each target's own, -1 for the other nodes. */
  lemma CompletedCounts(cfg: Config, s: State)
    requires InFlight(cfg, s)
    ensures var r := Completed(cfg, s);
            |r.ntuples| == cfg.n &&
            forall k :: 0 <= k < cfg.n ==>
              r.ntuples[k] == if !s.context.value.where[k] then -1
                              else if s.conn[k].queue != [] && s.conn[k].queue[0].msg.Complete? then s.conn[k].queue[0].msg.rows else 0
  {
    var b := Begun(cfg, s);
    BegunForm(cfg, s, s.context.value.vmaster);
    NoteForm(cfg, b);
    var n := NoteComplete(cfg, b);
    forall k | 0 <= k < cfg.n
      ensures Valid(cfg, n, k) <==> s.context.value.where[k]
      ensures s.context.value.where[k] ==>
                n.conn[k].queue != [] && s.conn[k].queue != [] && n.conn[k].queue[0].msg == s.conn[k].queue[0].msg
    {
      BegunForm(cfg, s, k);
      if s.context.value.where[k] { TargetTail(cfg, s, k); }
      assert Valid(cfg, n, k) <==> Valid(cfg, b, k);
    }
    hide NoteComplete, Begun, Proper, Valid, IsStart;
  }

  lemma CompletedMismatch(cfg: Config, s: State)
    requires InFlight(cfg, s)
    ensures Completed(cfg, s).mismatch <==>
            s.mismatch || RowsDiffer(s.context.value.where, s.context.value.vmaster, s.conn)
  {
    var b := Begun(cfg, s);
    var m := s.context.value.vmaster;
    BegunForm(cfg, s, m);
    NoteForm(cfg, b);
    var n := NoteComplete(cfg, b);
    forall k | 0 <= k < cfg.n
      ensures Valid(cfg, n, k) <==> s.context.value.where[k]
      ensures s.context.value.where[k] ==>
                n.conn[k].queue != [] && s.conn[k].queue != [] && RowsOf(n.conn[k].queue[0]) == RowsOf(s.conn[k].queue[0])
    {
      BegunForm(cfg, s, k);
      if s.context.value.where[k] { TargetTail(cfg, s, k); }
      assert Valid(cfg, n, k) <==> Valid(cfg, b, k);
    }
    hide NoteComplete, Begun, Proper, Valid, IsStart;
    assert Valid(cfg, n, m);
  }

  lemma CompleteKept(cfg: Config, s: State)
    requires InFlight(cfg, s) && Agree(cfg, s) && Head(s, s.context.value.vmaster).Complete?
    ensures InFlight(cfg, Completed(cfg, s))
  {
    var r := Completed(cfg, s);
    var starts := IsStart(s.context.value.stmt);
    CompletedFields(cfg, s);
    forall k | 0 <= k < cfg.n
      ensures r.conn[k] == (if s.context.value.where[k] then Note(Pop(s.conn[k]), starts) else s.conn[k])
      ensures s.context.value.where[k] ==> ConnOk(true, r.conn[k]) && s.conn[k].queue != []
    {
      CompletedConn(cfg, s, k);
      if s.context.value.where[k] {
        SameKind(cfg, s, k);
        TargetTail(cfg, s, k);
        PopTail(s.conn[k]);
      }
    }
    assert starts ==> !IsSelect(s.context.value.stmt);
    hide InFlight, Completed, Agree, Valid, ConnOk, IsStart, IsSelect;
    StillFlying(cfg, s, r);
  }

  // ---------------------------------------------------------------------------------------
  // Errors
  // ---------------------------------------------------------------------------------------

  /** All that the targets have left to read is the readiness message. */
  ghost predicate NearReady(cfg: Config, s: State) {
    InFlight(cfg, s) && forall k :: 0 <= k < cfg.n && s.context.value.where[k] ==> AtReady(s.conn[k], false)
  }

  lemma NearFlies(cfg: Config, s: State)
    ensures NearReady(cfg, s) ==> InFlight(cfg, s)
  {
  }

  lemma ErrorRead(cfg: Config, s: State)
    requires InFlight(cfg, s) && Agree(cfg, s)
    requires var m := Head(s, s.context.value.vmaster); m.Error? || m.Complete? || m.EmptyQuery?
    ensures NearReady(cfg, ReadBodies(cfg, Begun(cfg, s)))
    ensures ReadBodies(cfg, Begun(cfg, s)) == s.(conn := ReadBodies(cfg, Begun(cfg, s)).conn)
  {
    hide ReadBodies;
    MessageKept(cfg, s);
    ReadForm(cfg, s, s.context.value.vmaster);
    forall k | 0 <= k < cfg.n && s.context.value.where[k] ensures AtReady(ReadBodies(cfg, Begun(cfg, s)).conn[k], false) {
      SameKind(cfg, s, k);
      TargetTail(cfg, s, k);
      PopTail(s.conn[k]);
    }
  }

  /** A connection on which an error has been provoked. */
  function Failing(c: Conn): Conn {
    c.(remote := c.remote.Fail(), queue := [Packet(Ready(c.remote.Fail().state), false)])
  }

  lemma ProvokedForm(cfg: Config, s: State, mask: seq<bool>, v: seq<Verdicts>)
    requires Sized(cfg, s) && |v| == |mask| == cfg.n
    requires forall k :: 0 <= k < cfg.n && mask[k] ==> s.conn[k].queue == [] || AtReady(s.conn[k], false)
    ensures var o := RunOn(cfg, s, Provoke, mask, v);
            o.status == Continue && o.s == s.(conn := o.s.conn, log := o.s.log) &&
            forall k :: 0 <= k < cfg.n ==> o.s.conn[k] == if mask[k] then Failing(s.conn[k]) else s.conn[k]
  {
    hide Act, RunOn;
    RunOnSucceeds(cfg, s, Provoke, mask, v);
    forall k | 0 <= k < cfg.n && mask[k]
      ensures Act(Provoke, s.conn[k], v[k]).ok && Act(Provoke, s.conn[k], v[k]).c == Failing(s.conn[k])
    {
      ProvokeActs(s.conn[k], v[k]);
    }
  }

  /** The targets after raise_intentional_error_if_need, and the nodes it provokes an error on. */
  datatype Raise = Raise(where: seq<bool>, provoked: seq<bool>)

  function Raised(cfg: Config, s: State): Raise
    requires InFlight(cfg, s)
  {
    var c := s.context.value;
    var p := cfg.PrimaryNode();
    if !IsSelect(c.stmt) then Raise(c.where, Nobody(cfg))
    else if cfg.mode == MasterSlave && s.conn[p].tstate == InBlock && p != c.vmaster then Raise(c.where[p := true], Only(cfg, p))
    else if cfg.mode == Replication && s.conn[cfg.realMaster].tstate == InBlock && !cfg.replicateSelect then
      Raise(AllLive(cfg, c.where), seq(cfg.n, k requires 0 <= k < cfg.n => cfg.live[k] && k != cfg.realMaster))
    else Raise(c.where, Nobody(cfg))
  }

  /** The nodes on which an error is provoked: in master/slave mode the primary, if its block is open and the failed
      SELECT went elsewhere; with replication every live node but the master, if the master's block is open and
      SELECTs are not replicated. They become targets; nothing happens to any other node. */
  lemma ProvokedIff(cfg: Config, s: State, v: seq<Verdicts>, k: nat)
    requires NearReady(cfg, s) && |v| == cfg.n && k < cfg.n
    ensures var r := RaiseError(cfg, s, v).s;
            var provoked := IsSelect(s.context.value.stmt) &&
                            if cfg.mode == MasterSlave
                            then k == cfg.PrimaryNode() && k != s.context.value.vmaster && s.conn[k].tstate == InBlock
                            else !cfg.replicateSelect && cfg.live[k] && k != cfg.realMaster && s.conn[cfg.realMaster].tstate == InBlock;
            r.context.Some? && |r.context.value.where| == |r.conn| == cfg.n && r.conn[k].internal == s.conn[k].internal &&
            (s.context.value.where[k] ==> r.context.value.where[k]) &&
            if provoked then r.conn[k].remote == s.conn[k].remote.Fail() && r.context.value.where[k]
            else r.conn[k] == s.conn[k] && (r.context.value.where[k] ==> s.context.value.where[k] || k == cfg.realMaster)
  {
    RaiseForm(cfg, s, v);
    hide RaiseError, NearReady, IsSelect;
  }

  lemma RaisePrimary(cfg: Config, s: State, v: seq<Verdicts>)
    requires NearReady(cfg, s) && |v| == cfg.n && IsSelect(s.context.value.stmt)
    requires cfg.mode == MasterSlave && s.conn[cfg.PrimaryNode()].tstate == InBlock && cfg.PrimaryNode() != s.context.value.vmaster
    ensures RaiseError(cfg, s, v) ==
            RunOn(cfg, s.(context := Some(s.context.value.(where := s.context.value.where[cfg.PrimaryNode() := true]))),
                  Provoke, Only(cfg, cfg.PrimaryNode()), v)
  {
    hide IsSelect, RunOn;
  }

  lemma RaiseOthers(cfg: Config, s: State, v: seq<Verdicts>)
    requires NearReady(cfg, s) && |v| == cfg.n && IsSelect(s.context.value.stmt)
    requires cfg.mode == Replication && s.conn[cfg.realMaster].tstate == InBlock && !cfg.replicateSelect
    ensures RaiseError(cfg, s, v) ==
            RunOn(cfg, s.(context := Some(s.context.value.(where := AllLive(cfg, s.context.value.where)))),
                  Provoke, seq(cfg.n, k requires 0 <= k < cfg.n => cfg.live[k] && k != cfg.realMaster), v)
  {
    var t := s.(context := Some(s.context.value.(where := AllLive(cfg, s.context.value.where))));
    assert ErrorMask(cfg, t, cfg.realMaster) == seq(cfg.n, k requires 0 <= k < cfg.n => cfg.live[k] && k != cfg.realMaster);
    hide IsSelect, RunOn;
  }

  lemma NearReadyQueues(cfg: Config, s: State, k: nat)
    requires NearReady(cfg, s) && k < cfg.n && cfg.live[k]
    ensures s.conn[k].queue == [] || AtReady(s.conn[k], false)
  {
    if !s.context.value.where[k] { assert Quiet(s.conn[k]); }
  }

  ghost predicate RaisedTo(cfg: Config, s: State, o: Outcome, x: Raise)
    requires Sized(cfg, s) && s.context.Some?
  {
    |x.where| == |x.provoked| == |o.s.conn| == cfg.n && o.status == Continue &&
    o.s == s.(conn := o.s.conn, log := o.s.log, context := Some(s.context.value.(where := x.where))) &&
    forall k :: 0 <= k < cfg.n ==> o.s.conn[k] == if x.provoked[k] then Failing(s.conn[k]) else s.conn[k]
  }

  lemma RaiseAt(cfg: Config, s: State, x: Raise, v: seq<Verdicts>)
    requires NearReady(cfg, s) && |v| == |x.where| == |x.provoked| == cfg.n
    requires forall k :: 0 <= k < cfg.n && x.provoked[k] ==> cfg.live[k]
    ensures RaisedTo(cfg, s, RunOn(cfg, s.(context := Some(s.context.value.(where := x.where))), Provoke, x.provoked, v), x)
  {
    forall k | 0 <= k < cfg.n && x.provoked[k] ensures s.conn[k].queue == [] || AtReady(s.conn[k], false) {
      NearReadyQueues(cfg, s, k);
    }
    hide NearReady, RunOn;
    ProvokedForm(cfg, s.(context := Some(s.context.value.(where := x.where))), x.provoked, v);
  }

  /** raise_intentional_error_if_need, node by node. */
  lemma RaiseForm(cfg: Config, s: State, v: seq<Verdicts>)
    requires NearReady(cfg, s) && |v| == cfg.n
    ensures RaisedTo(cfg, s, RaiseError(cfg, s, v), Raised(cfg, s))
  {
    var c := s.context.value;
    var p := cfg.PrimaryNode();
    var x := Raised(cfg, s);
    hide IsSelect, RunOn, RaisedTo, ConnsOk;
    if IsSelect(c.stmt) && cfg.mode == MasterSlave && s.conn[p].tstate == InBlock && p != c.vmaster {
      RaisePrimary(cfg, s, v);
      RaiseAt(cfg, s, x, v);
    } else if IsSelect(c.stmt) && cfg.mode == Replication && s.conn[cfg.realMaster].tstate == InBlock && !cfg.replicateSelect {
      RaiseOthers(cfg, s, v);
      RaiseAt(cfg, s, x, v);
    } else {
      NobodyRaised(cfg, s, v);
    }
  }

  lemma NobodyRaised(cfg: Config, s: State, v: seq<Verdicts>)
    requires NearReady(cfg, s) && |v| == cfg.n && Raised(cfg, s) == Raise(s.context.value.where, Nobody(cfg))
    requires RaiseError(cfg, s, v) == Outcome(s, Continue)
    ensures RaisedTo(cfg, s, RaiseError(cfg, s, v), Raised(cfg, s))
  {
    assert |s.conn| == cfg.n && |s.context.value.where| == cfg.n && s.context.Some?;
    hide RaiseError, Raised, NearReady;
  }

  lemma FailingOk(c: Conn)
    requires ConnOk(true, c) || ConnOk(false, c)
    ensures ConnOk(true, Failing(c)) && AtReady(Failing(c), false)
  {
  }

  lemma AtReadyOk(c: Conn)
    requires AtReady(c, false) && (c.internal ==> c.tstate != Idle)
    ensures ConnOk(true, c)
  {
  }

  /** Whoever is a target after an error has been provoked either was one before or has an error of its
      own to report. */
  lemma RaisedTargets(cfg: Config, s: State, k: nat)
    requires NearReady(cfg, s) && k < cfg.n
    ensures var x := Raised(cfg, s);
            |x.where| == |x.provoked| == cfg.n &&
            (x.where[k] <==> s.context.value.where[k] || x.provoked[k]) && (x.provoked[k] ==> cfg.live[k])
  {
    hide IsSelect, Tail, Quiet;
  }

  lemma RaiseKept(cfg: Config, s: State, o: Outcome)
    requires NearReady(cfg, s) && RaisedTo(cfg, s, o, Raised(cfg, s))
    ensures NearReady(cfg, o.s)
  {
    var x := Raised(cfg, s);
    var c := s.context.value;
    forall k | 0 <= k < cfg.n
      ensures x.where[k] <==> c.where[k] || x.provoked[k]
      ensures x.provoked[k] ==> cfg.live[k]
      ensures cfg.live[k] ==> ConnOk(x.where[k], o.s.conn[k])
      ensures x.where[k] ==> AtReady(o.s.conn[k], false)
    {
      RaisedTargets(cfg, s, k);
      if x.provoked[k] { FailingOk(s.conn[k]); }
    }
    hide Raised, ConnOk, AtReady, IsSelect;
  }

  /** After an error has been read, and provoked elsewhere where need be, every target has just its
      readiness message left. */
  lemma ErrorKept(cfg: Config, s: State, v: seq<Verdicts>)
    requires InFlight(cfg, s) && |v| == cfg.n && Agree(cfg, s) && Head(s, s.context.value.vmaster).Error?
    ensures var t := ReadBodies(cfg, Begun(cfg, s));
            var o := RaiseError(cfg, t, v);
            NearReady(cfg, t) && t == s.(conn := t.conn) && RaisedTo(cfg, t, o, Raised(cfg, t)) && NearReady(cfg, o.s) &&
            ErrorResponse(cfg, Begun(cfg, s), v) == Outcome(NoteFailure(cfg, o.s), Continue)
  {
    var r := ReadBodies(cfg, Begun(cfg, s));
    ErrorRead(cfg, s);
    RaiseForm(cfg, r, v);
    RaiseKept(cfg, r, RaiseError(cfg, r, v));
    hide RaiseError, Raised, Begun, ReadBodies, ConnsOk, AtReady, Proper, Agree, NoteFailure;
  }
}
