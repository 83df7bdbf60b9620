/** One client's session over several nodes, as functions on the session's state: where a statement
    goes, how it is sent, and how the answers are read until the session is ready for the next. */
module SessionModel {
  import opened Options
  import opened Statements
  import opened Postgres

  datatype Mode = Raw | MasterSlave | Replication

  /** What does not change while a session lasts. live is being UP or waiting to be connected, up the former
      alone; delayed says that the load balance node lags behind
      by more than the configured threshold. */
  datatype Config = Config(
    mode: Mode, n: nat, live: seq<bool>, up: seq<bool>, realMaster: nat, primaryId: int, lbNode: nat,
    loadBalance: bool, replicateSelect: bool, failoverOnMismatch: bool, singleChild: bool, delayed: bool)
  {
    /** PRIMARY_NODE_ID. */
    function PrimaryNode(): int { if primaryId >= 0 then primaryId else realMaster }
    /** The node whose transaction state is the client's. */
    function MainNode(): int { if mode == MasterSlave then PrimaryNode() else realMaster }

    ghost predicate WellFormed() {
      |live| == |up| == n && (forall i :: 0 <= i < n && up[i] ==> live[i]) &&
      realMaster < n && live[realMaster] && (forall i :: 0 <= i < realMaster ==> !live[i]) &&
      PrimaryNode() < n && live[PrimaryNode()] && lbNode < n && live[lbNode]
    }
  }

  /** A message waiting to be read; begun once its kind byte has been read but not yet its body. */
  datatype Packet = Packet(msg: Msg, begun: bool)

  datatype Conn = Conn(remote: Remote, queue: seq<Packet>, tstate: TState, internal: bool)

  /** The query context: the statement, its id, the nodes it goes to, and the lowest of them. */
  datatype Context = Context(stmt: Stmt, id: nat, where: seq<bool>, vmaster: nat)

  datatype Isolation = UnknownIsolation | ReadCommitted | Serializable

  /** A prepared statement and the nodes that hold it. */
  datatype Prepared = Prepared(name: string, where: seq<bool>)

  datatype Event = Sent(node: nat, query: Query) | Waited(node: nat)

  datatype State = State(
    conn: seq<Conn>, context: Option<Context>, inProgress: bool,
    commandSuccess: bool, writing: bool, failed: bool, isolation: Isolation,
    mismatch: bool, ntuples: seq<int>, sent: seq<Prepared>, uncompleted: Option<Prepared>,
    reset: bool, log: seq<Event>, reported: TState)

  /** POOL_CONTINUE; anything else ends the session. */
  datatype Status = Continue | End
  datatype Outcome = Outcome(s: State, status: Status)

  /** The nodes' verdicts on one statement: on the internal BEGIN, the statement, the internal COMMIT. */
  datatype Verdicts = Verdicts(begin: Answer, main: Answer, commit: Answer)

  /** A session that has not run a statement yet, on connections that have been set up. */
  function NewSession(conn: seq<Conn>): State {
    State(conn, None, false, false, false, false, UnknownIsolation, false, [], [], None, false, [], Idle)
  }

  ghost predicate SizedConfig(cfg: Config) {
    |cfg.live| == |cfg.up| == cfg.n && cfg.realMaster < cfg.n && cfg.PrimaryNode() < cfg.n && cfg.lbNode < cfg.n
  }

  ghost predicate SizedList(n: nat, sent: seq<Prepared>, uncompleted: Option<Prepared>) {
    (forall p :: p in sent ==> |p.where| == n) && (uncompleted.Some? ==> |uncompleted.value.where| == n)
  }

  ghost predicate SizedContext(n: nat, c: Option<Context>) {
    c.Some? ==> |c.value.where| == n && c.value.vmaster < n
  }

  ghost predicate Sized(cfg: Config, s: State) {
    SizedConfig(cfg) && |s.conn| == cfg.n && SizedList(cfg.n, s.sent, s.uncompleted) && SizedContext(cfg.n, s.context)
  }

  // ---------------------------------------------------------------------------------------
  // Nodes of the current query
  // ---------------------------------------------------------------------------------------

  predicate Target(cfg: Config, c: Option<Context>, inProgress: bool, i: nat)
    requires SizedConfig(cfg) && SizedContext(cfg.n, c) && i < cfg.n
  {
    if cfg.mode == Raw then i == cfg.realMaster
    else (inProgress && c.Some? ==> c.value.where[i]) && cfg.live[i]
  }

  /** VALID_BACKEND: live, and a target of the query in progress if there is one. */
  predicate Valid(cfg: Config, s: State, i: nat)
    requires Sized(cfg, s) && i < cfg.n
  {
    Target(cfg, s.context, s.inProgress, i)
  }

  /** MASTER_NODE_ID. */
  function MasterNode(cfg: Config, s: State): (m: nat)
    requires Sized(cfg, s)
    ensures m < cfg.n
  {
    if s.context.Some? then s.context.value.vmaster else cfg.realMaster
  }

  function Nobody(cfg: Config): seq<bool> { seq(cfg.n, _ => false) }

  function Only(cfg: Config, i: int): seq<bool> { seq(cfg.n, k => k == i) }

  /** pool_setall_node_to_be_sent. */
  function AllLive(cfg: Config, where: seq<bool>): (r: seq<bool>)
    requires |where| == |cfg.live| == cfg.n
    ensures |r| == cfg.n
  {
    seq(cfg.n, k requires 0 <= k < cfg.n => where[k] || cfg.live[k])
  }

  function FirstTarget(where: seq<bool>, i: nat): (t: int)
    requires i <= |where|
    ensures t == -1 || (i <= t < |where| && where[t])
    ensures forall k :: i <= k < |where| && (t == -1 || k < t) ==> !where[k]
    decreases |where| - i
  {
    if i == |where| then -1 else if where[i] then i else FirstTarget(where, i + 1)
  }

  function FindPrepared(sent: seq<Prepared>, name: string): (p: Option<Prepared>)
    ensures p.Some? ==> p.value in sent && p.value.name == name
  {
    if sent == [] then None else if sent[0].name == name then Some(sent[0]) else FindPrepared(sent[1..], name)
  }

  function RemovePrepared(sent: seq<Prepared>, name: string): (r: seq<Prepared>)
    ensures forall p :: p in r ==> p in sent
    ensures |r| <= |sent|
  {
    if sent == [] then [] else if sent[0].name == name then sent[1..] else [sent[0]] + RemovePrepared(sent[1..], name)
  }

  function AddPrepared(sent: seq<Prepared>, p: Prepared): (r: seq<Prepared>)
    ensures forall q :: q in r ==> q in sent || q == p
  {
    if FindPrepared(sent, p.name).Some? then (if p.name == "" then RemovePrepared(sent, "") + [p] else sent) else sent + [p]
  }

  // ---------------------------------------------------------------------------------------
  // pool_where_to_send
  // ---------------------------------------------------------------------------------------

  function StartQuery(cfg: Config, s: State, stmt: Stmt, id: nat): (r: State)
    requires Sized(cfg, s)
    ensures Sized(cfg, r)
  {
    s.(context := Some(Context(stmt, id, Nobody(cfg), cfg.realMaster)), inProgress := true)
  }

  /** pool_get_transaction_isolation, which asks the backend once when it does not know. */
  function KnownIsolation(s: State, asked: Isolation): Isolation {
    if s.isolation != UnknownIsolation then s.isolation else asked
  }

  /** The targets in master/slave mode, and the isolation level as far as it had to be found out. */
  function RouteMasterSlave(cfg: Config, s: State, stmt: Stmt, asked: Isolation): (seq<bool>, Isolation)
    requires Sized(cfg, s)
  {
    var primary := Only(cfg, cfg.PrimaryNode());
    match SendToWhere(stmt)
    case Primary => (primary, s.isolation)
    case Both => (AllLive(cfg, Nobody(cfg)), s.isolation)
    case Either =>
      if !(cfg.loadBalance && IsSelect(stmt)) then (primary, s.isolation)
      else
        var idle := s.conn[cfg.PrimaryNode()].tstate == Idle;
        var asks := !idle && !s.writing && !s.failed;
        var iso := if asks then KnownIsolation(s, asked) else s.isolation;
        if idle || (asks && iso != Serializable) then
          var t := TraitsOf(stmt);
          (if cfg.delayed || t.callsFunction || t.systemCatalog || t.tempTable then primary else Only(cfg, cfg.lbNode), iso)
        else (primary, iso)
  }

  function RouteReplication(cfg: Config, s: State, stmt: Stmt): seq<bool>
    requires Sized(cfg, s)
  {
    if IsSelect(stmt) && !IsSequence(stmt) then
      if TraitsOf(stmt).callsFunction || cfg.replicateSelect then AllLive(cfg, Nobody(cfg))
      else if cfg.loadBalance && s.conn[MasterNode(cfg, s)].tstate == Idle then Only(cfg, cfg.lbNode)
      else Only(cfg, cfg.realMaster)
    else AllLive(cfg, Nobody(cfg))
  }

  /** EXECUTE and DEALLOCATE go where their PREPARE went. */
  function FollowPrepare(cfg: Config, s: State, stmt: Stmt, where: seq<bool>): (r: seq<bool>)
    requires Sized(cfg, s) && |where| == cfg.n
    ensures |r| == cfg.n
  {
    match stmt
    case Execute(name) =>
      var p := FindPrepared(s.sent, name);
      if p.Some? then p.value.where else where
    case Deallocate(None) => AllLive(cfg, where)
    case Deallocate(Some(name)) =>
      var p := FindPrepared(s.sent, name);
      if p.Some? then p.value.where else where
    case _ => where
  }

  /** The targets before prepared statements are looked at. noBalance is the NO LOAD BALANCE comment. */
  function Route(cfg: Config, s: State, stmt: Stmt, noBalance: bool, asked: Isolation): (r: (seq<bool>, Isolation))
    requires Sized(cfg, s)
    ensures |r.0| == cfg.n
  {
    if noBalance then (Only(cfg, cfg.MainNode()), s.isolation)
    else if cfg.mode == Raw then (Only(cfg, cfg.realMaster), s.isolation)
    else if cfg.mode == MasterSlave then RouteMasterSlave(cfg, s, stmt, asked)
    else (RouteReplication(cfg, s, stmt), s.isolation)
  }

  /** pool_where_to_send. */
  function WhereToSend(cfg: Config, s: State, noBalance: bool, asked: Isolation): (r: State)
    requires Sized(cfg, s) && s.context.Some?
    ensures Sized(cfg, r) && r.context.Some?
  {
    var c := s.context.value;
    var base := Route(cfg, s, c.stmt, noBalance, asked);
    var where := if noBalance then base.0 else FollowPrepare(cfg, s, c.stmt, base.0);
    var first := FirstTarget(where, 0);
    s.(context := Some(c.(where := where, vmaster := if first >= 0 then first else c.vmaster)), isolation := base.1)
  }

  /** The indexes at which a mask is set, ascending: the nodes a loop over all nodes acts on. */
  function Chosen(mask: seq<bool>): (r: seq<nat>)
    ensures forall a :: 0 <= a < |r| ==> r[a] < |mask|
  {
    if mask == [] then []
    else Chosen(mask[..|mask| - 1]) + if mask[|mask| - 1] then [|mask| - 1] else []
  }

  lemma {:induction false} ChosenAre(mask: seq<bool>)
    ensures forall k: nat :: k in Chosen(mask) <==> k < |mask| && mask[k]
    ensures forall a, b :: 0 <= a < b < |Chosen(mask)| ==> Chosen(mask)[a] < Chosen(mask)[b]
  {
    if mask != [] {
      var n := |mask| - 1;
      ChosenAre(mask[..n]);
      var before, last := Chosen(mask[..n]), if mask[n] then [n] else [];
      assert Chosen(mask) == before + last;
      hide Chosen;
      forall a, b | 0 <= a < b < |before + last| ensures (before + last)[a] < (before + last)[b] {
        if b == |before| { assert before[a] in before; }
      }
      forall k: nat ensures k in before + last <==> k < |mask| && mask[k] {
        assert k in before <==> k < n && mask[..n][k];
      }
    }
  }

  /** pool_multi_node_to_be_sent. */
  predicate SeveralTargets(cfg: Config, s: State)
    requires Sized(cfg, s) && s.context.Some?
  {
    |Chosen(seq(cfg.n, k requires 0 <= k < cfg.n => cfg.live[k] && s.context.value.where[k]))| > 1
  }

  // ---------------------------------------------------------------------------------------
  // Talking to one node
  // ---------------------------------------------------------------------------------------

  function Wrap(msgs: seq<Msg>): (q: seq<Packet>)
    ensures |q| == |msgs|
  {
    seq(|msgs|, i requires 0 <= i < |msgs| => Packet(msgs[i], false))
  }

  /** Sends a query; the answer queues up behind what is still unread. */
  function SendQuery(c: Conn, q: Query, a: Answer): Conn {
    var r := Respond(c.remote, q, a);
    c.(remote := r.remote, queue := c.queue + Wrap(r.msgs))
  }

  predicate KindReadable(c: Conn) { c.queue != [] && !c.queue[0].begun }
  predicate BodyReadable(c: Conn) { c.queue != [] && c.queue[0].begun }

  function ReadKind(c: Conn): Conn
    requires KindReadable(c)
  {
    c.(queue := c.queue[0 := c.queue[0].(begun := true)])
  }

  function ReadBody(c: Conn): Conn
    requires BodyReadable(c)
  {
    c.(queue := c.queue[1..])
  }

  /** Reads packets up to the kind of a readiness message, accepting only what do_command expects. */
  function DrainToReady(q: seq<Packet>): Option<seq<Packet>> {
    if q == [] || q[0].begun then None
    else if q[0].msg.Ready? then Some(q[0 := q[0].(begun := true)])
    else if q[0].msg.Notice? || q[0].msg.Error? || q[0].msg.Complete? then DrainToReady(q[1..])
    else None
  }

  /** Reads packets up to and including an error. */
  function DrainError(q: seq<Packet>): Option<seq<Packet>> {
    if q == [] || q[0].begun then None
    else if q[0].msg.Error? then Some(q[1..])
    else DrainError(q[1..])
  }

  datatype Exchange = Exchange(c: Conn, ok: bool)

  /** do_command; with noReady the body of the readiness message is left for the caller. Errors other
      than fatal ones count as success. */
  function DoCommand(c: Conn, q: Query, a: Answer, noReady: bool): Exchange {
    var c1 := SendQuery(c, q, a);
    if a.Lost? then Exchange(c1, false)
    else
      match DrainToReady(c1.queue)
      case None => Exchange(c1, false)
      case Some(rest) =>
        if noReady then Exchange(c1.(queue := rest), true)
        else if rest != [] && rest[0].msg.Ready? then Exchange(c1.(queue := rest[1..], tstate := rest[0].msg.state), true)
        else Exchange(c1, false)
  }

  /** do_error_command: provokes an error, so that an open transaction is aborted. */
  function DoError(c: Conn): Exchange {
    var c1 := SendQuery(c, ErrorQuery, Reject);
    match DrainError(c1.queue)
    case None => Exchange(c1, false)
    case Some(rest) => Exchange(c1.(queue := rest), true)
  }

  // ---------------------------------------------------------------------------------------
  // Sending a statement
  // ---------------------------------------------------------------------------------------

  /** What a loop over nodes does to each of them in turn: open an internal transaction, provoke an
      error, commit an internal transaction, or commit what a standby has open. */
  datatype Action = OpenInternal | Provoke | CloseInternal | CommitStandby

  /** end_internal_transaction, on one node: the rest of the readiness message is skipped, COMMIT is
      run, and the kind of its own readiness message is read in place of the first. */
  function CommitNode(c: Conn, a: Answer): Exchange {
    if !BodyReadable(c) then Exchange(c, false)
    else
      var x := DoCommand(ReadBody(c), Commit, a, true);
      Exchange(x.c.(internal := false), x.ok)
  }

  function Act(action: Action, c: Conn, v: Verdicts): Exchange {
    match action
    case OpenInternal =>
      var x := DoCommand(c, Begin, v.begin, false);
      if x.ok then Exchange(x.c.(internal := true), true) else x
    case Provoke => DoError(c)
    case CloseInternal => CommitNode(c, v.commit)
    case CommitStandby => DoCommand(c, Commit, v.commit, false)
  }

  function QueryOf(action: Action): Query {
    match action
    case OpenInternal => Begin
    case Provoke => ErrorQuery
    case _ => Commit
  }

  /** The outcome of such a loop: it stops at the first node where the action fails. */
  datatype Batch = Batch(conn: seq<Conn>, log: seq<Event>, ok: bool)

  /** What the log shows of an action that fails: nothing, if the readiness message to be skipped first
      was not there. */
  function Attempt(action: Action, c: Conn, i: nat): seq<Event> {
    if action == CloseInternal && !BodyReadable(c) then [] else [Sent(i, QueryOf(action))]
  }

  function RunBatch(action: Action, conn: seq<Conn>, nodes: seq<nat>, v: seq<Verdicts>): (r: Batch)
    requires |v| == |conn| && forall k :: 0 <= k < |nodes| ==> nodes[k] < |conn|
    ensures |r.conn| == |conn|
    decreases |nodes|
  {
    if nodes == [] then Batch(conn, [], true)
    else
      var i := nodes[0];
      var x := Act(action, conn[i], v[i]);
      if !x.ok then Batch(conn[i := x.c], Attempt(action, conn[i], i), false)
      else
        var rest := RunBatch(action, conn[i := x.c], nodes[1..], v);
        Batch(rest.conn, [Sent(i, QueryOf(action)), Waited(i)] + rest.log, rest.ok)
  }

  /** Runs an action on the nodes a mask selects. */
  function RunOn(cfg: Config, s: State, action: Action, mask: seq<bool>, v: seq<Verdicts>): (o: Outcome)
    requires Sized(cfg, s) && |mask| == |v| == cfg.n
    ensures Sized(cfg, o.s) && o.s == s.(conn := o.s.conn, log := o.s.log)
  {
    var b := RunBatch(action, s.conn, Chosen(mask), v);
    Outcome(s.(conn := b.conn, log := s.log + b.log), if b.ok then Continue else End)
  }

  function BeginMask(cfg: Config, s: State): (m: seq<bool>)
    requires Sized(cfg, s)
    ensures |m| == cfg.n
  {
    seq(cfg.n, k requires 0 <= k < cfg.n => Valid(cfg, s, k) && !s.conn[k].internal && s.conn[k].tstate == Idle)
  }

  /** No connection has had an internal transaction opened on it. */
  predicate NoneOpened(conn0: seq<Conn>, conn: seq<Conn>)
    requires |conn| == |conn0|
  {
    forall k :: 0 <= k < |conn| && conn[k].internal ==> conn0[k].internal
  }

  /** start_internal_transaction. Opening a transaction forgets that the session has written. */
  function StartInternal(cfg: Config, s: State, v: seq<Verdicts>): (o: Outcome)
    requires Sized(cfg, s) && s.context.Some? && |v| == cfg.n
    ensures Sized(cfg, o.s) && o.s == s.(conn := o.s.conn, log := o.s.log, writing := o.s.writing)
  {
    if !NeedsInternalTransaction(s.context.value.stmt) then Outcome(s, Continue)
    else
      var o := RunOn(cfg, s, OpenInternal, BeginMask(cfg, s), v);
      Outcome(o.s.(writing := s.writing && NoneOpened(s.conn, o.s.conn)), o.status)
  }

  predicate Selected(sendType: int, node: nat, i: nat) {
    (sendType < 0 ==> i != node) && (sendType > 0 ==> i == node)
  }

  /** COMMIT and ROLLBACK are withheld from an idle node: from any but the master in master/slave mode,
      from every node when the session is being reset. */
  predicate Withheld(cfg: Config, s: State, i: nat)
    requires Sized(cfg, s) && s.context.Some? && i < cfg.n
  {
    IsCommit(s.context.value.stmt) && s.conn[i].tstate == Idle &&
    ((cfg.mode == MasterSlave && i != MasterNode(cfg, s)) || s.reset)
  }

  /** Node k gets the statement from a call of pool_send_and_wait. */
  predicate Receives(cfg: Config, s: State, sendType: int, node: nat, k: nat)
    requires Sized(cfg, s) && s.context.Some? && k < cfg.n
  {
    Valid(cfg, s, k) && Selected(sendType, node, k) && !Withheld(cfg, s, k)
  }

  function Receivers(cfg: Config, s: State, sendType: int, node: nat): seq<nat>
    requires Sized(cfg, s) && s.context.Some?
  {
    Chosen(seq(cfg.n, k requires 0 <= k < cfg.n => Receives(cfg, s, sendType, node, k)))
  }

  function TheQuery(s: State): Query
    requires s.context.Some?
  {
    Client(s.context.value.stmt, s.context.value.id)
  }

  function Sends(nodes: seq<nat>, q: Query): seq<Event> {
    seq(|nodes|, k requires 0 <= k < |nodes| => Sent(nodes[k], q))
  }

  /** Waiting for the answers ends at the first connection that breaks. */
  function Waits(nodes: seq<nat>, v: seq<Verdicts>): seq<Event>
    requires forall k :: 0 <= k < |nodes| ==> nodes[k] < |v|
  {
    if nodes == [] then []
    else [Waited(nodes[0])] + if v[nodes[0]].main.Lost? then [] else Waits(nodes[1..], v)
  }

  /** The sending loop of pool_send_and_wait: the receivers get the statement, the nodes it is withheld
      from are no longer targets. */
  function SendAll(cfg: Config, s: State, sendType: int, node: nat, v: seq<Verdicts>): (r: State)
    requires Sized(cfg, s) && s.context.Some? && |v| == cfg.n
    ensures Sized(cfg, r) && r == s.(conn := r.conn, context := r.context, log := r.log)
    ensures r.context.Some? && r.context.value == s.context.value.(where := r.context.value.where)
  {
    var c := s.context.value;
    s.(conn := seq(cfg.n, k requires 0 <= k < cfg.n =>
         if Receives(cfg, s, sendType, node, k) then SendQuery(s.conn[k], TheQuery(s), v[k].main) else s.conn[k]),
       context := Some(c.(where := seq(cfg.n, k requires 0 <= k < cfg.n =>
         c.where[k] && !(Valid(cfg, s, k) && Selected(sendType, node, k) && Withheld(cfg, s, k))))),
       log := s.log + Sends(Receivers(cfg, s, sendType, node), TheQuery(s)))
  }

  /** Raw mode takes the master for a target whatever the targets are: a COMMIT that a reset withholds from it
      is waited for all the same. */
  predicate Stalls(cfg: Config, s: State, sendType: int, node: nat)
    requires Sized(cfg, s) && s.context.Some?
  {
    cfg.mode == Raw && Selected(sendType, node, cfg.realMaster) && Withheld(cfg, s, cfg.realMaster)
  }

  /** pool_send_and_wait. Outside that case the nodes waited for are those the statement was sent to. Waiting
      for a node that has nothing to say ends with the session. */
  function SendAndWait(cfg: Config, s: State, sendType: int, node: nat, v: seq<Verdicts>): (o: Outcome)
    requires Sized(cfg, s) && s.context.Some? && |v| == cfg.n
    ensures Sized(cfg, o.s) && o.s == s.(conn := o.s.conn, context := o.s.context, log := o.s.log)
    ensures o.s.context.Some? && o.s.context.value == s.context.value.(where := o.s.context.value.where)
  {
    var nodes := Receivers(cfg, s, sendType, node);
    var r := SendAll(cfg, s, sendType, node, v);
    var m := cfg.realMaster;
    if Stalls(cfg, s, sendType, node) then
      Outcome(r.(log := r.log + [Waited(m)]), if v[m].main.Lost? || s.conn[m].queue == [] then End else Continue)
    else
      Outcome(r.(log := r.log + Waits(nodes, v)), if exists k :: 0 <= k < |nodes| && v[nodes[k]].main.Lost? then End else Continue)
  }

  /** The order in which SimpleQuery sends a statement out. */
  function Dispatch(cfg: Config, s: State, v: seq<Verdicts>): (o: Outcome)
    requires Sized(cfg, s) && s.context.Some? && |v| == cfg.n
    ensures Sized(cfg, o.s) && o.s.context.Some?
  {
    var m := MasterNode(cfg, s);
    if cfg.mode == Raw then SendAndWait(cfg, s, 1, m, v)
    else if IsCommit(s.context.value.stmt) then
      var others := SendAndWait(cfg, s, -1, m, v);
      if others.status == End then others else SendAndWait(cfg, others.s, 1, m, v)
    else if cfg.singleChild then SendAndWait(cfg, s, 0, 0, v)
    else
      var first := SendAndWait(cfg, s, 1, m, v);
      if first.status == End then first else SendAndWait(cfg, first.s, -1, m, v)
  }

  /** A PREPARE is remembered, to be listed once it completes. */
  function NotePrepare(s: State): (r: State)
    requires s.context.Some?
    ensures r == s.(uncompleted := r.uncompleted)
    ensures r.uncompleted == s.uncompleted || (r.uncompleted.Some? && r.uncompleted.value.where == s.context.value.where)
  {
    match s.context.value.stmt
    case Prepare(name, _) => s.(uncompleted := Some(Prepared(name, s.context.value.where)))
    case _ => s
  }

  /** A statement for several nodes may have a transaction opened around it. */
  function Opening(cfg: Config, s: State, v: seq<Verdicts>): (o: Outcome)
    requires Sized(cfg, s) && s.context.Some? && |v| == cfg.n
    ensures Sized(cfg, o.s) && o.s == s.(conn := o.s.conn, log := o.s.log, writing := o.s.writing)
  {
    if cfg.mode != Raw && SeveralTargets(cfg, s) then StartInternal(cfg, s, v) else Outcome(s, Continue)
  }

  /** The sending half of SimpleQuery, once the targets are known. */
  function SendOut(cfg: Config, s: State, v: seq<Verdicts>): (o: Outcome)
    requires Sized(cfg, s) && s.context.Some? && |v| == cfg.n
    ensures Sized(cfg, o.s)
  {
    var started := Opening(cfg, s, v);
    if started.status == End then started else Dispatch(cfg, NotePrepare(started.s), v)
  }

  /** SimpleQuery: routes and sends a statement. */
  function SimpleQuery(cfg: Config, s: State, stmt: Stmt, id: nat, noBalance: bool, asked: Isolation, v: seq<Verdicts>): (o: Outcome)
    requires Sized(cfg, s) && |v| == cfg.n
    ensures Sized(cfg, o.s)
  {
    if stmt.ShowPool? then Outcome(s.(context := None, inProgress := false), Continue)
    else SendOut(cfg, WhereToSend(cfg, StartQuery(cfg, s, stmt, id), noBalance, asked), v)
  }

  // ---------------------------------------------------------------------------------------
  // Reading the answers
  // ---------------------------------------------------------------------------------------

  datatype Kind = KRow | KNotice | KComplete | KError | KEmpty | KReady

  function KindOf(m: Msg): Kind {
    match m
    case Row => KRow
    case Notice => KNotice
    case Complete(_) => KComplete
    case Error => KError
    case EmptyQuery => KEmpty
    case Ready(_) => KReady
  }

  /** Every node of the query has a message of kind k whose kind byte is unread. */
  predicate AllShow(cfg: Config, s: State, k: Kind)
    requires Sized(cfg, s)
  {
    forall i :: 0 <= i < cfg.n && Valid(cfg, s, i) ==> KindReadable(s.conn[i]) && KindOf(s.conn[i].queue[0].msg) == k
  }

  predicate AllOpened(cfg: Config, s: State)
    requires Sized(cfg, s)
  {
    forall i :: 0 <= i < cfg.n && Valid(cfg, s, i) ==> BodyReadable(s.conn[i])
  }

  function ReadKinds(cfg: Config, s: State): (r: State)
    requires Sized(cfg, s) && forall i :: 0 <= i < cfg.n && Valid(cfg, s, i) ==> KindReadable(s.conn[i])
    ensures r == s.(conn := r.conn) && |r.conn| == cfg.n
  {
    s.(conn := seq(cfg.n, i requires 0 <= i < cfg.n => if Valid(cfg, s, i) then ReadKind(s.conn[i]) else s.conn[i]))
  }

  function ReadBodies(cfg: Config, s: State): (r: State)
    requires Sized(cfg, s) && AllOpened(cfg, s)
    ensures r == s.(conn := r.conn) && |r.conn| == cfg.n
  {
    s.(conn := seq(cfg.n, i requires 0 <= i < cfg.n => if Valid(cfg, s, i) then ReadBody(s.conn[i]) else s.conn[i]))
  }

  lemma ReadKindsOpens(cfg: Config, s: State)
    requires Sized(cfg, s) && forall i :: 0 <= i < cfg.n && Valid(cfg, s, i) ==> KindReadable(s.conn[i])
    ensures var r := ReadKinds(cfg, s);
            Sized(cfg, r) && MasterNode(cfg, r) == MasterNode(cfg, s) && AllOpened(cfg, r) &&
            forall i :: 0 <= i < cfg.n ==>
              (Valid(cfg, r, i) <==> Valid(cfg, s, i)) && |r.conn[i].queue| == |s.conn[i].queue| &&
              (r.conn[i].queue != [] ==> r.conn[i].queue[0].msg == s.conn[i].queue[0].msg)
  {
    hide Target;
  }

  lemma ReadBodiesShrinks(cfg: Config, s: State)
    requires Sized(cfg, s) && AllOpened(cfg, s)
    ensures var r := ReadBodies(cfg, s);
            Sized(cfg, r) && MasterNode(cfg, r) == MasterNode(cfg, s) &&
            forall i :: 0 <= i < cfg.n ==>
              (Valid(cfg, r, i) <==> Valid(cfg, s, i)) &&
              |r.conn[i].queue| == |s.conn[i].queue| - if Valid(cfg, s, i) then 1 else 0
  {
    hide Target;
  }

  /** The list of prepared statements after a statement has completed. */
  function ListAfter(stmt: Stmt, sent: seq<Prepared>, uncompleted: Option<Prepared>): (r: seq<Prepared>)
    ensures forall p :: p in r ==> p in sent || uncompleted == Some(p)
  {
    match stmt
    case Prepare(_, _) => if uncompleted.Some? then AddPrepared(sent, uncompleted.value) else sent
    case Deallocate(None) => []
    case Deallocate(Some(name)) => RemovePrepared(sent, name)
    case Discard(target) => if target.DiscardTemp? then sent else []
    case _ => sent
  }

  /** A completed BEGIN puts the nodes of the query into a block. */
  function MarkStarted(cfg: Config, s: State, starts: bool): (r: seq<Conn>)
    requires Sized(cfg, s)
    ensures |r| == cfg.n && forall i :: 0 <= i < cfg.n ==> r[i] == s.conn[i].(tstate := r[i].tstate)
  {
    seq(cfg.n, i requires 0 <= i < cfg.n => if starts && Valid(cfg, s, i) then s.conn[i].(tstate := InBlock) else s.conn[i])
  }

  lemma ListAfterSized(n: nat, stmt: Stmt, sent: seq<Prepared>, uncompleted: Option<Prepared>)
    requires SizedList(n, sent, uncompleted)
    ensures SizedList(n, ListAfter(stmt, sent, uncompleted), if stmt.Prepare? then None else uncompleted)
  {
    hide ListAfter;
  }

  /** What CommandComplete does before it reads the message. */
  function NoteComplete(cfg: Config, s: State): (r: State)
    requires Sized(cfg, s)
    ensures Sized(cfg, r) && r.context == s.context && r.inProgress == s.inProgress && r.mismatch == s.mismatch
  {
    if s.context == None then s
    else
      var stmt := s.context.value.stmt;
      var starts := IsStart(stmt);
      ListAfterSized(cfg.n, stmt, s.sent, s.uncompleted);
      s.(conn := MarkStarted(cfg, s, starts),
         sent := ListAfter(stmt, s.sent, s.uncompleted),
         uncompleted := if stmt.Prepare? then None else s.uncompleted,
         writing := s.writing && !starts, failed := s.failed && !starts,
         isolation := if starts then UnknownIsolation else s.isolation)
  }

  function RowsOf(p: Packet): int { if p.msg.Complete? then p.msg.rows else 0 }

  /** The row counts of the nodes of the query; -1 for the others. */
  function RowCounts(cfg: Config, s: State): (r: seq<int>)
    requires Sized(cfg, s) && AllOpened(cfg, s)
    ensures |r| == cfg.n
  {
    seq(cfg.n, i requires 0 <= i < cfg.n => if Valid(cfg, s, i) then RowsOf(s.conn[i].queue[0]) else -1)
  }

  /** CommandComplete: takes down the row counts and notes whether they differ. */
  function CommandComplete(cfg: Config, s0: State): (r: State)
    requires Sized(cfg, s0) && AllOpened(cfg, s0) && Valid(cfg, s0, MasterNode(cfg, s0))
    ensures Sized(cfg, r) && r.context == s0.context && r.inProgress == s0.inProgress
  {
    var s := NoteComplete(cfg, s0);
    assert AllOpened(cfg, s) && MasterNode(cfg, s) == MasterNode(cfg, s0);
    ReadBodiesShrinks(cfg, s);
    var counts := RowCounts(cfg, s);
    var differ := exists i :: 0 <= i < cfg.n && Valid(cfg, s, i) && counts[i] != counts[MasterNode(cfg, s)];
    ReadBodies(cfg, s).(ntuples := counts, mismatch := s.mismatch || differ)
  }

  function ErrorMask(cfg: Config, s: State, skip: int): (m: seq<bool>)
    requires Sized(cfg, s)
    ensures |m| == cfg.n
  {
    seq(cfg.n, k requires 0 <= k < cfg.n => Valid(cfg, s, k) && k != skip)
  }

  /** raise_intentional_error_if_need: brings nodes that did not see a failed SELECT into the failed
      state as well. */
  function RaiseError(cfg: Config, s: State, v: seq<Verdicts>): (o: Outcome)
    requires Sized(cfg, s) && |v| == cfg.n
    ensures Sized(cfg, o.s)
  {
    var p := cfg.PrimaryNode();
    if s.context == None || !IsSelect(s.context.value.stmt) then Outcome(s, Continue)
    else if cfg.mode == MasterSlave && s.conn[p].tstate == InBlock && p != MasterNode(cfg, s) then
      var c := s.context.value;
      RunOn(cfg, s.(context := Some(c.(where := c.where[p := true]))), Provoke, Only(cfg, p), v)
    else if cfg.mode == Replication && s.conn[cfg.realMaster].tstate == InBlock && !cfg.replicateSelect then
      var c := s.context.value;
      var t := s.(context := Some(c.(where := AllLive(cfg, c.where))));
      RunOn(cfg, t, Provoke, ErrorMask(cfg, t, cfg.realMaster), v)
    else Outcome(s, Continue)
  }

  predicate Participates(cfg: Config, s: State, i: nat)
    requires Sized(cfg, s) && i < cfg.n
  {
    s.conn[i].tstate != Idle && s.conn[i].internal
  }

  function CommitMask(cfg: Config, s: State): (m: seq<bool>)
    requires Sized(cfg, s)
    ensures |m| == cfg.n
  {
    seq(cfg.n, k requires 0 <= k < cfg.n => Valid(cfg, s, k) && k != MasterNode(cfg, s) && Participates(cfg, s, k))
  }

  /** end_internal_transaction: the others in order, the master last. */
  function EndInternal(cfg: Config, s: State, v: seq<Verdicts>): (o: Outcome)
    requires Sized(cfg, s) && |v| == cfg.n
    ensures Sized(cfg, o.s) && o.s == s.(conn := o.s.conn, log := o.s.log)
  {
    var others := RunOn(cfg, s, CloseInternal, CommitMask(cfg, s), v);
    var m := MasterNode(cfg, s);
    if others.status == End || !Participates(cfg, others.s, m) then others
    else RunOn(cfg, others.s, CloseInternal, Only(cfg, m), v)
  }

  /** pool_read_kind across the nodes: it succeeds when no valid node lies below the master and all show
      what the master shows. */
  predicate MasterIsLowestValid(cfg: Config, s: State)
    requires Sized(cfg, s)
  {
    forall i :: 0 <= i < cfg.n && Valid(cfg, s, i) ==> MasterNode(cfg, s) <= i
  }

  predicate AllReadyAlike(cfg: Config, s: State)
    requires Sized(cfg, s)
  {
    MasterIsLowestValid(cfg, s) && AllOpened(cfg, s) && BodyReadable(s.conn[MasterNode(cfg, s)]) &&
    forall i :: 0 <= i < cfg.n && Valid(cfg, s, i) ==> s.conn[i].queue[0].msg == s.conn[MasterNode(cfg, s)].queue[0].msg
  }

  /** The nodes of the query all have a message of the same kind to read. */
  predicate Agree(cfg: Config, s: State)
    requires Sized(cfg, s)
  {
    var m := MasterNode(cfg, s);
    Valid(cfg, s, m) && KindReadable(s.conn[m]) && AllShow(cfg, s, KindOf(s.conn[m].queue[0].msg))
  }

  /** pool_discard_packet: one whole packet from every node. */
  function DiscardPackets(cfg: Config, s: State): (r: State)
    requires Sized(cfg, s) && Agree(cfg, s)
    ensures Sized(cfg, r) && r == s.(conn := r.conn)
    ensures MasterNode(cfg, r) == MasterNode(cfg, s)
    ensures |r.conn[MasterNode(cfg, s)].queue| < |s.conn[MasterNode(cfg, s)].queue|
  {
    ReadKindsOpens(cfg, s);
    ReadBodiesShrinks(cfg, ReadKinds(cfg, s));
    ReadBodies(cfg, ReadKinds(cfg, s))
  }

  /** Discards whole packets until every node shows the kind of a readiness message. */
  function SkipToReady(cfg: Config, s: State): (o: Outcome)
    requires Sized(cfg, s)
    ensures Sized(cfg, o.s) && o.s == s.(conn := o.s.conn)
    decreases |s.conn[MasterNode(cfg, s)].queue|
  {
    if !MasterIsLowestValid(cfg, s) || !Agree(cfg, s) then Outcome(s, End)
    else if s.conn[MasterNode(cfg, s)].queue[0].msg.Ready? then Outcome(ReadKinds(cfg, s), Continue)
    else SkipToReady(cfg, DiscardPackets(cfg, s))
  }

  /** What the log shows of errors provoked on the nodes of a mask below i. */
  function ProvokeLog(conn: seq<Conn>, mask: seq<bool>, i: nat): seq<Event>
    requires i <= |mask| == |conn|
  {
    if i == 0 then []
    else
      ProvokeLog(conn, mask, i - 1) +
      if !mask[i - 1] then [] else [Sent(i - 1, ErrorQuery)] + if DoError(conn[i - 1]).ok then [Waited(i - 1)] else []
  }

  /** do_error_command on every node of a mask, whatever comes of it. */
  function ProvokeEach(cfg: Config, s: State, mask: seq<bool>): (r: State)
    requires Sized(cfg, s) && |mask| == cfg.n
    ensures Sized(cfg, r) && r == s.(conn := r.conn, log := r.log)
  {
    s.(conn := seq(cfg.n, k requires 0 <= k < cfg.n => if mask[k] then DoError(s.conn[k]).c else s.conn[k]),
       log := s.log + ProvokeLog(s.conn, mask, cfg.n))
  }

  /** The mismatch path of ReadyForQuery: aborts the transaction on every node of the query. */
  function AbortMismatched(cfg: Config, s: State): (o: Outcome)
    requires Sized(cfg, s)
    ensures Sized(cfg, o.s)
  {
    if cfg.failoverOnMismatch || !AllReadyAlike(cfg, s) then Outcome(s, End)
    else
      var t := ReadBodies(cfg, s);
      var skipped := SkipToReady(cfg, ProvokeEach(cfg, t, ErrorMask(cfg, t, -1)));
      Outcome(if skipped.status == Continue then skipped.s.(mismatch := false) else skipped.s, skipped.status)
  }

  predicate AllReady(cfg: Config, s: State)
    requires Sized(cfg, s)
  {
    AllOpened(cfg, s) && forall i :: 0 <= i < cfg.n && Valid(cfg, s, i) ==> s.conn[i].queue[0].msg.Ready?
  }

  /** The transaction states reported by the nodes are taken over; the client sees the main node's. */
  function TakeStates(cfg: Config, s: State): (r: State)
    requires Sized(cfg, s) && AllReady(cfg, s)
    ensures Sized(cfg, r) && r.context == s.context && r.inProgress == s.inProgress
  {
    var conn := seq(cfg.n, i requires 0 <= i < cfg.n =>
      if Valid(cfg, s, i) then ReadBody(s.conn[i]).(tstate := s.conn[i].queue[0].msg.state) else s.conn[i]);
    s.(conn := conn, reported := conn[cfg.MainNode()].tstate)
  }

  function StandbyMask(cfg: Config, s: State): (m: seq<bool>)
    requires Sized(cfg, s)
    ensures |m| == cfg.n
  {
    seq(cfg.n, k requires 0 <= k < cfg.n => s.conn[k].tstate == InBlock && cfg.up[k] && k != cfg.MainNode())
  }

  /** close_standby_transactions. */
  function CloseStandby(cfg: Config, s: State, v: seq<Verdicts>): (o: Outcome)
    requires Sized(cfg, s) && |v| == cfg.n
    ensures Sized(cfg, o.s) && o.s == s.(conn := o.s.conn, log := o.s.log)
  {
    RunOn(cfg, s, CommitStandby, StandbyMask(cfg, s), v)
  }

  /** What the session knows of the transaction in progress. */
  datatype History = History(writing: bool, failed: bool, isolation: Isolation)

  function Remember(stmt: Stmt, h: History): History {
    if IsStart(stmt) then History(false, false, UnknownIsolation)
    else if SetsSerializable(stmt) then h.(isolation := Serializable)
    else if IsTwoPhase(stmt) then h
    else if !IsSelect(stmt) then h.(writing := true)
    else h
  }

  /** What the session remembers of a statement that got an answer. Two-phase commands end the primary's
      transaction, so that the others' are closed as well. */
  function NoteOutcome(cfg: Config, s: State, v: seq<Verdicts>): (o: Outcome)
    requires Sized(cfg, s) && s.context.Some? && |v| == cfg.n
    ensures Sized(cfg, o.s) && o.s.context == s.context
  {
    var stmt := s.context.value.stmt;
    var h := Remember(stmt, History(s.writing, s.failed, s.isolation));
    var t := s.(writing := h.writing, failed := h.failed, isolation := h.isolation);
    if !IsStart(stmt) && !SetsSerializable(stmt) && IsTwoPhase(stmt) then CloseStandby(cfg, t, v) else Outcome(t, Continue)
  }

  /** The closing part of ReadyForQuery: history of the transaction, then the query context goes. */
  function CloseQuery(cfg: Config, s: State, v: seq<Verdicts>): (o: Outcome)
    requires Sized(cfg, s) && |v| == cfg.n
    ensures Sized(cfg, o.s)
  {
    var noted := s.inProgress && s.commandSuccess && s.context.Some?;
    var o := if noted then NoteOutcome(cfg, s, v) else Outcome(s, Continue);
    if o.status == End then o
    else if noted && s.context.value.stmt.Prepare? then Outcome(o.s.(inProgress := false), Continue)
    else Outcome(o.s.(inProgress := false, context := None), Continue)
  }

  /** ReadyForQuery, after the kind byte has been read from every node. */
  function ReadyForQuery(cfg: Config, s: State, v: seq<Verdicts>): (o: Outcome)
    requires Sized(cfg, s) && |v| == cfg.n
    ensures Sized(cfg, o.s)
  {
    var checked := if s.mismatch then AbortMismatched(cfg, s) else Outcome(s, Continue);
    if checked.status == End then checked
    else
      var ended := EndInternal(cfg, checked.s, v);
      if ended.status == End then ended
      else if !AllReady(cfg, ended.s) then Outcome(ended.s, End)
      else CloseQuery(cfg, TakeStates(cfg, ended.s), v)
  }

  /** What becomes of a PREPARE that fails: it is listed and taken off the list again. That destroys the
      context of the query in progress, unless another statement of the name was listed before, which then
      is the one that goes. */
  function ForgetPrepare(s: State): (r: State)
    ensures r == s.(sent := r.sent, uncompleted := None, context := r.context)
    ensures r.context == s.context || r.context == None
    ensures forall p :: p in r.sent ==> p in s.sent || s.uncompleted == Some(p)
  {
    match s.uncompleted
    case None => s
    case Some(p) =>
      s.(sent := RemovePrepared(AddPrepared(s.sent, p), p.name), uncompleted := None,
         context := if p.name != "" && FindPrepared(s.sent, p.name).Some? then s.context else None)
  }

  /** What an error that has been read does to the session. */
  function NoteFailure(cfg: Config, s: State): (r: State)
    requires Sized(cfg, s)
    ensures Sized(cfg, r)
  {
    ForgetPrepare(s).(commandSuccess := true, failed := s.failed || s.conn[cfg.MainNode()].tstate != Idle)
  }

  /** ErrorResponse and what ProcessBackendResponse adds to it. */
  function ErrorResponse(cfg: Config, s: State, v: seq<Verdicts>): (o: Outcome)
    requires Sized(cfg, s) && AllOpened(cfg, s) && |v| == cfg.n
    ensures Sized(cfg, o.s)
  {
    var raised := RaiseError(cfg, ReadBodies(cfg, s), v);
    if raised.status == End then raised else Outcome(NoteFailure(cfg, raised.s), Continue)
  }

  /** ProcessBackendResponse: reads one message from every node of the query and acts on its kind. Nodes
      that disagree on the kind end the session. */
  function ProcessBackendResponse(cfg: Config, s: State, v: seq<Verdicts>): (o: Outcome)
    requires Sized(cfg, s) && |v| == cfg.n
    ensures Sized(cfg, o.s)
  {
    var m := MasterNode(cfg, s);
    if !Agree(cfg, s) then Outcome(s, End)
    else
      ReadKindsOpens(cfg, s);
      var s1 := ReadKinds(cfg, s);
      match s.conn[m].queue[0].msg
      case Ready(_) => ReadyForQuery(cfg, s1, v)
      case Error => ErrorResponse(cfg, s1, v)
      case Complete(_) => Outcome(CommandComplete(cfg, s1).(commandSuccess := true), Continue)
      case _ => Outcome(ReadBodies(cfg, s1), Continue)
  }

  /** The driving loop: answers are processed while the query is in progress. */
  function Drive(cfg: Config, s: State, v: seq<Verdicts>): (o: Outcome)
    requires Sized(cfg, s) && |v| == cfg.n
    ensures Sized(cfg, o.s)
    decreases |s.conn[MasterNode(cfg, s)].queue|
  {
    if !s.inProgress then Outcome(s, Continue)
    else
      var o := ProcessBackendResponse(cfg, s, v);
      if o.status == End || !o.s.inProgress then o
      else if |o.s.conn[MasterNode(cfg, o.s)].queue| < |s.conn[MasterNode(cfg, s)].queue| then Drive(cfg, o.s, v)
      else Outcome(o.s, End)
  }

  /** A client statement from its arrival to the session's readiness for the next. */
  function RunStatement(cfg: Config, s: State, stmt: Stmt, id: nat, noBalance: bool, asked: Isolation, v: seq<Verdicts>): (o: Outcome)
    requires Sized(cfg, s) && |v| == cfg.n
    ensures Sized(cfg, o.s)
  {
    var sentOut := SimpleQuery(cfg, s, stmt, id, noBalance, asked, v);
    if sentOut.status == End then sentOut else Drive(cfg, sentOut.s, v)
  }
}
