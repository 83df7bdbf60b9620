/** A database node as the other end of a connection: its transaction, what it has committed, and
    the messages with which it answers a query. */
module Postgres {
  import opened Statements

  datatype TState = Idle | InBlock | Failed

  /** A query on the wire. id names the client statement, so that its effect can be told apart. */
  datatype Query = Client(stmt: Stmt, id: nat) | Begin | Commit | ErrorQuery

  /** The node's verdict on a query, where it has a choice: Empty is its answer to a text without a
      statement, which pgpool takes for a DELETE; Lost is a connection that breaks. */
  datatype Answer = Accept(rows: int, rowMsgs: nat) | Reject | Empty | Lost

  datatype Msg = Row | Notice | Complete(rows: int) | Error | EmptyQuery | Ready(state: TState)

  datatype Save = Save(name: string, pending: seq<nat>)

  /** uncommitted and committed hold the ids of the statements whose effects are pending and durable;
      a savepoint remembers which effects were pending when it was set. */
  datatype Remote = Remote(state: TState, uncommitted: seq<nat>, committed: seq<nat>, saves: seq<Save>,
                           prepared: map<string, seq<nat>>)
  {
    function Abort(): Remote { this.(state := Idle, uncommitted := [], saves := []) }
    function Fail(): Remote { if state == Idle then this else this.(state := Failed) }
    function Durable(): Remote { this.(state := Idle, uncommitted := [], saves := [], committed := committed + uncommitted) }
  }

  datatype Response = Response(remote: Remote, msgs: seq<Msg>)

  function Refuse(b: Remote): Response { Response(b, [Error, Ready(b.state)]) }
  function Done(b: Remote): Response { Response(b, [Complete(0), Ready(b.state)]) }
  function DoneWithNotice(b: Remote): Response { Response(b, [Notice, Complete(0), Ready(b.state)]) }

  function Rows(k: nat): seq<Msg> { seq(k, _ => Row) }

  function LastSave(saves: seq<Save>, name: string): (i: int)
    ensures -1 <= i < |saves| && (i >= 0 ==> saves[i].name == name)
  {
    if saves == [] then -1
    else if saves[|saves| - 1].name == name then |saves| - 1
    else LastSave(saves[..|saves| - 1], name)
  }

  function RespondBegin(b: Remote): Response {
    match b.state
    case Idle => Done(b.(state := InBlock))
    case InBlock => DoneWithNotice(b)
    case Failed => Refuse(b)
  }

  function RespondCommit(b: Remote, a: Answer): Response {
    match b.state
    case Idle => DoneWithNotice(b)
    case InBlock => if a.Reject? then Refuse(b.Abort()) else Done(b.Durable())
    case Failed => Done(b.Abort())
  }

  function RespondTransaction(b: Remote, k: TransKind, a: Answer): Response {
    match k
    case BeginTx => RespondBegin(b)
    case StartTx => RespondBegin(b)
    case CommitTx => RespondCommit(b, a)
    case RollbackTx => if b.state == Idle then DoneWithNotice(b) else Done(b.Abort())
    case Savepoint(name) =>
      if b.state != InBlock || a.Reject? then Refuse(b.Fail())
      else Done(b.(saves := b.saves + [Save(name, b.uncommitted)]))
    case Release(name) =>
      var i := LastSave(b.saves, name);
      if b.state != InBlock || i < 0 then Refuse(b.Fail()) else Done(b.(saves := b.saves[..i]))
    case RollbackTo(name) =>
      var i := LastSave(b.saves, name);
      if b.state == Idle || i < 0 then Refuse(b.Fail())
      else Done(b.(state := InBlock, uncommitted := b.saves[i].pending, saves := b.saves[..i + 1]))
    case PrepareTx(gid) =>
      if b.state == Idle then DoneWithNotice(b)
      else if b.state == Failed then Done(b.Abort())
      else if a.Reject? then Refuse(b.Abort())
      else Done(b.Abort().(prepared := b.prepared[gid := b.uncommitted]))
    case CommitPrepared(gid) =>
      if b.state != Idle || a.Reject? || gid !in b.prepared then Refuse(b.Fail())
      else Done(b.(committed := b.committed + b.prepared[gid], prepared := b.prepared - {gid}))
    case RollbackPrepared(gid) =>
      if b.state != Idle || a.Reject? || gid !in b.prepared then Refuse(b.Fail())
      else Done(b.(prepared := b.prepared - {gid}))
  }

  function RespondOrdinary(b: Remote, s: Stmt, id: nat, a: Answer): Response {
    if b.state == Failed || !a.Accept? then Refuse(b.Fail())
    else
      var effect := if HasEffect(s) then [id] else [];
      var b' := if b.state == Idle then b.(committed := b.committed + effect) else b.(uncommitted := b.uncommitted + effect);
      Response(b', Rows(a.rowMsgs) + [Complete(if CountsRows(s) then a.rows else 0), Ready(b'.state)])
  }

  /** How a node answers. A broken connection answers nothing, and the node rolls back. */
  function Respond(b: Remote, q: Query, a: Answer): Response {
    if a.Lost? then Response(b.Abort(), [])
    else
      match q
      case Begin => RespondBegin(b)
      case Commit => RespondCommit(b, a)
      case ErrorQuery => Refuse(b.Fail())
      case Client(s, id) =>
        if a.Empty? && s.Dml? then Response(b, [EmptyQuery, Ready(b.state)])
        else if s.Transaction? then RespondTransaction(b, s.kind, a)
        else RespondOrdinary(b, s, id, a)
  }

  /** An answer consists of rows and notices, one message that ends the command, and the readiness
      message that reports the transaction state. */
  ghost predicate AnswerShape(b: Remote, msgs: seq<Msg>) {
    |msgs| >= 2 && msgs[|msgs| - 1] == Ready(b.state) &&
    (msgs[|msgs| - 2].Complete? || msgs[|msgs| - 2].Error? || msgs[|msgs| - 2].EmptyQuery?) &&
    forall i :: 0 <= i < |msgs| - 2 ==> msgs[i] == Row || msgs[i] == Notice
  }

  lemma ShortShape(r: Response)
    requires r.msgs == [Error, Ready(r.remote.state)] || r.msgs == [Complete(0), Ready(r.remote.state)] ||
             r.msgs == [Notice, Complete(0), Ready(r.remote.state)] || r.msgs == [EmptyQuery, Ready(r.remote.state)]
    ensures AnswerShape(r.remote, r.msgs)
  {
  }

  lemma OrdinaryShape(b: Remote, s: Stmt, id: nat, a: Answer)
    ensures AnswerShape(RespondOrdinary(b, s, id, a).remote, RespondOrdinary(b, s, id, a).msgs)
  {
    if b.state == Failed || !a.Accept? {
      ShortShape(Refuse(b.Fail()));
    }
  }

  lemma TransactionShape(b: Remote, k: TransKind, a: Answer)
    ensures AnswerShape(RespondTransaction(b, k, a).remote, RespondTransaction(b, k, a).msgs)
  {
    hide AnswerShape, LastSave;
    ShortShape(RespondTransaction(b, k, a));
  }

  lemma RespondShape(b: Remote, q: Query, a: Answer)
    requires !a.Lost?
    ensures AnswerShape(Respond(b, q, a).remote, Respond(b, q, a).msgs)
  {
    hide AnswerShape;
    match q
    case Client(s, id) =>
      if a.Empty? && s.Dml? { ShortShape(Respond(b, q, a)); }
      else if s.Transaction? { TransactionShape(b, s.kind, a); }
      else { OrdinaryShape(b, s, id, a); }
    case _ => ShortShape(Respond(b, q, a));
  }

  /** Nothing is pending outside a block. */
  ghost predicate Sound(b: Remote) {
    b.state == Idle ==> b.uncommitted == [] && b.saves == []
  }

  lemma RespondSound(b: Remote, q: Query, a: Answer)
    requires Sound(b)
    ensures Sound(Respond(b, q, a).remote)
  {
  }

  /** Running a statement that stands alone, or inside a transaction opened and committed around it,
      comes to the same, as long as the commit is not refused. */
  lemma AutocommitIsTransaction(b: Remote, s: Stmt, id: nat, a: Answer, c: Answer)
    requires Sound(b) && b.state == Idle && !s.Transaction? && !a.Lost? && !c.Lost? && !c.Reject?
    ensures var r := Respond(Respond(b, Begin, c).remote, Client(s, id), a).remote;
            Respond(r, Commit, c).remote == Respond(b, Client(s, id), a).remote
  {
  }

  // ---------------------------------------------------------------------------------------
  // Statements in a row
  // ---------------------------------------------------------------------------------------

  /** The node after a transaction command that it accepts. */
  function Tx(b: Remote, k: TransKind): Remote { Respond(b, Client(Transaction(k), 0), Accept(0, 0)).remote }

  /** A block that is rolled back leaves nothing of its statements, whether they were accepted or refused. */
  lemma RolledBack(b: Remote, s: Stmt, id: nat, a: Answer)
    requires Sound(b) && b.state == Idle && !s.Transaction? && !a.Lost?
    ensures Tx(Respond(Tx(b, BeginTx), Client(s, id), a).remote, RollbackTx) == b
  {
  }

  /** Rolling back to a savepoint undoes what has happened since, a failure included, and keeps the savepoint;
      releasing it keeps what has happened. */
  lemma SavepointUndoes(b: Remote, name: string, s: Stmt, id: nat, a: Answer)
    requires b.state == InBlock && !s.Transaction? && !a.Lost?
    ensures var saved := Tx(b, Savepoint(name));
            saved.uncommitted == b.uncommitted && Tx(Respond(saved, Client(s, id), a).remote, RollbackTo(name)) == saved
    ensures var later := Respond(Tx(b, Savepoint(name)), Client(s, id), a).remote;
            later.state == InBlock ==> Tx(later, Release(name)) == later.(saves := b.saves)
  {
    var saves := b.saves + [Save(name, b.uncommitted)];
    assert saves[..|saves|] == saves && saves[..|saves| - 1] == b.saves;
    hide IsSelect;
  }

  /** The youngest savepoint of a name counts, and rolling back to it drops the younger ones. */
  lemma {:induction false} YoungestSavepoint(older: seq<Save>, name: string, pending: seq<nat>, younger: seq<Save>)
    requires forall i :: 0 <= i < |younger| ==> younger[i].name != name
    ensures LastSave(older + [Save(name, pending)] + younger, name) == |older|
  {
    var all := older + [Save(name, pending)] + younger;
    if younger != [] {
      var n := |younger| - 1;
      YoungestSavepoint(older, name, pending, younger[..n]);
      assert all[..|all| - 1] == older + [Save(name, pending)] + younger[..n];
      assert all[|all| - 1] == younger[n];
    }
  }

  /** A prepared transaction is durable from COMMIT PREPARED on, and gone after ROLLBACK PREPARED. */
  lemma TwoPhases(b: Remote, gid: string)
    requires b.state == InBlock && gid !in b.prepared
    ensures var p := Tx(b, PrepareTx(gid));
            p.state == Idle && p.committed == b.committed && p.uncommitted == [] &&
            Tx(p, CommitPrepared(gid)) == b.(state := Idle, uncommitted := [], saves := [], committed := b.committed + b.uncommitted) &&
            Tx(p, RollbackPrepared(gid)) == b.(state := Idle, uncommitted := [], saves := [])
  {
    assert b.prepared[gid := b.uncommitted] - {gid} == b.prepared;
  }

  /** A completion carries a row count for INSERT, UPDATE, DELETE and EXECUTE only. */
  lemma CompletionCounts(b: Remote, s: Stmt, id: nat, rows: int, rowMsgs: nat)
    requires b.state != Failed && !s.Transaction?
    ensures var m := Respond(b, Client(s, id), Accept(rows, rowMsgs)).msgs;
            |m| >= 2 && m[|m| - 2] == Complete(if s.Dml? || s.Execute? then rows else 0)
  {
  }

  /** A failed block takes nothing in and keeps nothing, whatever is sent before its end. */
  lemma FailedKeepsNothing(b: Remote, s: Stmt, id: nat, a: Answer)
    requires b.state == Failed && !a.Lost? && !s.Transaction?
    ensures Respond(b, Client(s, id), a).remote == b
    ensures Tx(b, CommitTx) == Tx(b, RollbackTx) == b.(state := Idle, uncommitted := [], saves := [])
  {
  }
}
