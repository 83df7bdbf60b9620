/** SQL statements as far as routing and transaction handling look at them, and the predicates
    pgpool classifies them with. */
module Statements {
  import opened Options
  import opened Text

  datatype TransKind =
    | BeginTx | StartTx | CommitTx | RollbackTx
    | Savepoint(name: string) | Release(name: string) | RollbackTo(name: string)
    | PrepareTx(gid: string) | CommitPrepared(gid: string) | RollbackPrepared(gid: string)

  datatype Const = IntConst(i: int) | StrConst(s: string)
  datatype DefElem = DefElem(name: string, arg: Const)
  datatype SetKind = SetValue | SetMulti | SetOther
  datatype DiscardTarget = DiscardAll | DiscardPlans | DiscardTemp

  /** What the parse tree walkers find: a call of a writing function, a system catalog, a temporary table. */
  datatype Traits = Traits(callsFunction: bool, systemCatalog: bool, tempTable: bool)

  /** leads says that the text of a SELECT begins the way is_select_query expects; transactional says
      whether an otherwise unremarkable statement is on the list of those run in an internal transaction. */
  datatype Stmt =
    | Select(into: bool, locking: bool, sequence: bool, leads: bool, traits: Traits)
    | Copy(isFrom: bool, hasFile: bool, traits: Traits)
    | Explain(ofSelect: bool, analyze: bool, traits: Traits)
    | Dml
    | Lock(mode: nat)
    | Transaction(kind: TransKind)
    | VariableSet(setKind: SetKind, name: string, args: seq<Const>, options: seq<DefElem>)
    | Discard(target: DiscardTarget)
    | Prepare(name: string, query: Stmt)
    | Execute(name: string)
    | Deallocate(which: Option<string>)
    | Index(concurrent: bool)
    | Cluster(hasTarget: bool)
    | Reindex(wholeDatabase: bool)
    | ShowPool
    | Other(transactional: bool)

  const ROW_EXCLUSIVE_LOCK: nat := 3

  predicate IsSelect(s: Stmt) {
    match s
    case Select(into, locking, _, leads, _) => !into && !locking && leads
    case Copy(isFrom, hasFile, _) => !isFrom && !hasFile
    case Explain(ofSelect, analyze, _) => ofSelect && analyze
    case _ => false
  }

  predicate IsSequence(s: Stmt) { s.Select? && s.sequence }

  predicate IsStart(s: Stmt) { s.Transaction? && (s.kind.BeginTx? || s.kind.StartTx?) }

  predicate IsCommit(s: Stmt) { s.Transaction? && (s.kind.CommitTx? || s.kind.RollbackTx?) }

  predicate IsTwoPhase(s: Stmt) {
    s.Transaction? && (s.kind.PrepareTx? || s.kind.CommitPrepared? || s.kind.RollbackPrepared?)
  }

  function TraitsOf(s: Stmt): Traits {
    if s.Select? || s.Copy? || s.Explain? then s.traits else Traits(false, false, false)
  }

  predicate TransactionWide(name: string) { name == "TRANSACTION" || name == "SESSION CHARACTERISTICS" }

  predicate SetsSerializable(s: Stmt) {
    s.VariableSet? &&
    ((s.setKind == SetValue && s.name == "transaction_isolation" &&
      exists c :: c in s.args && c.StrConst? && Lower(c.s) == "serializable") ||
     (s.setKind == SetMulti && TransactionWide(s.name) &&
      exists o :: o in s.options && (o.name == "transaction_isolation" || o.name == "default_transaction_isolation") &&
                  o.arg.StrConst? && Lower(o.arg.s) == "serializable"))
  }

  /** SET commands that turn a transaction read-write. */
  predicate SetsReadWrite(s: Stmt) {
    s.VariableSet? &&
    ((s.setKind == SetValue && s.name == "transaction_read_only" &&
      exists c :: c in s.args && (if c.StrConst? then Lower(c.s) in {"off", "f", "false"} else c.i != 0)) ||
     (s.setKind == SetMulti && TransactionWide(s.name) &&
      exists o :: o in s.options && o.name == "transaction_read_only" && o.arg == IntConst(0)))
  }

  datatype Dest = Primary | Either | Both

  /** Where a statement may go in master/slave mode. */
  function SendToWhere(s: Stmt): Dest {
    match s
    case Select(into, locking, sequence, _, _) => if into || locking || sequence then Primary else Either
    case Copy(isFrom, _, _) => if isFrom then Primary else Either
    case Lock(mode) => if mode >= ROW_EXCLUSIVE_LOCK then Primary else Both
    case VariableSet(_, _, _, _) => if SetsReadWrite(s) then Primary else Both
    case Discard(_) => Both
    case Prepare(_, query) => SendToWhere(query)
    case _ => Primary
  }

  /** Statements that are wrapped in a transaction of pgpool's own when sent to several nodes outside a block. */
  predicate NeedsInternalTransaction(s: Stmt) {
    match s
    case Index(concurrent) => !concurrent
    case Cluster(hasTarget) => hasTarget
    case Reindex(wholeDatabase) => !wholeDatabase
    case Other(transactional) => transactional
    case Explain(_, _, _) => false
    case Transaction(_) => false
    case Discard(_) => false
    case ShowPool => false
    case _ => true
  }

  /** The command tag carries a row count. An EXECUTE answers with the tag of what it executes. */
  predicate CountsRows(s: Stmt) { s.Dml? || s.Execute? }

  /** Leaves something behind on the node that runs it: everything but a plain read. */
  predicate HasEffect(s: Stmt) {
    !IsSelect(s) || TraitsOf(s).callsFunction || IsSequence(s)
  }

  // ---------------------------------------------------------------------------------------
  // Statement by statement
  // ---------------------------------------------------------------------------------------

  /** What can be read from one node alone: a SELECT without INTO, row locks and sequence functions, COPY to the
      client and EXPLAIN ANALYZE of a SELECT, in each case without a function that writes. */
  predicate ReadsOnly(s: Stmt) {
    match s
    case Select(into, locking, sequence, leads, t) => leads && !into && !locking && !sequence && !t.callsFunction
    case Copy(isFrom, hasFile, t) => !isFrom && !hasFile && !t.callsFunction
    case Explain(ofSelect, analyze, t) => ofSelect && analyze && !t.callsFunction
    case _ => false
  }

  /** Everything else leaves something behind. */
  lemma EffectIff(s: Stmt)
    ensures HasEffect(s) <==> !ReadsOnly(s)
  {
  }

  /** Statements that PostgreSQL refuses inside a transaction block, that are about the transaction itself, or
      that leave nothing to keep in step. */
  predicate StandsAlone(s: Stmt) {
    s.Transaction? || s.Discard? || s.Explain? || s.ShowPool? || s == Index(true) || s == Cluster(false) || s == Reindex(true)
  }

  lemma WrappedIff(s: Stmt)
    ensures NeedsInternalTransaction(s) <==> !StandsAlone(s) && s != Other(false)
  {
  }

  /** BEGIN and START open a block, COMMIT and ROLLBACK close it, the three two-phase commands are neither, and
      savepoint commands are none of these; nothing else is about transactions. */
  lemma TransactionKinds(k: TransKind, s: Stmt)
    ensures var t := Transaction(k);
            match k
            case BeginTx => IsStart(t) && !IsCommit(t) && !IsTwoPhase(t)
            case StartTx => IsStart(t) && !IsCommit(t) && !IsTwoPhase(t)
            case CommitTx => !IsStart(t) && IsCommit(t) && !IsTwoPhase(t)
            case RollbackTx => !IsStart(t) && IsCommit(t) && !IsTwoPhase(t)
            case PrepareTx(_) => !IsStart(t) && !IsCommit(t) && IsTwoPhase(t)
            case CommitPrepared(_) => !IsStart(t) && !IsCommit(t) && IsTwoPhase(t)
            case RollbackPrepared(_) => !IsStart(t) && !IsCommit(t) && IsTwoPhase(t)
            case _ => !IsStart(t) && !IsCommit(t) && !IsTwoPhase(t)
    ensures IsStart(s) || IsCommit(s) || IsTwoPhase(s) ==> s.Transaction?
  {
  }

  /** SET transaction_read_only makes transactions read-write with a word for false, in any case, or a number
      other than 0; SET TRANSACTION and SET SESSION CHARACTERISTICS do with that option set to 0. */
  lemma ReadWriteIff(kind: SetKind, name: string, args: seq<Const>, options: seq<DefElem>)
    ensures var s := VariableSet(kind, name, args, options);
            SetsReadWrite(s) <==>
            (kind == SetValue && name == "transaction_read_only" && exists i :: 0 <= i < |args| && TurnsOff(args[i])) ||
            (kind == SetMulti && name in {"TRANSACTION", "SESSION CHARACTERISTICS"} &&
             exists i :: 0 <= i < |options| && options[i] == DefElem("transaction_read_only", IntConst(0)))
  {
    forall w: string ensures Lower(w) in {"off", "f", "false"} <==> TurnsOff(StrConst(w)) { OffWords(w); }
    hide Lower, SameText;
  }

  predicate TurnsOff(c: Const) {
    match c
    case IntConst(i) => i != 0
    case StrConst(w) => SameText(w, "off") || SameText(w, "f") || SameText(w, "false")
  }

  lemma OffWords(w: string)
    ensures Lower(w) in {"off", "f", "false"} <==> SameText(w, "off") || SameText(w, "f") || SameText(w, "false")
  {
    LowerIff(w, "off");
    LowerIff(w, "f");
    LowerIff(w, "false");
    assert Lower("off") == "off" && Lower("f") == "f" && Lower("false") == "false";
    hide Lower, SameText;
  }

  /** The isolation level is set to serializable by the word, in any case, as transaction_isolation or in SET
      TRANSACTION and SET SESSION CHARACTERISTICS. */
  lemma SerializableIff(kind: SetKind, name: string, args: seq<Const>, options: seq<DefElem>)
    ensures var s := VariableSet(kind, name, args, options);
            SetsSerializable(s) <==>
            (kind == SetValue && name == "transaction_isolation" &&
             exists i :: 0 <= i < |args| && args[i].StrConst? && SameText(args[i].s, "serializable")) ||
            (kind == SetMulti && name in {"TRANSACTION", "SESSION CHARACTERISTICS"} &&
             exists i :: 0 <= i < |options| && options[i].name in {"transaction_isolation", "default_transaction_isolation"} &&
                         options[i].arg.StrConst? && SameText(options[i].arg.s, "serializable"))
  {
    forall w: string ensures Lower(w) == "serializable" <==> SameText(w, "serializable") {
      LowerIff(w, "serializable");
      assert Lower("serializable") == "serializable";
    }
    hide Lower, SameText;
  }
}
