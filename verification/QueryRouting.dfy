/** Where a statement goes, told by the outcome: which statements reach a standby, which every node, which the
    primary alone, in every mode and state. */
module QueryRouting {
  import opened Options
  import opened Text
  import opened Statements
  import opened Postgres
  import opened SessionModel
  import opened Framing
  import opened StatementBoundary

  /** A statement that reads only, and whose result does not depend on the node it is read from. */
  predicate ReadsAnywhere(stmt: Stmt) {
    match stmt
    case Select(into, locking, sequence, leads, t) =>
      leads && !into && !locking && !sequence && !t.callsFunction && !t.systemCatalog && !t.tempTable
    case Copy(isFrom, hasFile, t) => !isFrom && !hasFile && !t.callsFunction && !t.systemCatalog && !t.tempTable
    case _ => false
  }

  /** A statement that changes the session on a node, so that every node has to have it: SET unless it makes
      transactions read-write, DISCARD, LOCK in a mode that does not conflict with itself, and PREPARE of these. */
  predicate ForEveryNode(stmt: Stmt) {
    match stmt
    case VariableSet(_, _, _, _) => !SetsReadWrite(stmt)
    case Discard(_) => true
    case Lock(mode) => mode <= 2
    case Prepare(_, query) => ForEveryNode(query)
    case _ => false
  }

  /** The targets are node i and no other. */
  ghost predicate Just(where: seq<bool>, i: int) {
    0 <= i < |where| && forall k :: 0 <= k < |where| ==> (where[k] <==> k == i)
  }

  ghost predicate AreLive(cfg: Config, where: seq<bool>) {
    |where| == |cfg.live| && forall k :: 0 <= k < |where| ==> (where[k] <==> cfg.live[k])
  }

  /** The primary is outside a block, or in one that has not written or failed so far and is not serializable. */
  predicate MayLeavePrimary(cfg: Config, s: State, asked: Isolation)
    requires Sized(cfg, s)
  {
    var level := if s.isolation == UnknownIsolation then asked else s.isolation;
    s.conn[cfg.PrimaryNode()].tstate == Idle || (!s.writing && !s.failed && level != Serializable)
  }

  lemma ForEveryNodeIs(stmt: Stmt)
    ensures SendToWhere(stmt) == Both <==> ForEveryNode(stmt)
  {
  }

  /** Master/slave: a statement goes to the load balance node if it reads only and the primary need not be
      asked, to every live node if it is meant for all of them, and to the primary otherwise. */
  lemma MasterSlaveTargets(cfg: Config, s: State, p: Step)
    requires cfg.WellFormed() && Sized(cfg, s) && cfg.mode == MasterSlave && !p.noBalance
    requires !p.stmt.Execute? && !p.stmt.Deallocate?
    ensures var balanced := ReadsAnywhere(p.stmt) && cfg.loadBalance && !cfg.delayed && MayLeavePrimary(cfg, s, p.asked);
            if balanced then Just(RoutedTo(cfg, s, p), cfg.lbNode)
            else if ForEveryNode(p.stmt) then AreLive(cfg, RoutedTo(cfg, s, p))
            else Just(RoutedTo(cfg, s, p), cfg.PrimaryNode())
  {
    ForEveryNodeIs(p.stmt);
    hide FirstTarget, ForEveryNode;
  }

  /** Replication: a read goes to one node, the load balance node if the session is idle and the master
      otherwise, and every other statement to every live node. */
  lemma ReplicationTargets(cfg: Config, s: State, p: Step)
    requires cfg.WellFormed() && Sized(cfg, s) && cfg.mode == Replication && !p.noBalance
    requires !p.stmt.Execute? && !p.stmt.Deallocate?
    ensures if !ReadsOnly(p.stmt) || cfg.replicateSelect then AreLive(cfg, RoutedTo(cfg, s, p))
            else if cfg.loadBalance && s.conn[cfg.realMaster].tstate == Idle then Just(RoutedTo(cfg, s, p), cfg.lbNode)
            else Just(RoutedTo(cfg, s, p), cfg.realMaster)
  {
    hide FirstTarget;
  }

  /** With a NO LOAD BALANCE comment any statement goes to the primary, or to the master where there is none;
      in raw mode to the master. */
  lemma OneNodeTargets(cfg: Config, s: State, p: Step)
    requires cfg.WellFormed() && Sized(cfg, s)
    requires p.noBalance || (cfg.mode == Raw && !p.stmt.Execute? && !p.stmt.Deallocate?)
    ensures Just(RoutedTo(cfg, s, p), if cfg.mode == MasterSlave && cfg.primaryId >= 0 then cfg.primaryId else cfg.realMaster)
  {
    hide FirstTarget;
  }

  /** The first statement of that name in the list. */
  ghost predicate IsListed(sent: seq<Prepared>, name: string, i: nat) {
    i < |sent| && sent[i].name == name && forall k :: 0 <= k < i ==> sent[k].name != name
  }

  lemma {:induction false} FindIs(sent: seq<Prepared>, name: string)
    ensures forall i: nat :: IsListed(sent, name, i) ==> FindPrepared(sent, name) == Some(sent[i])
    ensures (forall k :: 0 <= k < |sent| ==> sent[k].name != name) ==> FindPrepared(sent, name) == None
  {
    if sent != [] && sent[0].name != name {
      FindIs(sent[1..], name);
      forall i: nat | IsListed(sent, name, i) ensures FindPrepared(sent, name) == Some(sent[i]) {
        assert IsListed(sent[1..], name, i - 1);
      }
      if forall k :: 0 <= k < |sent| ==> sent[k].name != name {
        assert forall k :: 0 <= k < |sent[1..]| ==> sent[1..][k] == sent[k + 1];
      }
    }
  }

  /** EXECUTE and DEALLOCATE of a listed statement go to the nodes that were given its PREPARE, in every
      mode. */
  lemma PreparedTargets(cfg: Config, s: State, p: Step, i: nat)
    requires Sized(cfg, s) && !p.noBalance
    requires p.stmt.Execute? || (p.stmt.Deallocate? && p.stmt.which.Some?)
    requires IsListed(s.sent, if p.stmt.Execute? then p.stmt.name else p.stmt.which.value, i)
    ensures RoutedTo(cfg, s, p) == s.sent[i].where
  {
    FindIs(s.sent, if p.stmt.Execute? then p.stmt.name else p.stmt.which.value);
    hide FirstTarget, Route, FindPrepared;
  }

  /** Of a statement that is not listed, they go to the primary in master/slave mode, to every live node in
      replication mode; DEALLOCATE ALL goes to every live node. */
  lemma UnlistedTargets(cfg: Config, s: State, p: Step)
    requires cfg.WellFormed() && Sized(cfg, s) && !p.noBalance && cfg.mode != Raw
    requires p.stmt.Execute? || p.stmt.Deallocate?
    requires forall q :: q in s.sent ==>
               q.name != if p.stmt.Execute? then p.stmt.name else if p.stmt.which.Some? then p.stmt.which.value else q.name + "."
    ensures if cfg.mode == Replication || p.stmt == Deallocate(None) then AreLive(cfg, RoutedTo(cfg, s, p))
            else Just(RoutedTo(cfg, s, p), cfg.PrimaryNode())
  {
    if p.stmt != Deallocate(None) {
      FindIs(s.sent, if p.stmt.Execute? then p.stmt.name else p.stmt.which.value);
    }
    hide FirstTarget, FindPrepared;
  }

  /** Routing asks for the isolation level only if a read could be balanced but for it, and notes the answer;
      it changes nothing else but the query in progress. */
  lemma RoutingKeeps(cfg: Config, s: State, p: Step)
    requires cfg.WellFormed() && Sized(cfg, s)
    ensures var t := WhereToSend(cfg, StartQuery(cfg, s, p.stmt, p.id), p.noBalance, p.asked);
            var asks := cfg.mode == MasterSlave && !p.noBalance && cfg.loadBalance && s.isolation == UnknownIsolation &&
                        (match p.stmt
                         case Select(into, locking, sequence, leads, _) => leads && !into && !locking && !sequence
                         case Copy(isFrom, hasFile, _) => !isFrom && !hasFile
                         case _ => false) &&
                        s.conn[cfg.PrimaryNode()].tstate != Idle && !s.writing && !s.failed;
            t == s.(context := t.context, inProgress := true, isolation := if asks then p.asked else s.isolation)
  {
    hide FirstTarget, FollowPrepare;
  }
}
