/** When replicated nodes in lockstep amount to one server that has been given the client's statements,
    all of them and nothing else. */
module SingleServer {
  import opened Options
  import opened Statements
  import opened Postgres
  import opened SessionModel
  import opened StatementBoundary
  import opened Lockstep
  import opened Evolution
  import opened Mismatch

  /** A single server that is given all of the client's statements. */
  function ServeAll(b: Remote, steps: seq<Step>, ws: seq<Verdicts>): Remote
    requires |ws| == |steps|
    decreases |steps|
  {
    if steps == [] then b
    else ServeAll(Alone(b, steps[0].stmt, steps[0].id, ws[0].main), steps[1..], ws[1..])
  }

  /** The nodes accept some statement and refuse the commit of pgpool's own transaction around it. */
  predicate SomeUndone(cfg: Config, b: Remote, steps: seq<Step>, ws: seq<Verdicts>)
    requires |ws| == |steps|
    decreases |steps|
  {
    steps != [] &&
    (Undone(cfg, b, steps[0].stmt, ws[0]) || SomeUndone(cfg, Remains(cfg, b, steps[0], ws[0]), steps[1..], ws[1..]))
  }

  /** The statements' effects can be told apart, and from what is there before. */
  ghost predicate Distinct(b: Remote, steps: seq<Step>) {
    (forall i :: 0 <= i < |steps| ==> Fresh(steps[i].id, b)) &&
    forall i, j :: 0 <= i < j < |steps| ==> steps[i].id != steps[j].id
  }

  lemma AloneKeeps(id: nat, b: Remote, p: Step, a: Answer)
    requires p.id != id
    ensures Fresh(id, b) ==> Fresh(id, Alone(b, p.stmt, p.id, a))
    ensures id in b.committed ==> id in Alone(b, p.stmt, p.id, a).committed
  {
    RespondKeeps(id, b, Client(p.stmt, p.id), a);
    if id in b.committed { CommittedStays(b, p.stmt, p.id, a, id); }
    hide Respond, Fresh;
  }

  lemma CommittedStays(b: Remote, stmt: Stmt, id': nat, a: Answer, id: nat)
    requires id in b.committed
    ensures id in Respond(b, Client(stmt, id'), a).remote.committed
  {
    hide LastSave, HasEffect;
  }

  /** What one of them has committed and the other knows nothing of keeps them apart. */
  lemma {:induction false} StayApart(cfg: Config, id: nat, x: Remote, y: Remote, steps: seq<Step>, ws: seq<Verdicts>)
    requires |ws| == |steps| && Fresh(id, x) && id in y.committed && forall i :: 0 <= i < |steps| ==> steps[i].id != id
    ensures ServeKept(cfg, x, steps, ws) != ServeAll(y, steps, ws)
    decreases |steps|
  {
    if steps != [] {
      var p, w := steps[0], ws[0];
      AloneKeeps(id, x, p, w.main);
      AloneKeeps(id, y, p, w.main);
      hide Fresh, Alone, Undone;
      StayApart(cfg, id, Remains(cfg, x, p, w), Alone(y, p.stmt, p.id, w.main), steps[1..], ws[1..]);
    }
  }

  lemma UndoneIsMissed(cfg: Config, b: Remote, p: Step, w: Verdicts)
    requires Undone(cfg, b, p.stmt, w)
    ensures p.id in Alone(b, p.stmt, p.id, w.main).committed
  {
    hide SeveralLive;
  }

  lemma {:induction false} ServesAllIff(cfg: Config, b: Remote, steps: seq<Step>, ws: seq<Verdicts>)
    requires |ws| == |steps| && Distinct(b, steps)
    ensures ServeKept(cfg, b, steps, ws) == ServeAll(b, steps, ws) <==> !SomeUndone(cfg, b, steps, ws)
    decreases |steps|
  {
    if steps != [] {
      var p, w := steps[0], ws[0];
      var alone := Alone(b, p.stmt, p.id, w.main);
      if Undone(cfg, b, p.stmt, w) {
        UndoneIsMissed(cfg, b, p, w);
        hide Fresh, Alone, Undone;
        StayApart(cfg, p.id, b, alone, steps[1..], ws[1..]);
      } else {
        forall i | 1 <= i < |steps| ensures Fresh(steps[i].id, alone) { AloneKeeps(steps[i].id, b, p, w.main); }
        hide Fresh, Alone, Undone;
        ServesAllIff(cfg, alone, steps[1..], ws[1..]);
      }
    }
  }

  lemma OneState(cfg: Config, s: State, e: Remote, e': Remote)
    requires Synced(cfg, s, e) && Synced(cfg, s, e')
    ensures e == e'
  {
    assert s.conn[cfg.realMaster] == Rest(e) && s.conn[cfg.realMaster] == Rest(e');
  }

  /** Over every run of statements answered alike, the live nodes end up where a single server would that has
      been given all of the client's statements, exactly if they have undone none of them. */
  lemma RunsAsOneServerIff(cfg: Config, s: State, b: Remote, steps: seq<Step>, ws: seq<Verdicts>)
    requires Synced(cfg, s, b) && SizedSteps(cfg, steps) && StepsAlike(cfg, steps, ws) && Distinct(b, steps)
    ensures Synced(cfg, RunAll(cfg, s, steps).s, ServeAll(b, steps, ws)) <==> !SomeUndone(cfg, b, steps, ws)
  {
    assert Sized(cfg, s);
    hide Synced, Distinct, RunAll, ServeAll, ServeKept, SomeUndone;
    RunsInLockstep(cfg, s, b, steps, ws);
    ServesAllIff(cfg, b, steps, ws);
    if Synced(cfg, RunAll(cfg, s, steps).s, ServeAll(b, steps, ws)) {
      OneState(cfg, RunAll(cfg, s, steps).s, ServeAll(b, steps, ws), ServeKept(cfg, b, steps, ws));
    }
  }
}
