/** Facts about loops over nodes and about one exchange with one node. */
module Batches {
  import opened Options
  import opened Statements
  import opened Postgres
  import opened SessionModel

  ghost predicate Ascending(nodes: seq<nat>) {
    forall a, b :: 0 <= a < b < |nodes| ==> nodes[a] < nodes[b]
  }

  ghost predicate AllSucceed(action: Action, conn: seq<Conn>, nodes: seq<nat>, v: seq<Verdicts>)
    requires |v| == |conn| && forall k :: 0 <= k < |nodes| ==> nodes[k] < |conn|
  {
    forall a :: 0 <= a < |nodes| ==> Act(action, conn[nodes[a]], v[nodes[a]]).ok
  }

  /** Each node is sent the query and waited for before the next one's turn. */
  function InTurn(nodes: seq<nat>, q: Query): seq<Event> {
    if nodes == [] then [] else [Sent(nodes[0], q), Waited(nodes[0])] + InTurn(nodes[1..], q)
  }

  /** A loop over distinct nodes acts on each of them as it was before the loop, and succeeds when the
      action does on every node. */
  lemma {:induction false} BatchSucceeds(action: Action, conn: seq<Conn>, nodes: seq<nat>, v: seq<Verdicts>)
    requires |v| == |conn| && (forall k :: 0 <= k < |nodes| ==> nodes[k] < |conn|) && Ascending(nodes)
    ensures var r := RunBatch(action, conn, nodes, v);
            (r.ok <==> AllSucceed(action, conn, nodes, v)) &&
            (r.ok ==> r.log == InTurn(nodes, QueryOf(action)) &&
                      forall k :: 0 <= k < |conn| ==> r.conn[k] == if k in nodes then Act(action, conn[k], v[k]).c else conn[k])
    decreases |nodes|
  {
    hide Act;
    if nodes != [] {
      var i := nodes[0];
      var x := Act(action, conn[i], v[i]);
      if x.ok {
        var t := conn[i := x.c];
        assert Ascending(nodes[1..]);
        BatchSucceeds(action, t, nodes[1..], v);
        assert forall a :: 0 <= a < |nodes[1..]| ==> nodes[1..][a] == nodes[a + 1] && t[nodes[a + 1]] == conn[nodes[a + 1]];
        assert forall k :: k in nodes <==> k == i || k in nodes[1..];
        assert i !in nodes[1..];
        if AllSucceed(action, t, nodes[1..], v) {
          forall a | 0 <= a < |nodes| ensures Act(action, conn[nodes[a]], v[nodes[a]]).ok {
            if a > 0 { assert Act(action, t[nodes[1..][a - 1]], v[nodes[1..][a - 1]]).ok; }
          }
        }
      }
    }
  }

  /** Whether it succeeds or not, every node is as it was or has been acted on once, and nothing is
      sent to a node outside the loop. */
  lemma {:induction false} BatchTouches(action: Action, conn: seq<Conn>, nodes: seq<nat>, v: seq<Verdicts>)
    requires |v| == |conn| && (forall k :: 0 <= k < |nodes| ==> nodes[k] < |conn|) && Ascending(nodes)
    ensures var r := RunBatch(action, conn, nodes, v);
            (forall k :: 0 <= k < |conn| ==> r.conn[k] == conn[k] || (k in nodes && r.conn[k] == Act(action, conn[k], v[k]).c)) &&
            forall e :: e in r.log ==> e.node in nodes
    decreases |nodes|
  {
    hide Act;
    if nodes != [] {
      var i := nodes[0];
      var x := Act(action, conn[i], v[i]);
      if x.ok {
        var t := conn[i := x.c];
        assert Ascending(nodes[1..]);
        BatchTouches(action, t, nodes[1..], v);
        assert forall k :: k in nodes <==> k == i || k in nodes[1..];
        assert i !in nodes[1..];
      }
    }
  }

  /** RunOn, node by node, when it succeeds. */
  lemma RunOnSucceeds(cfg: Config, s: State, action: Action, mask: seq<bool>, v: seq<Verdicts>)
    requires Sized(cfg, s) && |mask| == |v| == cfg.n
    ensures var o := RunOn(cfg, s, action, mask, v);
            (o.status == Continue <==> forall k :: 0 <= k < cfg.n && mask[k] ==> Act(action, s.conn[k], v[k]).ok) &&
            (o.status == Continue ==>
               o.s.log == s.log + InTurn(Chosen(mask), QueryOf(action)) &&
               forall k :: 0 <= k < cfg.n ==> o.s.conn[k] == if mask[k] then Act(action, s.conn[k], v[k]).c else s.conn[k])
  {
    hide Act;
    ChosenAre(mask);
    var nodes := Chosen(mask);
    BatchSucceeds(action, s.conn, nodes, v);
    if AllSucceed(action, s.conn, nodes, v) {
      forall k | 0 <= k < cfg.n && mask[k] ensures Act(action, s.conn[k], v[k]).ok {
        var a :| 0 <= a < |nodes| && nodes[a] == k;
      }
    } else {
      var a :| 0 <= a < |nodes| && !Act(action, s.conn[nodes[a]], v[nodes[a]]).ok;
      assert nodes[a] in nodes;
    }
  }

  /** RunOn, node by node, whether it succeeds or not. */
  lemma RunOnTouches(cfg: Config, s: State, action: Action, mask: seq<bool>, v: seq<Verdicts>)
    requires Sized(cfg, s) && |mask| == |v| == cfg.n
    ensures var o := RunOn(cfg, s, action, mask, v);
            forall k :: 0 <= k < cfg.n ==>
              o.s.conn[k] == s.conn[k] || (mask[k] && o.s.conn[k] == Act(action, s.conn[k], v[k]).c)
    ensures var o := RunOn(cfg, s, action, mask, v);
            exists tail :: o.s.log == s.log + tail && forall e :: e in tail ==> e.node < cfg.n && mask[e.node]
  {
    hide Act;
    ChosenAre(mask);
    var nodes := Chosen(mask);
    BatchTouches(action, s.conn, nodes, v);
    assert RunOn(cfg, s, action, mask, v).s.log == s.log + RunBatch(action, s.conn, nodes, v).log;
  }

  // ---------------------------------------------------------------------------------------
  // One node
  // ---------------------------------------------------------------------------------------

  /** Nothing unread, and the connection knows the node's transaction state. */
  ghost predicate Quiet(c: Conn) {
    c.queue == [] && c.tstate == c.remote.state && !c.internal
  }

  /** Exactly the readiness message for the node's current state is unread. */
  ghost predicate AtReady(c: Conn, begun: bool) {
    c.queue == [Packet(Ready(c.remote.state), begun)]
  }

  lemma OpenInternalActs(c: Conn, v: Verdicts)
    requires Quiet(c) && c.tstate == Idle
    ensures var x := Act(OpenInternal, c, v);
            (x.ok <==> !v.begin.Lost?) &&
            (x.ok ==> x.c == Conn(c.remote.(state := InBlock), [], InBlock, true))
  {
    if !v.begin.Lost? {
      var r := Respond(c.remote, Begin, v.begin);
      assert r.msgs == [Complete(0), Ready(InBlock)];
      var q := c.queue + Wrap(r.msgs);
      assert q == [Packet(Complete(0), false), Packet(Ready(InBlock), false)];
      var last := [Packet(Ready(InBlock), false)];
      assert q[1..] == last && last[0 := Packet(Ready(InBlock), true)] == [Packet(Ready(InBlock), true)];
      assert DrainToReady(q) == DrainToReady(q[1..]) == Some([Packet(Ready(InBlock), true)]);
    }
  }

  lemma ProvokeActs(c: Conn, v: Verdicts)
    requires c.queue == [] || AtReady(c, false)
    ensures var x := Act(Provoke, c, v);
            x.ok && x.c == c.(remote := c.remote.Fail(), queue := [Packet(Ready(c.remote.Fail().state), false)])
  {
    var b := c.remote.Fail();
    assert Respond(c.remote, ErrorQuery, Reject).msgs == [Error, Ready(b.state)];
    var tail := [Packet(Ready(b.state), false)];
    var q := c.queue + Wrap([Error, Ready(b.state)]);
    if c.queue == [] {
      assert q == [Packet(Error, false)] + tail && q[1..] == tail;
    } else {
      assert q == c.queue + [Packet(Error, false)] + tail;
      assert q[1..] == [Packet(Error, false)] + tail && q[1..][1..] == tail;
      assert DrainError(q) == DrainError(q[1..]);
    }
  }

  lemma CommitAnswer(b: Remote, a: Answer)
    requires !a.Lost?
    ensures var r := RespondCommit(b, a);
            r == Respond(b, Commit, a) && r.remote.state == Idle &&
            (r.msgs == [Error, Ready(Idle)] || r.msgs == [Complete(0), Ready(Idle)] || r.msgs == [Notice, Complete(0), Ready(Idle)])
  {
  }

  lemma DrainCommit(msgs: seq<Msg>)
    requires msgs == [Error, Ready(Idle)] || msgs == [Complete(0), Ready(Idle)] || msgs == [Notice, Complete(0), Ready(Idle)]
    ensures DrainToReady(Wrap(msgs)) == Some([Packet(Ready(Idle), true)])
  {
    var q := Wrap(msgs);
    var last := [Packet(Ready(Idle), false)];
    assert last[0 := Packet(Ready(Idle), true)] == [Packet(Ready(Idle), true)];
    if |msgs| == 2 {
      assert q[1..] == last;
    } else {
      assert q[1..] == [Packet(Complete(0), false)] + last && q[1..][1..] == last;
      assert DrainToReady(q) == DrainToReady(q[1..]) == DrainToReady(last);
    }
  }

  lemma CloseInternalActs(c: Conn, v: Verdicts)
    requires BodyReadable(c) && |c.queue| == 1
    ensures var x := Act(CloseInternal, c, v);
            (x.ok <==> !v.commit.Lost?) && !x.c.internal && x.c.remote == Respond(c.remote, Commit, v.commit).remote &&
            (x.ok ==>
               x.c == c.(remote := RespondCommit(c.remote, v.commit).remote, queue := [Packet(Ready(Idle), true)], internal := false))
  {
    var d := ReadBody(c);
    assert d.queue == [];
    if !v.commit.Lost? {
      CommitAnswer(c.remote, v.commit);
      var r := RespondCommit(c.remote, v.commit);
      DrainCommit(r.msgs);
      assert d.queue + Wrap(r.msgs) == Wrap(r.msgs);
    }
  }

  lemma CommitStandbyActs(c: Conn, v: Verdicts)
    requires c.queue == []
    ensures var x := Act(CommitStandby, c, v);
            (x.ok <==> !v.commit.Lost?) && x.c.remote == Respond(c.remote, Commit, v.commit).remote &&
            (x.ok ==> x.c == c.(remote := RespondCommit(c.remote, v.commit).remote, tstate := Idle))
  {
    if !v.commit.Lost? {
      CommitAnswer(c.remote, v.commit);
      var r := RespondCommit(c.remote, v.commit);
      DrainCommit(r.msgs);
      assert c.queue + Wrap(r.msgs) == Wrap(r.msgs);
    }
  }

  /** The node's verdict on what the action sends it. */
  function VerdictOn(action: Action, v: Verdicts): Answer {
    match action
    case OpenInternal => v.begin
    case Provoke => Reject
    case _ => v.commit
  }

  lemma ActEvolves(action: Action, c: Conn, v: Verdicts)
    ensures var x := Act(action, c, v);
            x.c.remote == c.remote || x.c.remote == Respond(c.remote, QueryOf(action), VerdictOn(action, v)).remote
  {
  }
}
