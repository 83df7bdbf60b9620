/** The parent process itself: the shared state as mutable fields, and the routines that change
    them, each proved to take exactly the steps of the Failover relation. */
module FailoverParent {
  import opened Failover

  /** Assembles the failover step from what its halves did: mid is the status after the request was
      applied, nodes marks the nodes it took down. */
  lemma FailoverCompletes(cfg: Config, c: Cluster, found: int, beyond: bool, d: Cluster, nodes: seq<bool>, mid: seq<Status>)
    requires c.WellFormed() && c.PrimaryIsLive() && Answerable(c) && c.kind != CloseIdle && !Refused(c)
    requires |nodes| == |mid| == |d.status| == MAX_NUM_BACKENDS
    requires d == c.(status := d.status, master := d.master, primary := NewPrimary(c, found),
                     nodeId := seq(MAX_NUM_BACKENDS, _ => -1))
    requires forall k :: 0 <= k < MAX_NUM_BACKENDS ==>
               (nodes[k] <==> c.kind in {NodeDown, NodeRecovery} && k in Condemned(c)) &&
               mid[k] == if c.kind == NodeUp && k == c.nodeId[0] then ConnectWait else if nodes[k] then Down else c.status[k]
    requires var follow := cfg.Streaming() && NewPrimary(c, found) >= 0 &&
                           (c.kind == Promote || (cfg.followCommand && c.kind == NodeDown && Taken(nodes, c.primary, beyond)));
             forall k :: 0 <= k < MAX_NUM_BACKENDS ==>
               d.status[k] == if follow && k < c.num && k != NewPrimary(c, found) then Down else mid[k]
    requires if d.master == c.master then (exists k :: 0 <= k < c.num && Live(d.status, k)) ==> LowestLive(d.status, d.master)
             else LowestLive(d.status, d.master)
    ensures FailoverStep(cfg, c, found, beyond, d)
  {
    forall k | 0 <= k < MAX_NUM_BACKENDS
      ensures d.status[k] == StatusAfter(cfg, c, found, beyond, k)
      ensures k >= c.num ==> !Live(d.status, k)
      ensures d.status[k] == Unused ==> c.status[k] == Unused
    {
      if k >= c.num {
        assert !Live(c.status, k);
      }
    }
  }

  /** Whether the primary was taken down; with no primary the code reads in front of the array. */
  predicate Taken(nodes: seq<bool>, primary: int, beyond: bool)
    requires -1 <= primary < |nodes|
  {
    if primary == -1 then beyond else nodes[primary]
  }

  class Parent {
    const cfg: Config
    var num: nat
    var status: seq<Status>
    var port: seq<nat>
    var kind: RequestKind
    var nodeId: seq<int>
    var master: int
    var primary: int
    var switching: bool
    var locked: bool
    var exiting: bool

    ghost function View(): Cluster
      reads this
    {
      Cluster(num, status, port, kind, nodeId, master, primary, switching, locked)
    }

    /** Startup: the request area is emptied, the lowest live node becomes master and the primary is
        whatever the search found among the live nodes. */
    constructor (cfg: Config, num: nat, status: seq<Status>, port: seq<nat>, found: int)
      requires num <= MAX_NUM_BACKENDS && |status| == |port| == MAX_NUM_BACKENDS
      requires (num > 0 ==> port[num - 1] != 0) && forall i :: num <= i < MAX_NUM_BACKENDS ==> port[i] == 0
      requires forall i :: 0 <= i < MAX_NUM_BACKENDS ==> (Live(status, i) ==> i < num && port[i] != 0) &&
                                                         (status[i] == Unused ==> port[i] == 0)
      requires found == -1 || (cfg.Streaming() && Live(status, found))
      ensures this.cfg == cfg && View().Inv() && !exiting
      ensures this.status == status && this.num == num && this.port == port && this.primary == found
    {
      this.cfg, this.num, this.status, this.port := cfg, num, status, port;
      kind, nodeId := NodeUp, seq(MAX_NUM_BACKENDS, _ => -1);
      primary, switching, locked, exiting := found, false, false, false;
      new;
      master := GetNextMasterNode(false);
    }

    /** The lowest node that may become master. Raw mode looks for a node that no child has connected to. */
    method GetNextMasterNode(raw: bool) returns (m: int)
      requires num <= |status|
      ensures if m == -1 then forall k :: 0 <= k < num ==> !Electable(raw, status, k)
              else 0 <= m < num && Electable(raw, status, m) && forall k :: 0 <= k < m ==> !Electable(raw, status, k)
      ensures raw ==> if m == -1 then forall k :: 0 <= k < num ==> status[k] != ConnectWait
                      else status[m] == ConnectWait && forall k :: 0 <= k < m ==> status[k] != ConnectWait
      ensures !raw && m != -1 ==> LowestLive(status, m)
      ensures !raw && m == -1 ==> forall k :: 0 <= k < num ==> !Live(status, k)
    {
      var i := 0;
      while i < num
        invariant 0 <= i <= num
        invariant forall k :: 0 <= k < i ==> !Electable(raw, status, k)
        invariant !raw ==> forall k :: 0 <= k < i ==> !Live(status, k)
        invariant raw ==> forall k :: 0 <= k < i ==> status[k] != ConnectWait
      {
        var takes := if raw then status[i] == ConnectWait else Live(status, i);
        if takes { break; }
        i := i + 1;
      }
      m := if i == num then -1 else i;
    }

    /** The loop of failover that takes down every live node named in the request area. */
    method CondemnRequested() returns (nodes: seq<bool>, cnt: nat)
      requires View().WellFormed()
      modifies this`status
      ensures |nodes| == |status| == MAX_NUM_BACKENDS
      ensures forall k :: 0 <= k < MAX_NUM_BACKENDS ==> (nodes[k] <==> k in Condemned(old(View())))
      ensures forall k :: 0 <= k < MAX_NUM_BACKENDS ==> status[k] == if nodes[k] then Down else old(status)[k]
      ensures cnt == 0 <==> Condemned(old(View())) == {}
    {
      nodes, cnt := seq(MAX_NUM_BACKENDS, _ => false), 0;
      for i := 0 to MAX_NUM_BACKENDS
        invariant |nodes| == |status| == MAX_NUM_BACKENDS
        invariant forall k :: 0 <= k < MAX_NUM_BACKENDS ==> (nodes[k] <==> k in nodeId[..i] && Live(old(status), k))
        invariant forall k :: 0 <= k < MAX_NUM_BACKENDS ==> status[k] == if nodes[k] then Down else old(status)[k]
        invariant cnt == 0 <==> forall k :: 0 <= k < MAX_NUM_BACKENDS ==> !nodes[k]
      {
        var n := nodeId[i];
        assert nodeId[..i + 1] == nodeId[..i] + [n];
        if n != -1 && Live(status, n) {
          status := status[n := Down];
          nodes := nodes[n := true];
          cnt := cnt + 1;
        }
      }
      assert nodeId[..MAX_NUM_BACKENDS] == nodeId;
      assert forall k :: k in Condemned(old(View())) ==> 0 <= k < MAX_NUM_BACKENDS && nodes[k];
    }

    /** The follow-degeneration loop: every configured slot but the new primary goes down. */
    method DegenerateFollowers(newPrimary: nat) returns (count: nat)
      requires |status| == MAX_NUM_BACKENDS && num <= MAX_NUM_BACKENDS
      modifies this`status
      ensures |status| == MAX_NUM_BACKENDS
      ensures forall k :: 0 <= k < MAX_NUM_BACKENDS ==>
                status[k] == if k < num && k != newPrimary then Down else old(status)[k]
      ensures count == 0 ==> status == old(status)
    {
      count := 0;
      for i := 0 to num
        invariant |status| == MAX_NUM_BACKENDS
        invariant forall k :: 0 <= k < MAX_NUM_BACKENDS ==>
                    status[k] == if k < i && k != newPrimary then Down else old(status)[k]
        invariant count == 0 ==> status == old(status)
      {
        if i != newPrimary {
          status := status[i := Down];
          count := count + 1;
        }
      }
    }

    /** The first half of failover: applies the request to the backend statuses, or refuses it. */
    method AcceptRequest() returns (accepted: bool, nodes: seq<bool>)
      requires View().WellFormed() && kind != CloseIdle && (kind == NodeUp ==> 0 <= nodeId[0])
      modifies this`status
      ensures accepted <==> !Refused(old(View()))
      ensures !accepted ==> status == old(status)
      ensures |nodes| == |status| == MAX_NUM_BACKENDS
      ensures accepted ==> forall k :: 0 <= k < MAX_NUM_BACKENDS ==>
                (nodes[k] <==> kind in {NodeDown, NodeRecovery} && k in Condemned(old(View()))) &&
                status[k] == if kind == NodeUp && k == nodeId[0] then ConnectWait else if nodes[k] then Down else old(status)[k]
    {
      nodes := seq(MAX_NUM_BACKENDS, _ => false);
      var node := nodeId[0];
      if kind == NodeUp {
        if Live(status, node) { return false, nodes; }
        status := status[node := ConnectWait];
      } else if kind == Promote {
        if node == -1 || !Live(status, node) { return false, nodes; }
      } else {
        var cnt;
        nodes, cnt := CondemnRequested();
        if cnt == 0 {
          assert status == old(status);
          return false, nodes;
        }
      }
      accepted := true;
    }

    /** The follow rule: takes every node but the new primary down when the old primary is among the
        lost nodes and a follow command is set, or when the request is a promotion. */
    method FollowNewPrimary(nodes: seq<bool>, newPrimary: int, beyond: bool) returns (followCnt: nat)
      requires |nodes| == |status| == MAX_NUM_BACKENDS && num <= MAX_NUM_BACKENDS
      requires |nodeId| > 0 && -1 <= newPrimary
      requires kind == Promote ==> Live(status, nodeId[0])
      requires -1 <= primary < MAX_NUM_BACKENDS
      modifies this`status
      ensures |status| == MAX_NUM_BACKENDS && (followCnt == 0 ==> status == old(status))
      ensures
        var follow := cfg.Streaming() && newPrimary >= 0 &&
                      (kind == Promote || (cfg.followCommand && kind == NodeDown && Taken(nodes, primary, beyond)));
        forall k :: 0 <= k < MAX_NUM_BACKENDS ==>
          status[k] == if follow && k < num && k != newPrimary then Down else old(status)[k]
    {
      followCnt := 0;
      if cfg.Streaming() {
        if cfg.followCommand || kind == Promote {
          if (kind == NodeDown && Taken(nodes, primary, beyond)) || (kind == Promote && Live(status, nodeId[0])) {
            if newPrimary >= 0 {
              followCnt := DegenerateFollowers(newPrimary);
            }
          }
        }
      }
    }

    /** The request area is cleared and given back, and the new nodes are made known. */
    method Publish(newMaster: int, newPrimary: int)
      modifies this`nodeId, this`locked, this`switching, this`primary, this`master
      ensures View() == old(View()).(nodeId := seq(MAX_NUM_BACKENDS, _ => -1), locked := false, primary := newPrimary,
                                     master := if newMaster >= 0 then newMaster else old(master), switching := false)
    {
      nodeId := seq(MAX_NUM_BACKENDS, _ => -1);
      locked := false;
      primary := newPrimary;
      if newMaster >= 0 {
        master := newMaster;
      }
      switching := false;
    }

    /** The second half of failover: elects the master, settles the primary, lets the others follow
        and publishes the outcome. c is the state failover started from. */
    method Settle(nodes: seq<bool>, found: int, beyond: bool, ghost c: Cluster)
      requires c.WellFormed() && c.PrimaryIsLive() && Answerable(c) && c.kind != CloseIdle && !Refused(c) && found >= -1
      requires View() == c.(status := status, locked := true, switching := true) && !c.locked && !c.switching
      requires |nodes| == |status| == MAX_NUM_BACKENDS
      requires forall k :: 0 <= k < MAX_NUM_BACKENDS ==>
                 (nodes[k] <==> c.kind in {NodeDown, NodeRecovery} && k in Condemned(c)) &&
                 status[k] == if c.kind == NodeUp && k == c.nodeId[0] then ConnectWait else if nodes[k] then Down else c.status[k]
      modifies this`status, this`nodeId, this`locked, this`switching, this`primary, this`master
      ensures FailoverStep(cfg, c, found, beyond, View())
      ensures primary == if c.kind == Promote then c.nodeId[0] else found
    {
      ghost var mid := status;
      var node := nodeId[0];
      hide FailoverStep, Next;
      assert kind == Promote ==> Live(status, node);
      var newMaster := GetNextMasterNode(false);
      var newPrimary := if kind == Promote && Live(status, node) then node else found;
      var followCnt := FollowNewPrimary(nodes, newPrimary, beyond);
      if followCnt != 0 {
        newMaster := GetNextMasterNode(false);
      }
      Publish(newMaster, newPrimary);
      FailoverCompletes(cfg, c, found, beyond, View(), nodes, mid);
    }

    /** Handles the request in the request area; found is what the search for a primary will answer, beyond
        what is read of the nodes taken down when there is no primary. */
    method Failover(found: int, beyond: bool)
      requires View().WellFormed() && !locked
      requires !exiting && !switching ==> View().PrimaryIsLive() && Answerable(View()) && Findable(cfg, View(), found)
      modifies this
      ensures exiting == old(exiting)
      ensures if exiting || old(switching) then View() == old(View()) else FailoverStep(cfg, old(View()), found, beyond, View())
      ensures !exiting && !old(switching) ==>
                primary == if NothingToDo(old(kind), old(status), old(nodeId)) then old(primary)
                           else if old(kind) == Promote then old(nodeId)[0] else found
    {
      if exiting { return; }
      if switching { return; }
      ghost var c := View();
      RefusedIff(c);
      GuardsDoNotMatter(c);
      hide FailoverStep, NothingToDo, Refused, Condemned;
      if Refused(c) { RefusedStays(cfg, c, found, beyond); }
      locked := true;
      if kind == CloseIdle {
        locked := false;
        return;
      }
      switching := true;
      var accepted, nodes := AcceptRequest();
      if !accepted {
        locked, switching := false, false;
        return;
      }
      Settle(nodes, found, beyond, c);
    }

    /** Records a node-down request for each live node of the set that may fail over. */
    method DegenerateBackendSet(nodes: seq<int>, disallowed: set<int>) returns (signalled: bool)
      requires View().WellFormed() && |nodes| <= MAX_NUM_BACKENDS && !locked
      modifies this
      ensures View() == RequestedDown(old(View()), nodes, disallowed)
      ensures signalled <==> exists n :: n in nodes && Live(status, n) && n !in disallowed
      ensures exiting == old(exiting)
    {
      locked := true;
      kind := NodeDown;
      signalled := false;
      for i := 0 to |nodes|
        invariant View() == old(View()).(locked := true, kind := NodeDown, nodeId := nodeId) && |nodeId| == MAX_NUM_BACKENDS
        invariant forall k :: 0 <= k < MAX_NUM_BACKENDS ==>
                    nodeId[k] == if k < i && Live(status, nodes[k]) && nodes[k] !in disallowed then nodes[k] else old(nodeId)[k]
        invariant signalled <==> exists k :: 0 <= k < i && Live(status, nodes[k]) && nodes[k] !in disallowed
        invariant exiting == old(exiting)
      {
        if nodes[i] < 0 || nodes[i] >= MAX_NUM_BACKENDS || !Live(status, nodes[i]) { continue; }
        if nodes[i] in disallowed { continue; }
        nodeId := nodeId[i := nodes[i]];
        signalled := true;
      }
      locked := false;
      assert nodeId == RequestedDown(old(View()), nodes, disallowed).nodeId;
    }

    /** Asks for a promotion; silently ignored outside streaming replication or for a node that is not live. */
    method PromoteBackend(node: int) returns (signalled: bool)
      requires View().WellFormed() && !locked
      modifies this
      ensures signalled <==> cfg.Streaming() && Live(old(status), node)
      ensures View() == if signalled then old(View()).(kind := Promote, nodeId := old(nodeId)[0 := node]) else old(View())
      ensures exiting == old(exiting)
    {
      if !cfg.Streaming() { return false; }
      if node < 0 || node >= MAX_NUM_BACKENDS || !Live(status, node) { return false; }
      locked := true;
      kind := Promote;
      nodeId := nodeId[0 := node];
      locked := false;
      signalled := true;
    }

    /** The main loop's reaction to a failed health check of a live node. */
    method HealthCheckFailed(node: nat, disallowed: bool, found: int, beyond: bool)
      requires View().WellFormed() && !switching && !locked && !exiting && node < num && Live(status, node)
      requires !disallowed ==> var r := View().(kind := NodeDown, nodeId := nodeId[0 := node]);
                               r.WellFormed() && r.PrimaryIsLive() && Answerable(r) && Findable(cfg, r, found)
      modifies this
      ensures if disallowed then View() == old(View()) else Next(cfg, old(View()), Event.HealthCheckFailed(node, found, beyond), View())
    {
      if !disallowed {
        kind := NodeDown;
        nodeId := nodeId[0 := node];
        Failover(found, beyond);
      }
    }

    /** The parsing half of a reload: ports[i] is the port now configured for slot i, 0 if none.
        Only slots that were unused take it. */
    method ReadPorts(ports: seq<nat>)
      requires |ports| == |status| == |port| == MAX_NUM_BACKENDS
      modifies this`status, this`port
      ensures |status| == |port| == MAX_NUM_BACKENDS
      ensures forall k :: 0 <= k < MAX_NUM_BACKENDS ==>
                if old(status)[k] == Unused then status[k] == Down && port[k] == ports[k]
                else status[k] == old(status)[k] && port[k] == old(port)[k]
    {
      for i := 0 to MAX_NUM_BACKENDS
        invariant |status| == |port| == MAX_NUM_BACKENDS
        invariant forall k :: 0 <= k < MAX_NUM_BACKENDS ==>
                    if k < i && old(status)[k] == Unused then status[k] == Down && port[k] == ports[k]
                    else status[k] == old(status)[k] && port[k] == old(port)[k]
      {
        if status[i] == Unused {
          port, status := port[i := ports[i]], status[i := Down];
        }
      }
    }

    /** The closing half of a reload: slots without a port are unused, the node count is recomputed. */
    method RecountSlots()
      requires |status| == |port| == MAX_NUM_BACKENDS
      modifies this`status, this`num
      ensures |status| == MAX_NUM_BACKENDS && num <= MAX_NUM_BACKENDS
      ensures forall k :: 0 <= k < MAX_NUM_BACKENDS ==> status[k] == if port[k] == 0 then Unused else old(status)[k]
      ensures (num > 0 ==> port[num - 1] != 0) && forall k :: num <= k < MAX_NUM_BACKENDS ==> port[k] == 0
    {
      num := 0;
      for i := 0 to MAX_NUM_BACKENDS
        invariant |status| == MAX_NUM_BACKENDS && num <= i
        invariant forall k :: 0 <= k < MAX_NUM_BACKENDS ==>
                    status[k] == if k < i && port[k] == 0 then Unused else old(status)[k]
        invariant (num > 0 ==> port[num - 1] != 0) && forall k :: num <= k < i ==> port[k] == 0
      {
        if port[i] == 0 {
          status := status[i := Unused];
        } else {
          num := i + 1;
        }
      }
    }

    /** Rereads the configuration. */
    method ReloadConfig(ports: seq<nat>)
      requires View().WellFormed() && |ports| == MAX_NUM_BACKENDS
      modifies this
      ensures Reloaded(old(View()), ports, View()) && exiting == old(exiting)
    {
      ReadPorts(ports);
      RecountSlots();
    }
  }
}
