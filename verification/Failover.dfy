/** The parent process's failover state machine: which nodes are live, which is master, which is
    primary, and how requests, health checks, child connections and reloads move them. */
module Failover {
  const MAX_NUM_BACKENDS: nat := 128

  datatype Status = Unused | ConnectWait | Up | Down
  datatype RequestKind = NodeUp | NodeDown | NodeRecovery | CloseIdle | Promote
  datatype Mode = MasterSlave(streaming: bool) | Replication

  /** The configuration failover consults; raw mode is not modelled. */
  datatype Config = Config(mode: Mode, followCommand: bool) {
    predicate Streaming() { mode.MasterSlave? && mode.streaming }
  }

  /** VALID_BACKEND as the parent evaluates it outside raw mode. */
  predicate Live(status: seq<Status>, i: int) {
    0 <= i < |status| && (status[i] == Up || status[i] == ConnectWait)
  }

  ghost predicate LowestLive(status: seq<Status>, i: int) {
    Live(status, i) && forall k :: 0 <= k < i ==> !Live(status, k)
  }

  /** Shared state: backend slots (status, configured port), the request area, and the two guards. */
  datatype Cluster = Cluster(
    num: nat, status: seq<Status>, port: seq<nat>,
    kind: RequestKind, nodeId: seq<int>, master: int, primary: int,
    switching: bool, locked: bool)
  {
    ghost predicate WellFormed() {
      num <= MAX_NUM_BACKENDS && |status| == |port| == |nodeId| == MAX_NUM_BACKENDS &&
      (forall i :: num <= i < MAX_NUM_BACKENDS ==> !Live(status, i)) &&
      (forall k :: 0 <= k < MAX_NUM_BACKENDS ==> -1 <= nodeId[k] < num) &&
      (num > 0 ==> port[num - 1] != 0) && (forall i :: num <= i < MAX_NUM_BACKENDS ==> port[i] == 0) &&
      (forall i :: 0 <= i < MAX_NUM_BACKENDS && status[i] == Unused ==> port[i] == 0)
    }

    ghost predicate MasterIsLowestLive() {
      (exists i :: Live(status, i)) ==> LowestLive(status, master)
    }

    ghost predicate PrimaryIsLive() {
      primary == -1 || Live(status, primary)
    }

    /** No node is live in a slot whose port is 0, the mark of an unconfigured slot. */
    ghost predicate LiveAreConfigured() {
      forall i :: Live(status, i) ==> i < |port| && port[i] != 0
    }

    /** What holds between any two steps of the parent. */
    ghost predicate Inv() {
      WellFormed() && MasterIsLowestLive() && PrimaryIsLive() && LiveAreConfigured() && !switching && !locked
    }
  }

  /** A node that get_next_master_node may pick. */
  predicate Electable(raw: bool, status: seq<Status>, i: int) {
    if raw then 0 <= i < |status| && status[i] == ConnectWait else Live(status, i)
  }

  // ---------------------------------------------------------------------------------------
  // One step of the cluster, stated as a relation between the state before and after
  // ---------------------------------------------------------------------------------------

  /** The nodes a node-down request takes down: those named in the request area that are live. */
  ghost function Condemned(c: Cluster): set<int> {
    set n | n in c.nodeId && n != -1 && Live(c.status, n)
  }

  /** failover gives up without touching anything but its own guards. */
  ghost predicate Refused(c: Cluster)
    requires c.WellFormed()
  {
    match c.kind
    case CloseIdle => true
    case NodeUp => Live(c.status, c.nodeId[0])
    case Promote => !Live(c.status, c.nodeId[0])
    case _ => Condemned(c) == {}
  }

  /** The primary after failover: the promoted node, or what the search for a primary found. */
  ghost function NewPrimary(c: Cluster, found: int): int
    requires c.WellFormed()
  {
    if c.kind == Promote then c.nodeId[0] else found
  }

  /** All nodes but the new primary are taken down because they no longer follow it. Without a primary the code
      looks in front of the array of nodes taken down; beyond is what it finds there. */
  ghost predicate Follows(cfg: Config, c: Cluster, found: int, beyond: bool)
    requires c.WellFormed()
  {
    cfg.Streaming() && NewPrimary(c, found) >= 0 &&
    (c.kind == Promote ||
     (cfg.followCommand && c.kind == NodeDown && if c.primary == -1 then beyond else c.primary in Condemned(c)))
  }

  ghost function StatusAfter(cfg: Config, c: Cluster, found: int, beyond: bool, i: nat): Status
    requires c.WellFormed() && i < MAX_NUM_BACKENDS
  {
    if Follows(cfg, c, found, beyond) && i < c.num && i != NewPrimary(c, found) then Down
    else if c.kind == NodeUp && i == c.nodeId[0] then ConnectWait
    else if (c.kind == NodeDown || c.kind == NodeRecovery) && i in Condemned(c) then Down
    else c.status[i]
  }

  ghost predicate FailoverStep(cfg: Config, c: Cluster, found: int, beyond: bool, d: Cluster) {
    c.WellFormed() && d.WellFormed() &&
    if Refused(c) then d == c
    else
      && d == c.(status := d.status, master := d.master, primary := NewPrimary(c, found),
                 nodeId := seq(MAX_NUM_BACKENDS, _ => -1))
      && (forall i :: 0 <= i < MAX_NUM_BACKENDS ==> d.status[i] == StatusAfter(cfg, c, found, beyond, i))
      && if exists i :: Live(d.status, i) then LowestLive(d.status, d.master) else d.master == c.master
  }

  /** What the search for a primary may answer: -1, or a node still live once the condemned are down. */
  ghost predicate Findable(cfg: Config, c: Cluster, found: int)
    requires c.WellFormed()
  {
    found == -1 || (cfg.Streaming() && ((Live(c.status, found) && !(c.kind in {NodeDown, NodeRecovery} && found in Condemned(c))) ||
                                        (c.kind == NodeUp && found == c.nodeId[0])))
  }

  /** What failover needs of its caller: a failback names a node. */
  ghost predicate Answerable(c: Cluster)
    requires c.WellFormed()
  {
    c.kind == NodeUp ==> 0 <= c.nodeId[0]
  }

  datatype Event =
    | RequestDown(nodes: seq<int>, disallowed: set<int>)
    | RequestUp(node: int)
    | RequestPromote(node: int)
    | RequestCloseIdle
    | RunFailover(found: int, beyond: bool)
    | HealthCheckFailed(node: int, found: int, beyond: bool)
    | Connected(node: int)
    | Reload(ports: seq<nat>)

  /** degenerate_backend_set: entry i is recorded at index i when it names a live node that may fail over. */
  ghost function RequestedDown(c: Cluster, nodes: seq<int>, disallowed: set<int>): Cluster
    requires |nodes| <= |c.nodeId|
  {
    c.(kind := NodeDown,
       nodeId := seq(|c.nodeId|, i requires 0 <= i < |c.nodeId| =>
         if i < |nodes| && Live(c.status, nodes[i]) && nodes[i] !in disallowed then nodes[i] else c.nodeId[i]))
  }

  /** A reload gives unused slots their newly configured port and marks them down; then every slot
      without a port becomes unused and the node count reaches the last slot with a port. */
  ghost predicate Reloaded(c: Cluster, ports: seq<nat>, d: Cluster) {
    c.WellFormed() && |ports| == |d.status| == |d.port| == MAX_NUM_BACKENDS &&
    d == c.(num := d.num, status := d.status, port := d.port) &&
    (forall i :: 0 <= i < MAX_NUM_BACKENDS ==>
       d.port[i] == (if c.status[i] == Unused then ports[i] else c.port[i]) &&
       d.status[i] == if d.port[i] == 0 then Unused else if c.status[i] == Unused then Down else c.status[i]) &&
    d.num <= MAX_NUM_BACKENDS && (d.num > 0 ==> d.port[d.num - 1] != 0) &&
    forall i :: d.num <= i < MAX_NUM_BACKENDS ==> d.port[i] == 0
  }

  /** One step of the parent or of a child acting on the shared state. */
  ghost predicate Next(cfg: Config, c: Cluster, e: Event, d: Cluster) {
    c.WellFormed() &&
    match e
    case RequestDown(nodes, disallowed) => |nodes| <= MAX_NUM_BACKENDS && d == RequestedDown(c, nodes, disallowed)
    case RequestUp(n) => 0 <= n < c.num && c.port[n] != 0 && d == c.(kind := NodeUp, nodeId := c.nodeId[0 := n])
    case RequestPromote(n) => d == if cfg.Streaming() && Live(c.status, n) then c.(kind := Promote, nodeId := c.nodeId[0 := n]) else c
    case RequestCloseIdle => d == c.(kind := CloseIdle)
    case RunFailover(found, beyond) =>
      (c.kind == NodeUp ==> 0 <= c.nodeId[0] && c.port[c.nodeId[0]] != 0) &&
      Answerable(c) && Findable(cfg, c, found) && FailoverStep(cfg, c, found, beyond, d)
    case HealthCheckFailed(n, found, beyond) =>
      0 <= n < c.num && Live(c.status, n) &&
      var r := c.(kind := NodeDown, nodeId := c.nodeId[0 := n]);
      Answerable(r) && Findable(cfg, r, found) && FailoverStep(cfg, r, found, beyond, d)
    case Connected(n) => Live(c.status, n) && d == c.(status := c.status[n := Up])
    case Reload(ports) => Reloaded(c, ports, d)
  }

  // ---------------------------------------------------------------------------------------
  // Safety over runs
  // ---------------------------------------------------------------------------------------

  ghost predicate IsRun(cfg: Config, run: seq<Cluster>, events: seq<Event>) {
    |run| == |events| + 1 && forall k :: 0 <= k < |events| ==> Next(cfg, run[k], events[k], run[k + 1])
  }

  /** Over every run: the master is the lowest live node whenever one exists, the primary is -1 or
      live, and neither the re-entrancy flag nor the semaphore is held between steps. */
  lemma {:induction false} RunsAreSafe(cfg: Config, run: seq<Cluster>, events: seq<Event>)
    requires IsRun(cfg, run, events) && run[0].Inv()
    ensures forall k :: 0 <= k < |run| ==> run[k].Inv()
  {
    if events != [] {
      var m := |events| - 1;
      RunsAreSafe(cfg, run[..m + 1], events[..m]);
      assert run[m] == run[..m + 1][m];
      StepIsSafe(cfg, run[m], events[m], run[m + 1]);
      forall k | 0 <= k < |run| ensures run[k].Inv() {
        if k <= m { assert run[k] == run[..m + 1][k]; }
      }
    }
  }

  lemma StepIsSafe(cfg: Config, c: Cluster, e: Event, d: Cluster)
    requires c.Inv() && Next(cfg, c, e, d)
    ensures d.Inv()
  {
    match e
    case RunFailover(found, beyond) => FailoverIsSafe(cfg, c, found, beyond, d);
    case HealthCheckFailed(n, found, beyond) =>
      var r := c.(kind := NodeDown, nodeId := c.nodeId[0 := n]);
      FailoverIsSafe(cfg, r, found, beyond, d);
    case Connected(n) => SameLive(c, d);
    case Reload(ports) => ReloadKeepsLive(c, ports, d); SameLive(c, d);
    case _ => SameLive(c, d);
  }

  lemma SameLive(c: Cluster, d: Cluster)
    requires forall i :: Live(c.status, i) <==> Live(d.status, i)
    requires c.master == d.master && c.primary == d.primary
    ensures c.MasterIsLowestLive() ==> d.MasterIsLowestLive()
    ensures c.PrimaryIsLive() ==> d.PrimaryIsLive()
  {
    if c.MasterIsLowestLive() && exists i :: Live(d.status, i) {
      var i :| Live(d.status, i);
      assert Live(c.status, i);
      assert LowestLive(c.status, c.master);
    }
  }

  lemma FailoverIsSafe(cfg: Config, c: Cluster, found: int, beyond: bool, d: Cluster)
    requires c.Inv() && FailoverStep(cfg, c, found, beyond, d) && Findable(cfg, c, found)
    requires c.kind == NodeUp ==> 0 <= c.nodeId[0] && c.port[c.nodeId[0]] != 0
    ensures d.Inv()
  {
    if !Refused(c) {
      var p := NewPrimary(c, found);
      if p != -1 {
        assert d.status[p] == StatusAfter(cfg, c, found, beyond, p);
      }
      forall i | Live(d.status, i) ensures d.port[i] != 0 {
        assert d.status[i] == StatusAfter(cfg, c, found, beyond, i);
      }
    }
  }

  /** After a follow-degeneration exactly one node is live: the new primary, which is also the master. */
  lemma FollowLeavesOnlyPrimary(cfg: Config, c: Cluster, found: int, beyond: bool, d: Cluster)
    requires c.Inv() && FailoverStep(cfg, c, found, beyond, d) && Findable(cfg, c, found)
    requires !Refused(c) && Follows(cfg, c, found, beyond)
    ensures forall i :: Live(d.status, i) <==> i == d.primary
    ensures d.master == d.primary == NewPrimary(c, found)
  {
    var p := NewPrimary(c, found);
    assert d.status[p] == StatusAfter(cfg, c, found, beyond, p);
    assert Live(d.status, p);
    forall i | 0 <= i < MAX_NUM_BACKENDS && i != p ensures !Live(d.status, i) {
      assert d.status[i] == StatusAfter(cfg, c, found, beyond, i);
    }
  }

  /** Without a follow-degeneration a node-down failover removes exactly the condemned nodes and
      nothing else, so the other nodes keep their status. */
  lemma DownTakesOnlyCondemned(cfg: Config, c: Cluster, found: int, beyond: bool, d: Cluster)
    requires c.WellFormed() && c.kind == NodeDown && FailoverStep(cfg, c, found, beyond, d) && !Follows(cfg, c, found, beyond)
    ensures forall i :: Live(d.status, i) <==> Live(c.status, i) && i !in Condemned(c)
    ensures forall i :: 0 <= i < MAX_NUM_BACKENDS && i !in Condemned(c) ==> d.status[i] == c.status[i]
  {
    if !Refused(c) {
      forall i | 0 <= i < MAX_NUM_BACKENDS
        ensures d.status[i] == if i in Condemned(c) then Down else c.status[i]
      {
        assert d.status[i] == StatusAfter(cfg, c, found, beyond, i);
      }
    }
  }

  // ---------------------------------------------------------------------------------------
  // What a failover leaves, request by request
  // ---------------------------------------------------------------------------------------

  /** The request names node n, and n is live. */
  ghost predicate NamesLive(c: Cluster, n: int) {
    0 <= n < |c.status| && (c.status[n] == Up || c.status[n] == ConnectWait) && exists k :: 0 <= k < |c.nodeId| && c.nodeId[k] == n
  }

  lemma CondemnedAre(c: Cluster, n: int)
    requires c.WellFormed()
    ensures n in Condemned(c) <==> NamesLive(c, n)
  {
    assert n in c.nodeId <==> exists k :: 0 <= k < |c.nodeId| && c.nodeId[k] == n;
  }

  /** Nothing to restart for: a node already live to be brought back, one that is not live to be promoted, or
      no live node named. */
  ghost predicate NothingToDo(kind: RequestKind, status: seq<Status>, names: seq<int>) {
    match kind
    case CloseIdle => true
    case NodeUp => names != [] && Live(status, names[0])
    case Promote => names == [] || !Live(status, names[0])
    case _ => forall k :: 0 <= k < |names| ==> !Live(status, names[k])
  }

  lemma RefusedIff(c: Cluster)
    requires c.WellFormed()
    ensures Refused(c) <==> NothingToDo(c.kind, c.status, c.nodeId)
  {
    forall k | 0 <= k < MAX_NUM_BACKENDS && Live(c.status, c.nodeId[k]) ensures c.nodeId[k] in Condemned(c) {
      CondemnedAre(c, c.nodeId[k]);
    }
    if c.kind in {NodeDown, NodeRecovery} && Condemned(c) != {} {
      var n :| n in Condemned(c);
      CondemnedAre(c, n);
    }
  }

  lemma GuardsDoNotMatter(c: Cluster)
    requires c.WellFormed()
    ensures var d := c.(locked := true, switching := true);
            Condemned(d) == Condemned(c) && (Refused(d) <==> Refused(c)) && (c.kind == CloseIdle ==> Refused(c))
  {
    var d := c.(locked := true, switching := true);
    assert Condemned(d) == Condemned(c);
  }

  lemma RefusedStays(cfg: Config, c: Cluster, found: int, beyond: bool)
    requires c.WellFormed() && Refused(c)
    ensures FailoverStep(cfg, c, found, beyond, c)
  {
  }

  /** A failback brings its node back, waiting to be connected, and touches no other; the primary is what the
      search found. */
  lemma UpRevivesOne(cfg: Config, c: Cluster, found: int, beyond: bool, d: Cluster)
    requires FailoverStep(cfg, c, found, beyond, d) && c.kind == NodeUp && 0 <= c.nodeId[0]
    ensures var n := c.nodeId[0];
            if c.status[n] == Up || c.status[n] == ConnectWait then d == c
            else d.primary == found && d.status == c.status[n := ConnectWait]
  {
    var n := c.nodeId[0];
    if !Live(c.status, n) {
      forall i | 0 <= i < MAX_NUM_BACKENDS ensures d.status[i] == c.status[n := ConnectWait][i] {
        assert d.status[i] == StatusAfter(cfg, c, found, beyond, i);
      }
    }
  }

  /** With streaming replication, promoting a live node leaves it alone live, as primary and as master; a node
      that is not live is not promoted. */
  lemma PromoteLeavesOne(cfg: Config, c: Cluster, found: int, beyond: bool, d: Cluster)
    requires FailoverStep(cfg, c, found, beyond, d) && c.kind == Promote && cfg.mode == MasterSlave(true)
    ensures var n := c.nodeId[0];
            if n != -1 && (c.status[n] == Up || c.status[n] == ConnectWait)
            then d.primary == d.master == n && forall i :: 0 <= i < MAX_NUM_BACKENDS ==> (Live(d.status, i) <==> i == n)
            else d == c
  {
    var n := c.nodeId[0];
    if Live(c.status, n) {
      forall i | 0 <= i < MAX_NUM_BACKENDS ensures Live(d.status, i) <==> i == n {
        assert d.status[i] == StatusAfter(cfg, c, found, beyond, i);
      }
      assert Live(d.status, n) && LowestLive(d.status, d.master);
      assert Live(d.status, d.master);
    }
  }

  /** A node-down request takes down the live nodes that it names, and nothing happens if there are none. With
      a follow command, if the primary was one of them and another has been found, all but that one go. */
  lemma DownTakesNamed(cfg: Config, c: Cluster, found: int, beyond: bool, d: Cluster)
    requires FailoverStep(cfg, c, found, beyond, d) && (c.kind == NodeDown || c.kind == NodeRecovery)
    ensures var follow := cfg.mode == MasterSlave(true) && cfg.followCommand && c.kind == NodeDown && found >= 0 &&
                          if c.primary == -1 then beyond else NamesLive(c, c.primary);
            if forall n :: !NamesLive(c, n) then d == c
            else d.primary == found &&
                 forall i :: 0 <= i < MAX_NUM_BACKENDS ==>
                   d.status[i] == if (follow && i < c.num && i != found) || NamesLive(c, i) then Down else c.status[i]
  {
    CondemnedAre(c, c.primary);
    forall n ensures n in Condemned(c) <==> NamesLive(c, n) { CondemnedAre(c, n); }
    hide NamesLive, Condemned;
    if exists n :: NamesLive(c, n) {
      forall i | 0 <= i < MAX_NUM_BACKENDS
        ensures d.status[i] == StatusAfter(cfg, c, found, beyond, i)
      {
      }
    }
  }

  /** From the error to the failover: nodes reported by degenerate_backend_set to an empty request area are
      down afterwards if they were live and may fail over, and without a follow command no other is. */
  lemma ReportedGoDown(cfg: Config, c: Cluster, nodes: seq<int>, disallowed: set<int>, found: int, beyond: bool, d: Cluster)
    requires c.WellFormed() && (forall k :: 0 <= k < MAX_NUM_BACKENDS ==> c.nodeId[k] == -1) && |nodes| <= MAX_NUM_BACKENDS
    requires FailoverStep(cfg, RequestedDown(c, nodes, disallowed), found, beyond, d)
    ensures forall i :: Live(d.status, i) ==> Live(c.status, i) && (i !in nodes || i in disallowed)
    ensures !cfg.followCommand ==>
              forall i :: Live(c.status, i) && (i !in nodes || i in disallowed) ==> Live(d.status, i)
  {
    var r := RequestedDown(c, nodes, disallowed);
    DownTakesNamed(cfg, r, found, beyond, d);
    forall i | 0 <= i < MAX_NUM_BACKENDS
      ensures NamesLive(r, i) <==> Live(c.status, i) && i in nodes && i !in disallowed
    {
      if i in nodes && Live(c.status, i) && i !in disallowed {
        var k :| 0 <= k < |nodes| && nodes[k] == i;
        assert r.nodeId[k] == i;
      }
    }
    hide RequestedDown, FailoverStep;
  }

  /** A node that fails its health check is not live afterwards. */
  lemma FailedCheckTakesNode(cfg: Config, c: Cluster, n: int, found: int, beyond: bool, d: Cluster)
    requires c.Inv() && Next(cfg, c, HealthCheckFailed(n, found, beyond), d)
    ensures !Live(d.status, n) && d.primary == found != n
  {
    var r := c.(kind := NodeDown, nodeId := c.nodeId[0 := n]);
    assert r.nodeId[0] == n;
    assert NamesLive(r, n);
    CondemnedAre(r, n);
    DownTakesNamed(cfg, r, found, beyond, d);
  }

  /** A failback or node-down failover that finds the old primary still live leaves the primary as it was. */
  lemma FoundPrimaryStays(cfg: Config, c: Cluster, beyond: bool, d: Cluster)
    requires FailoverStep(cfg, c, c.primary, beyond, d) && c.kind != Promote
    ensures d.primary == c.primary
  {
  }

  lemma ReloadKeepsLive(c: Cluster, ports: seq<nat>, d: Cluster)
    requires c.Inv() && Reloaded(c, ports, d)
    ensures forall i :: Live(c.status, i) <==> Live(d.status, i)
    ensures d.WellFormed() && d.LiveAreConfigured()
  {
    assert d.num >= c.num by {
      assert c.num > 0 ==> d.port[c.num - 1] != 0;
    }
    forall k | 0 <= k < MAX_NUM_BACKENDS ensures d.nodeId[k] < d.num {
      assert c.nodeId[k] < c.num;
    }
  }

  /** Without the assumption that live slots are configured, a reload keeps the master claim
      exactly when it leaves no node live or the master's own slot has a port. */
  lemma ReloadKeepsMasterIff(c: Cluster, ports: seq<nat>, d: Cluster)
    requires c.WellFormed() && c.MasterIsLowestLive() && Reloaded(c, ports, d)
    ensures d.MasterIsLowestLive() <==> (forall i :: Live(c.status, i) ==> c.port[i] == 0) || c.port[c.master] != 0
    ensures c.PrimaryIsLive() ==> (d.PrimaryIsLive() <==> c.primary == -1 || c.port[c.primary] != 0)
  {
    assert forall i :: Live(d.status, i) <==> Live(c.status, i) && c.port[i] != 0;
    if exists i :: Live(c.status, i) && c.port[i] != 0 {
      var i :| Live(c.status, i) && c.port[i] != 0;
      assert Live(d.status, i) && LowestLive(c.status, c.master);
    }
  }

  /** The claim does fail: a failback accepts an unconfigured slot below the only live node, the
      slot becomes master, and the next reload clears it while node 1 stays live. */
  lemma ReloadCanLoseMaster(cfg: Config) returns (c: Cluster, up: Cluster, d: Cluster)
    ensures c.Inv() && FailoverStep(cfg, c.(kind := NodeUp, nodeId := c.nodeId[0 := 0]), -1, false, up)
    ensures Reloaded(up, seq(MAX_NUM_BACKENDS, _ => 0), d) && !d.MasterIsLowestLive()
  {
    var noId := seq(MAX_NUM_BACKENDS, _ => -1);
    var status := seq(MAX_NUM_BACKENDS, i => if i == 1 then Up else Unused);
    var port := seq(MAX_NUM_BACKENDS, i => if i == 1 then 5432 else 0);
    c := Cluster(2, status, port, NodeUp, noId, 1, -1, false, false);
    assert LowestLive(c.status, 1);
    up := c.(status := status[0 := ConnectWait], master := 0);
    assert Live(up.status, 0);
    d := c.(master := 0);
    assert Live(d.status, 1);
  }
}
