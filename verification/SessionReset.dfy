/** Resetting a session when its client has gone: the list of sent messages, and the loop that runs the
    reset queries and then deallocates whatever is left on the list. */
module SessionReset {
  import opened Postgres
  import Options
  import Statements
  import SessionModel

  /** Parse and Bind messages of the extended protocol, and PREPARE commands. */
  datatype Kind = ParseMessage | BindMessage | PrepareCommand

  datatype Message = Message(kind: Kind, name: string)

  function IndexOf(list: seq<Message>, m: Message): (i: nat)
    ensures i <= |list| && (i < |list| ==> list[i] == m) && m !in list[..i]
  {
    if list == [] then 0
    else if list[0] == m then 0
    else
      var i := 1 + IndexOf(list[1..], m);
      assert list[..i] == [list[0]] + list[1..][..i - 1];
      i
  }

  function Without(list: seq<Message>, m: Message): (r: seq<Message>)
    ensures |r| == if m in list then |list| - 1 else |list|
  {
    var i := IndexOf(list, m);
    if i == |list| then list else list[..i] + list[i + 1..]
  }

  function WithoutKind(list: seq<Message>, kind: Kind): (r: seq<Message>)
    ensures |r| <= |list| && forall m :: m in r <==> m in list && m.kind != kind
  {
    if list == [] then []
    else (if list[0].kind == kind then [] else [list[0]]) + WithoutKind(list[1..], kind)
  }

  /** One message less, and the others in their order. */
  lemma WithoutOne(list: seq<Message>, m: Message)
    ensures multiset(Without(list, m)) == multiset(list) - multiset{m}
  {
    var i := IndexOf(list, m);
    if i < |list| {
      assert list == list[..i] + [m] + list[i + 1..];
    } else {
      assert m !in list[..i] && list[..i] == list;
    }
  }

  lemma {:induction false} WithoutKindSplits(a: seq<Message>, b: seq<Message>, kind: Kind)
    ensures WithoutKind(a + b, kind) == WithoutKind(a, kind) + WithoutKind(b, kind)
  {
    if a == [] {
      assert a + b == b;
    } else {
      assert (a + b)[1..] == a[1..] + b;
      WithoutKindSplits(a[1..], b, kind);
    }
  }

  lemma {:induction false} NoneToRemove(list: seq<Message>, kind: Kind)
    requires forall j :: 0 <= j < |list| ==> list[j].kind != kind
    ensures WithoutKind(list, kind) == list
  {
    if list != [] {
      NoneToRemove(list[1..], kind);
    }
  }

  lemma OneRemoved(list: seq<Message>, i: nat, kind: Kind)
    requires i < |list| && list[i].kind == kind
    ensures WithoutKind(list[..i] + list[i + 1..], kind) == WithoutKind(list, kind)
  {
    var a, b, rest := list[..i], list[i + 1..], list[i..];
    assert rest[0] == list[i] && rest[1..] == b;
    assert WithoutKind(rest, kind) == WithoutKind(b, kind) by {
      assert [] + WithoutKind(b, kind) == WithoutKind(b, kind);
    }
    assert list == a + rest;
    hide WithoutKind;
    WithoutKindSplits(a, b, kind);
    WithoutKindSplits(a, rest, kind);
  }

  /** Taken off the list without a DEALLOCATE. */
  predicate Unnamed(m: Message) { m.kind == BindMessage || m.name == "" }

  /** The reset queries that matter here: ABORT is skipped when all nodes are idle, and DISCARD empties the
      list or takes the prepared statements off it. */
  datatype ResetQuery = Abort | DiscardAll | DiscardPlans | Command | Deallocate(name: string)

  /** What the nodes make of a query: they complete it or answer with an error, and report their states; or
      the exchange breaks off. */
  datatype Reply = Reply(completed: bool, states: seq<TState>) | BreaksOff

  /** reset_backend's return values -1 to 2. */
  datatype Issued = Broken | NoQuery | Queried | NoMore

  class ResettingSession {
    const live: seq<bool>
    var list: seq<Message>
    var states: seq<TState>
    var reset: bool
    ghost var issued: seq<ResetQuery>

    ghost predicate Valid()
      reads this
    {
      |states| == |live|
    }

    constructor (live: seq<bool>, list: seq<Message>, states: seq<TState>)
      requires |states| == |live|
      ensures Valid() && this.live == live && this.list == list && this.states == states && issued == []
    {
      this.live := live;
      this.list := list;
      this.states := states;
      this.reset := false;
      this.issued := [];
    }

    /** pool_remove_sent_message: takes the first such message off the list. */
    method Remove(m: Message) returns (found: bool)
      modifies `list
      ensures list == Without(old(list), m) && (found <==> m in old(list))
      ensures if !found then list == old(list)
              else exists i :: 0 <= i < |old(list)| && old(list)[i] == m && m !in old(list)[..i] &&
                               list == old(list)[..i] + old(list)[i + 1..]
    {
      var i := 0;
      while i < |list| && list[i] != m
        invariant 0 <= i <= |list| && list == old(list)
        invariant m !in list[..i]
      {
        i := i + 1;
      }
      FirstIsIndex(list, m, i);
      found := i < |list|;
      if found {
        assert list[i] in list;
        list := list[..i] + list[i + 1..];
      } else {
        assert list[..i] == list;
      }
    }

    /** pool_remove_sent_messages: the index steps back whenever a message has been taken off. */
    method RemoveKind(kind: Kind)
      modifies `list
      ensures list == WithoutKind(old(list), kind)
    {
      hide WithoutKind, IndexOf;
      var i := 0;
      while i < |list|
        invariant 0 <= i <= |list|
        invariant forall j :: 0 <= j < i ==> list[j].kind != kind
        invariant WithoutKind(list, kind) == WithoutKind(old(list), kind)
        decreases |list| - i
      {
        if list[i].kind == kind {
          ghost var before := list;
          FirstIsIndex(list, list[i], i);
          OneRemoved(list, i, kind);
          var found := Remove(list[i]);
          assert list == before[..i] + before[i + 1..];
        } else {
          i := i + 1;
        }
      }
      NoneToRemove(list, kind);
    }

    /** pool_clear_sent_message_list. */
    method Clear()
      modifies `list
      ensures list == []
    {
      while |list| > 0
        decreases |list|
      {
        ghost var was := list;
        RemoveKind(list[0].kind);
        Shrinks(was, was[0].kind);
      }
    }

    /** What CommandComplete does to the list. */
    method Complete(q: ResetQuery)
      modifies `list
      ensures list == AfterComplete(old(list), q)
      ensures match q
              case DiscardAll => list == []
              case DiscardPlans => forall m :: m in list <==> m in old(list) && m.kind == BindMessage
              case Deallocate(name) =>
                multiset(list) == multiset(old(list)) - multiset{Message(PrepareCommand, name), Message(ParseMessage, name)}
              case _ => list == old(list)
    {
      CompletedList(list, q);
      hide Without, WithoutKind;
      match q {
        case DiscardAll => Clear();
        case DiscardPlans =>
          RemoveKind(PrepareCommand);
          RemoveKind(ParseMessage);
        case Deallocate(name) =>
          var q := Remove(Message(PrepareCommand, name));
          var p := Remove(Message(ParseMessage, name));
        case _ =>
      }
    }

    ghost predicate NodesIdle()
      requires Valid()
      reads this
    {
      forall i :: 0 <= i < |live| && live[i] ==> states[i] == Idle
    }

    /** need_to_abort. */
    method AllIdle() returns (idle: bool)
      requires Valid()
      ensures idle <==> NodesIdle()
    {
      idle := true;
      for i := 0 to |live|
        invariant idle <==> forall j :: 0 <= j < i && live[j] ==> states[j] == Idle
      {
        if live[i] && states[i] != Idle { idle := false; }
      }
    }

    /** Sends a query; the answer is read in the loop around. */
    method Send(q: ResetQuery, reply: Reply) returns (ok: bool)
      modifies `issued
      ensures ok <==> reply.Reply?
      ensures issued == old(issued) + [q]
    {
      issued := issued + [q];
      ok := reply.Reply?;
    }

    /** reset_backend. */
    method ResetBackend(queries: seq<ResetQuery>, qcnt: nat, reply: Reply) returns (st: Issued, q: ResetQuery)
      requires Valid()
      modifies `list, `reset, `issued
      ensures reset
      ensures st == NoMore <==> qcnt >= |queries| && old(list) == []
      ensures st == Broken ==> reply.BreaksOff?
      ensures st == Queried ==> reply.Reply?
      ensures st == Queried || st == Broken ==> issued == old(issued) + [q]
      ensures st == NoQuery || st == NoMore ==> issued == old(issued)
      ensures st == NoMore ==> list == []
      ensures qcnt < |queries| ==> list == old(list) && (st == Queried ==> q == queries[qcnt])
      ensures qcnt < |queries| ==>
                (st == NoQuery <==> queries[qcnt] == Abort && forall i :: 0 <= i < |live| && live[i] ==> states[i] == Idle)
      ensures qcnt >= |queries| && old(list) != [] ==> list == old(list)[1..]
      ensures qcnt >= |queries| && old(list) != [] ==>
                (st == NoQuery <==> old(list)[0].kind == BindMessage || old(list)[0].name == "")
      ensures qcnt >= |queries| && st == Queried ==> q == ResetQuery.Deallocate(old(list)[0].name)
    {
      reset := true;
      q := Command;
      if qcnt >= |queries| {
        if |list| == 0 { return NoMore, q; }
        var m := list[0];
        FirstIsIndex(list, m, 0);
        assert Without(list, m) == list[1..];
        if !Unnamed(m) {
          q := ResetQuery.Deallocate(m.name);
          var ok := Send(q, reply);
          var found := Remove(m);
          return if ok then Queried else Broken, q;
        } else {
          var found := Remove(m);
          return NoQuery, q;
        }
      }
      q := queries[qcnt];
      if q == Abort {
        var idle := AllIdle();
        if idle { return NoQuery, q; }
      }
      var ok := Send(q, reply);
      return if ok then Queried else Broken, q;
    }

    /** The loop of pool_process_query that resets the session. world tells how the nodes answer the
        query of each round. */
    method Reset(queries: seq<ResetQuery>, world: nat -> Reply)
      returns (calls: nat, ok: bool, ghost skipped: set<nat>, ghost names: seq<string>)
      requires Valid() && forall j :: world(j).Reply? ==> |world(j).states| == |live|
      modifies this
      ensures Valid()
      ensures calls <= |queries| + |old(list)| + 1
      ensures ok ==> list == [] && forall i :: 0 <= i < |live| && live[i] ==> states[i] == Idle
      ensures !ok ==> calls > 0 && world(calls - 1).BreaksOff?
      // What is sent: every reset query in turn, but for an ABORT where all nodes are idle, and then the
      // DEALLOCATEs.
      ensures forall j :: j in skipped ==> j < |queries| && queries[j] == Abort
      ensures ok ==> issued == old(issued) + Asked(queries, skipped, |queries|) + Deallocates(names)
    {
      calls, skipped, names := 0, {}, [];
      var qcnt := 0;
      while true
        invariant Valid()
        invariant calls + Left(qcnt, |queries|, |list|) <= |queries| + |old(list)|
        invariant forall j :: j in skipped ==> j < qcnt && j < |queries| && queries[j] == Abort
        invariant qcnt < |queries| ==> names == []
        invariant issued == old(issued) + Asked(queries, skipped, Least(qcnt, |queries|)) + Deallocates(names)
        decreases Left(qcnt, |queries|, |list|)
      {
        ghost var was := list;
        var reply := world(calls);
        var st, q := ResetBackend(queries, qcnt, reply);
        calls := calls + 1;
        match st {
          case Broken => return calls, false, skipped, names;
          case NoMore =>
            ghost var all := issued;
            for i := 0 to |live|
              invariant |states| == |live| && list == [] && issued == all
              invariant forall j :: 0 <= j < i && live[j] ==> states[j] == Idle
            {
              if live[i] { states := states[i := Idle]; }
            }
            return calls, true, skipped, names;
          case Queried =>
            if reply.completed { Complete(q); }
            states := reply.states;
            OneMore(queries, skipped, qcnt, names, q, old(issued));
            if qcnt >= |queries| { names := names + [q.name]; }
            qcnt := qcnt + 1;
          case NoQuery =>
            SkipOne(queries, skipped, qcnt);
            if qcnt < |queries| { skipped := skipped + {qcnt}; }
            qcnt := qcnt + 1;
        }
      }
    }
  }

  function Least(a: nat, b: nat): nat { if a < b then a else b }

  /** The first n queries but for those skipped. */
  ghost function Asked(queries: seq<ResetQuery>, skipped: set<nat>, n: nat): seq<ResetQuery>
    requires n <= |queries|
  {
    if n == 0 then [] else Asked(queries, skipped, n - 1) + if n - 1 in skipped then [] else [queries[n - 1]]
  }

  ghost function Deallocates(names: seq<string>): seq<ResetQuery> {
    seq(|names|, k requires 0 <= k < |names| => ResetQuery.Deallocate(names[k]))
  }

  lemma {:induction false} AskedBelow(queries: seq<ResetQuery>, a: set<nat>, b: set<nat>, n: nat)
    requires n <= |queries| && forall k :: 0 <= k < n ==> (k in a <==> k in b)
    ensures Asked(queries, a, n) == Asked(queries, b, n)
  {
    if n > 0 { AskedBelow(queries, a, b, n - 1); }
  }

  lemma SkipOne(queries: seq<ResetQuery>, skipped: set<nat>, n: nat)
    ensures n < |queries| ==> Asked(queries, skipped + {n}, n + 1) == Asked(queries, skipped, n)
    ensures n < |queries| ==> Least(n + 1, |queries|) == n + 1
    ensures n >= |queries| ==> Least(n + 1, |queries|) == Least(n, |queries|)
  {
    if n < |queries| {
      AskedBelow(queries, skipped, skipped + {n}, n);
      assert Asked(queries, skipped, n) + [] == Asked(queries, skipped, n);
    }
  }

  lemma OneMore(queries: seq<ResetQuery>, skipped: set<nat>, n: nat, names: seq<string>, q: ResetQuery, before: seq<ResetQuery>)
    requires forall j :: j in skipped ==> j < n
    requires if n < |queries| then q == queries[n] && names == [] else q.Deallocate?
    ensures before + Asked(queries, skipped, Least(n, |queries|)) + Deallocates(names) + [q] ==
            before + Asked(queries, skipped, Least(n + 1, |queries|)) + Deallocates(if n < |queries| then names else names + [q.name])
  {
    var b, m := before + Asked(queries, skipped, Least(n, |queries|)), Least(n + 1, |queries|);
    if n < |queries| {
      assert Deallocates(names) == [] && b + [] == b;
      assert Asked(queries, skipped, m) == Asked(queries, skipped, n) + [q];
      assert before + (Asked(queries, skipped, n) + [q]) == before + Asked(queries, skipped, n) + [q];
      assert before + Asked(queries, skipped, m) + [] == before + Asked(queries, skipped, m);
    } else {
      assert Deallocates(names + [q.name]) == Deallocates(names) + [q];
      assert b + (Deallocates(names) + [q]) == b + Deallocates(names) + [q];
    }
  }

  /** Queries left and messages left. */
  function Left(qcnt: nat, queries: nat, messages: nat): nat {
    (if qcnt < queries then queries - qcnt else 0) + messages
  }

  lemma FirstIsIndex(list: seq<Message>, m: Message, i: nat)
    requires i <= |list| && (i < |list| ==> list[i] == m) && (forall j :: 0 <= j < i ==> list[j] != m)
    ensures IndexOf(list, m) == i
  {
    var k := IndexOf(list, m);
    assert forall j :: 0 <= j < k ==> list[..k][j] == list[j];
  }

  lemma Shrinks(list: seq<Message>, kind: Kind)
    requires |list| > 0 && list[0].kind == kind
    ensures |WithoutKind(list, kind)| < |list|
  {
  }

  function AfterComplete(list: seq<Message>, q: ResetQuery): (r: seq<Message>)
    ensures |r| <= |list|
  {
    match q
    case DiscardAll => []
    case DiscardPlans => WithoutKind(WithoutKind(list, PrepareCommand), ParseMessage)
    case Deallocate(name) => Without(Without(list, Message(PrepareCommand, name)), Message(ParseMessage, name))
    case _ => list
  }

  lemma CompletedList(list: seq<Message>, q: ResetQuery)
    ensures var r := AfterComplete(list, q);
            match q
            case DiscardAll => r == []
            case DiscardPlans => forall m :: m in r <==> m in list && m.kind == BindMessage
            case Deallocate(name) =>
              multiset(r) == multiset(list) - multiset{Message(PrepareCommand, name), Message(ParseMessage, name)}
            case _ => r == list
  {
    hide Without, WithoutKind;
    if q.Deallocate? {
      var p, m := Message(PrepareCommand, q.name), Message(ParseMessage, q.name);
      WithoutOne(list, p);
      WithoutOne(Without(list, p), m);
      assert multiset{p, m} == multiset{p} + multiset{m};
    }
  }

  // ---------------------------------------------------------------------------------------
  // The same list in a session of simple queries
  // ---------------------------------------------------------------------------------------

  /** The messages behind a session's prepared statements. */
  function Listed(sent: seq<SessionModel.Prepared>): (r: seq<Message>)
    ensures forall m :: m in r ==> m.kind == PrepareCommand
  {
    if sent == [] then [] else [Message(PrepareCommand, sent[0].name)] + Listed(sent[1..])
  }

  lemma WithoutStep(x: Message, rest: seq<Message>, m: Message)
    ensures Without([x] + rest, m) == if x == m then rest else [x] + Without(rest, m)
  {
    var list := [x] + rest;
    var i := IndexOf(rest, m);
    assert list[0] == x && list[1..] == rest;
    if x != m && i < |rest| {
      assert list[..i + 1] == [x] + rest[..i];
      assert list[i + 2..] == rest[i + 1..];
    }
  }

  lemma {:induction false} RemovedAlike(sent: seq<SessionModel.Prepared>, name: string)
    ensures Listed(SessionModel.RemovePrepared(sent, name)) == Without(Listed(sent), Message(PrepareCommand, name))
  {
    if sent != [] {
      RemovedAlike(sent[1..], name);
      WithoutStep(Message(PrepareCommand, sent[0].name), Listed(sent[1..]), Message(PrepareCommand, name));
      var left := SessionModel.RemovePrepared(sent[1..], name);
      assert ([sent[0]] + left)[1..] == left;
      hide Without;
    }
  }

  lemma {:induction false} NoneOfKind(list: seq<Message>, kind: Kind)
    requires forall j :: 0 <= j < |list| ==> list[j].kind == kind
    ensures WithoutKind(list, kind) == []
  {
    if list != [] {
      NoneOfKind(list[1..], kind);
    }
  }

  lemma NothingWithout(list: seq<Message>, m: Message)
    requires m !in list
    ensures Without(list, m) == list
  {
  }

  lemma NothingListed()
    ensures Listed([]) == [] && WithoutKind([], ParseMessage) == []
  {
  }

  /** q is the statement as a reset query. */
  predicate SameCommand(stmt: Statements.Stmt, q: ResetQuery) {
    match q
    case Deallocate(name) => stmt == Statements.Deallocate(Options.Some(name))
    case DiscardAll => stmt == Statements.Discard(Statements.DiscardAll)
    case DiscardPlans => stmt == Statements.Discard(Statements.DiscardPlans)
    case _ => false
  }

  /** Both views of the list agree on what a DEALLOCATE or DISCARD takes off it. */
  lemma CompletesAlike(stmt: Statements.Stmt, q: ResetQuery, sent: seq<SessionModel.Prepared>,
                       uncompleted: Options.Option<SessionModel.Prepared>)
    requires SameCommand(stmt, q)
    ensures Listed(SessionModel.ListAfter(stmt, sent, uncompleted)) == AfterComplete(Listed(sent), q)
  {
    hide Without, WithoutKind, Listed, SessionModel.RemovePrepared;
    assert Listed([]) == [] by { NothingListed(); }
    match q
    case Deallocate(name) =>
      RemovedAlike(sent, name);
      NothingWithout(Listed(SessionModel.RemovePrepared(sent, name)), Message(ParseMessage, name));
    case DiscardPlans => NoneOfKind(Listed(sent), PrepareCommand);
    case _ =>
  }
}
