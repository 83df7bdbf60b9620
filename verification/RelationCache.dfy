/** The relation cache: a fixed array of slots searched linearly, standing for a map from relation
    to datum whose entries expire. */
module RelationCache {
  import opened Options
  import opened Text

  const INT_MAX: int := 0x7fff_ffff
  const MAX_ITEM_LENGTH: nat := 1024

  datatype Slot<D> = Slot(dbname: string, relname: string, data: Option<D>, refcnt: nat, session: int, expire: int) {
    /** Past its expiry at the given time; an expiry of 0 never passes. */
    predicate Expired(now: int) { expire > 0 && now > expire }
  }

  /** Relations are known by database and name without regard to case, and by session when the cache
      is session local. */
  datatype Key = Key(session: int, dbname: string, relname: string)
  datatype Entry<D> = Entry(data: Option<D>, expire: int)

  /** The table name without its double quotes. */
  function Unquote(table: string): (r: string)
    ensures '"' !in r && |r| <= |table|
  {
    if table == "" then ""
    else
      var n := |table| - 1;
      Unquote(table[..n]) + if table[n] == '"' then "" else [table[n]]
  }

  /** Quotes are dropped wherever they stand, and nothing else is. */
  lemma {:induction false} UnquoteSplits(a: string, b: string)
    ensures Unquote(a + b) == Unquote(a) + Unquote(b)
  {
    if b == "" {
      assert a + b == a;
    } else {
      var n := |b| - 1;
      UnquoteSplits(a, b[..n]);
      assert (a + b)[..|a| + n] == a + b[..n];
    }
  }

  lemma {:induction false} UnquotePlain(s: string)
    requires '"' !in s
    ensures Unquote(s) == s
  {
    if s != "" {
      UnquotePlain(s[..|s| - 1]);
      assert s == s[..|s| - 1] + [s[|s| - 1]];
    }
  }

  /** A quoted name is the name itself. */
  lemma UnquotedName(s: string)
    requires '"' !in s
    ensures Unquote("\"" + s + "\"") == s && Unquote("\"") == ""
  {
    assert Unquote("\"") == "";
    UnquoteSplits("\"", s);
    UnquoteSplits("\"" + s, "\"");
    UnquotePlain(s);
    hide Unquote;
  }

  function SearchKey(local: bool, dbname: string, rel: string, session: int): Key {
    Key(if local then session else 0, Lower(dbname), Lower(rel))
  }

  /** Two searches ask for the same relation exactly if names agree up to case, and in a cache for each session
      also the sessions. */
  lemma KeysIff(local: bool, dbname: string, rel: string, session: int, dbname': string, rel': string, session': int)
    ensures SearchKey(local, dbname, rel, session) == SearchKey(local, dbname', rel', session') <==>
            SameText(dbname, dbname') && SameText(rel, rel') && (local ==> session == session')
  {
    LowerIff(dbname, dbname');
    LowerIff(rel, rel');
    hide Lower, SameText;
  }

  /** The slot is filled, names the relation and has not expired. */
  predicate AnswersFor<D>(local: bool, slot: Slot<D>, dbname: string, rel: string, session: int, now: int) {
    slot.dbname != "" && SameText(slot.dbname, dbname) && SameText(slot.relname, rel) && (local ==> slot.session == session) &&
    (slot.expire == 0 || now <= slot.expire || slot.expire < 0)
  }

  function KeyOf<D>(local: bool, s: Slot<D>): Key {
    SearchKey(local, s.dbname, s.relname, s.session)
  }

  // ---------------------------------------------------------------------------------------
  // The cache as a value, beside the map it stands for
  // ---------------------------------------------------------------------------------------

  /** The slots; for each slot the number of the registration that filled it; the registrations made
      so far; what was registered last for each key; the latest time the cache was used. */
  datatype Store<D> = Store(local: bool, cells: seq<Slot<D>>, stamp: seq<nat>, made: nat, latest: map<Key, Entry<D>>, clock: int) {
    ghost predicate Holds(i: int, k: Key) {
      0 <= i < |cells| && cells[i].dbname != "" && KeyOf(local, cells[i]) == k
    }

    /** Among the slots holding a key the first is the newest and all others have expired; a slot
        that has not expired holds what was registered last for its key. */
    ghost predicate Consistent() {
      |cells| > 0 && |stamp| == |cells| &&
      (forall i :: 0 <= i < |cells| ==> stamp[i] <= made && cells[i].refcnt <= INT_MAX) &&
      (forall i, j, k :: 0 <= i < j && Holds(i, k) && Holds(j, k) ==> stamp[i] > stamp[j] && cells[j].Expired(clock)) &&
      (forall i, k :: Holds(i, k) && !cells[i].Expired(clock) ==>
         k in latest && latest[k] == Entry(cells[i].data, cells[i].expire))
    }

    /** Slot i is the one that answers for k. */
    ghost predicate First(i: int, k: Key) {
      Holds(i, k) && forall j :: 0 <= j < i ==> !Holds(j, k)
    }

    ghost predicate Fresh(i: int, k: Key, now: int) {
      Holds(i, k) && !cells[i].Expired(now)
    }

    /** Some slot could answer for k. */
    ghost predicate Answers(k: Key, now: int) { exists i :: Fresh(i, k, now) }
  }

  lemma FreshIff<D>(s: Store<D>, i: int, dbname: string, rel: string, session: int, now: int)
    ensures s.Fresh(i, SearchKey(s.local, dbname, rel, session), now) <==>
            0 <= i < |s.cells| && AnswersFor(s.local, s.cells[i], dbname, rel, session, now)
  {
    if 0 <= i < |s.cells| {
      KeysIff(s.local, s.cells[i].dbname, s.cells[i].relname, s.cells[i].session, dbname, rel, session);
    }
    hide SearchKey, SameText;
  }

  lemma RegisteredAnswers<D>(local: bool, slot: Slot<D>, now: int, expiry: int)
    requires slot.dbname != "" && now >= 0 && slot.expire == if expiry > 0 then now + expiry else 0
    ensures forall later :: now <= later && (expiry > 0 ==> later <= now + expiry) ==>
              AnswersFor(local, slot, slot.dbname, slot.relname, slot.session, later)
  {
  }

  /** Use counts may change and time may pass without harming the cache. */
  lemma TimeAndUse<D>(s: Store<D>, t: Store<D>)
    requires s.Consistent() && t == s.(cells := t.cells, clock := t.clock) && t.clock >= s.clock
    requires |t.cells| == |s.cells|
    requires forall i :: 0 <= i < |s.cells| ==> t.cells[i] == s.cells[i].(refcnt := t.cells[i].refcnt) && t.cells[i].refcnt <= INT_MAX
    ensures t.Consistent()
    ensures forall i, k :: s.Holds(i, k) <==> t.Holds(i, k)
  {
    assert forall i, k :: s.Holds(i, k) <==> t.Holds(i, k);
  }

  /** Filling a slot keeps the cache consistent provided every slot already holding the key has
      expired and none of them comes earlier. */
  lemma Refill<D>(s: Store<D>, index: nat, slot: Slot<D>, t: Store<D>)
    requires s.Consistent() && index < |s.cells| && slot.dbname != "" && slot.refcnt <= INT_MAX
    requires var k := KeyOf(s.local, slot);
             t == s.(cells := s.cells[index := slot], stamp := s.stamp[index := s.made + 1], made := s.made + 1,
                     latest := s.latest[k := Entry(slot.data, slot.expire)])
    requires forall i :: s.Holds(i, KeyOf(s.local, slot)) ==> i >= index && s.cells[i].Expired(s.clock)
    ensures t.Consistent() && t.First(index, KeyOf(s.local, slot))
  {
    assert forall i, k :: i != index ==> (t.Holds(i, k) <==> s.Holds(i, k));
    assert forall k :: t.Holds(index, k) <==> k == KeyOf(s.local, slot);
  }

  /** What the cache answers is what the map holds: if slot i answers for k and has not expired then
      its datum is the one registered last for k, and no other slot holds k unexpired. */
  lemma AnswersAreLatest<D>(s: Store<D>, i: nat, k: Key)
    requires s.Consistent() && s.Fresh(i, k, s.clock)
    ensures s.First(i, k) && k in s.latest && s.latest[k].data == s.cells[i].data
    ensures !(s.latest[k].expire > 0 && s.clock > s.latest[k].expire)
    ensures forall j :: s.Fresh(j, k, s.clock) ==> j == i
    ensures forall j :: s.Holds(j, k) && j != i ==> s.stamp[j] < s.stamp[i]
  {
  }

  class RelCache<D(==)> {
    const sessionLocal: bool
    const cache: array<Slot<D>>
    ghost var stamp: seq<nat>
    ghost var made: nat
    ghost var latest: map<Key, Entry<D>>
    ghost var clock: int

    ghost function View(): Store<D>
      reads this, cache
    {
      Store(sessionLocal, cache[..], stamp, made, latest, clock)
    }

    constructor (cachesize: nat, sessionLocal: bool, now: int)
      requires cachesize > 0
      ensures View().Consistent() && this.sessionLocal == sessionLocal && cache.Length == cachesize && fresh(cache)
      ensures latest == map[] && clock == now
    {
      this.sessionLocal := sessionLocal;
      cache := new Slot<D>[cachesize](_ => Slot("", "", None, 0, 0, 0));
      stamp, made, latest, clock := seq(cachesize, _ => 0), 0, map[], now;
    }

    /** The search loop: the slot that answers, or the expired slot it stopped at with its use count zeroed. */
    method Lookup(dbname: string, rel: string, session: int, now: int) returns (hit: Option<nat>, stale: Option<nat>)
      requires dbname != "" && View().Consistent() && now >= clock
      modifies this`clock, cache
      ensures clock == now && View().Consistent()
      ensures forall i, k :: View().Holds(i, k) <==> old(View()).Holds(i, k)
      ensures var k := SearchKey(sessionLocal, dbname, rel, session);
              match hit
              case Some(i) => stale.None? && View().Fresh(i, k, now) && View().First(i, k) &&
                              cache[..] == old(cache[..])[i := old(cache[i]).(refcnt := cache[i].refcnt)] &&
                              cache[i].refcnt == if old(cache[i].refcnt) < INT_MAX then old(cache[i].refcnt) + 1 else INT_MAX
              case None =>
                match stale
                case Some(i) => View().First(i, k) && !View().Fresh(i, k, now) &&
                                cache[..] == old(cache[..])[i := old(cache[i]).(refcnt := 0)]
                case None => cache[..] == old(cache[..]) && forall i :: !View().Holds(i, k)
    {
      clock := now;
      hit, stale := None, None;
      ghost var s := old(View());
      ghost var k := SearchKey(sessionLocal, dbname, rel, session);
      for i := 0 to cache.Length
        invariant cache[..] == s.cells && clock == now
        invariant forall j :: 0 <= j < i ==> !s.Holds(j, k)
      {
        if sessionLocal && cache[i].session != session { continue; }
        if Lower(cache[i].dbname) == Lower(dbname) && Lower(cache[i].relname) == Lower(rel) {
          assert |cache[i].dbname| == |dbname| by { assert |Lower(dbname)| == |Lower(cache[i].dbname)|; }
          assert s.Holds(i, k);
          if cache[i].expire > 0 {
            if now > cache[i].expire {
              cache[i] := cache[i].(refcnt := 0);
              TimeAndUse(s, View());
              stale := Some(i);
              return;
            }
          }
          if cache[i].refcnt < INT_MAX {
            cache[i] := cache[i].(refcnt := cache[i].refcnt + 1);
          }
          TimeAndUse(s, View());
          hit := Some(i);
          return;
        }
      }
      TimeAndUse(s, View());
    }

    predicate Free(i: nat, session: int)
      requires i < cache.Length
      reads cache
    {
      (sessionLocal && cache[i].session != session) || cache[i].refcnt == 0
    }

    /** The slot to overwrite: the first free one, else the first of the least used. */
    method FindReplacement(session: int) returns (index: nat)
      requires cache.Length > 0 && forall k :: 0 <= k < cache.Length ==> cache[k].refcnt <= INT_MAX
      ensures index < cache.Length
      ensures forall k :: 0 <= k < index ==> cache[k].refcnt != 0 && (sessionLocal ==> cache[k].session == session)
      ensures forall k :: 0 <= k < index ==> !Free(k, session)
      ensures cache[index].refcnt != 0 && (sessionLocal ==> cache[index].session == session) ==>
                (forall k :: 0 <= k < cache.Length ==> !Free(k, session) && cache[index].refcnt <= cache[k].refcnt) &&
                forall k :: 0 <= k < index ==> cache[index].refcnt < cache[k].refcnt
    {
      index := 0;
      var maxrefcnt := INT_MAX;
      for i := 0 to cache.Length
        invariant index < cache.Length
        invariant forall k :: 0 <= k < i ==> !Free(k, session) && maxrefcnt <= cache[k].refcnt
        invariant if maxrefcnt == INT_MAX then index == 0 else index < i && cache[index].refcnt == maxrefcnt
        invariant forall k :: 0 <= k < index ==> maxrefcnt < cache[k].refcnt
      {
        if sessionLocal && cache[i].session != session {
          index := i;
          return;
        }
        if cache[i].refcnt == 0 {
          index := i;
          return;
        } else if cache[i].refcnt < maxrefcnt {
          maxrefcnt := cache[i].refcnt;
          index := i;
        }
      }
    }

    /** Overwrites the slot chosen for replacement with a fresh registration. stale is the expired slot,
        if any, that the search stopped at; it is free, so the choice never falls behind it. */
    method Register(dbname: string, rel: string, session: int, datum: D, expire: int, ghost stale: Option<nat>)
      returns (ghost freed: Option<D>)
      requires dbname != "" && View().Consistent() && (expire > 0 ==> expire >= clock)
      requires var k := SearchKey(sessionLocal, dbname, rel, session);
               match stale
               case Some(i) => i < cache.Length && Free(i, session) && View().First(i, k) &&
                               forall j :: View().Holds(j, k) ==> cache[j].Expired(clock)
               case None => forall j :: !View().Holds(j, k)
      modifies this`stamp, this`made, this`latest, cache
      ensures View().Consistent() && made == old(made) + 1
      ensures var k := SearchKey(sessionLocal, dbname, rel, session);
              latest == old(latest)[k := Entry(Some(datum), expire)] &&
              exists i: nat :: View().Fresh(i, k, clock) && View().First(i, k) && old(cache[i]).data == freed &&
                               cache[i] == Slot(dbname, rel, Some(datum), 1, session, expire)
    {
      ghost var s, k := View(), SearchKey(sessionLocal, dbname, rel, session);
      var index := FindReplacement(session);
      assert stale.Some? ==> Free(stale.value, session) && index <= stale.value;
      freed := cache[index].data;
      cache[index] := Slot(dbname, rel, Some(datum), 1, session, expire);
      stamp, made := stamp[index := made + 1], made + 1;
      latest := latest[k := Entry(Some(datum), expire)];
      assert KeyOf(sessionLocal, cache[index]) == k;
      Refill(s, index, cache[index], View());
      assert View().Fresh(index, k, clock);
    }

    /** Looks the relation up, asking the catalog when the cache has no unexpired answer. answer is what
        the catalog query would yield, None if it fails; expiry is the configured life time. freed is the
        datum given up to make room. */
    method Search(table: string, dbname: string, session: int, now: int, expiry: int, answer: Option<D>)
      returns (r: Option<D>, queried: bool, ghost freed: Option<D>)
      requires dbname != "" && |dbname| < MAX_ITEM_LENGTH && |table| < MAX_ITEM_LENGTH
      requires View().Consistent() && 0 <= clock <= now
      modifies this, cache
      ensures View().Consistent() && clock == if session < 0 then old(clock) else now
      ensures session < 0 ==> r == None && !queried && View() == old(View())
      // A query happens exactly when no slot could answer.
      ensures var k := SearchKey(sessionLocal, dbname, Unquote(table), session);
              session >= 0 ==> (queried <==> !old(View()).Answers(k, now))
      // A hit answers with what was registered last for the relation, unexpired.
      ensures var k := SearchKey(sessionLocal, dbname, Unquote(table), session);
              session >= 0 && !queried ==>
                k in latest && latest[k].data == r && !(latest[k].expire > 0 && now > latest[k].expire) &&
                latest == old(latest) && made == old(made)
      // A query that fails registers nothing; one that succeeds is what the next search will find.
      ensures queried && answer.None? ==> r == None && latest == old(latest) && made == old(made)
      ensures var k := SearchKey(sessionLocal, dbname, Unquote(table), session);
              queried && answer.Some? ==>
                r == answer && made == old(made) + 1 &&
                latest == old(latest)[k := Entry(answer, if expiry > 0 then now + expiry else 0)] &&
                exists i: nat :: View().Fresh(i, k, now) && View().First(i, k) && old(cache[i]).data == freed
      // The same by the slots: the one that names the relation, unexpired, answers, and only without one is the
      // catalog asked. Its answer is then in such a slot for as long as its life time lasts.
      ensures session >= 0 && !queried ==>
                exists i :: 0 <= i < cache.Length && r == old(cache[i]).data &&
                            AnswersFor(sessionLocal, old(cache[i]), dbname, Unquote(table), session, now)
      ensures session >= 0 && queried ==>
                forall i :: 0 <= i < cache.Length ==> !AnswersFor(sessionLocal, old(cache[i]), dbname, Unquote(table), session, now)
      ensures queried && answer.Some? ==>
                exists i :: 0 <= i < cache.Length && cache[i].data == answer &&
                            forall later :: now <= later && (expiry > 0 ==> later <= now + expiry) ==>
                              AnswersFor(sessionLocal, cache[i], dbname, Unquote(table), session, later)
    {
      r, queried, freed := None, false, None;
      if session < 0 { return; }
      var rel := Unquote(table);
      ghost var s, k := View(), SearchKey(sessionLocal, dbname, rel, session);
      var hit, stale := Lookup(dbname, rel, session, now);
      if hit.Some? {
        AnswersAreLatest(View(), hit.value, k);
        ghost var i: int := hit.value;
        assert s.Holds(i, k) by { assert View().Holds(i, k); }
        assert s.Fresh(i, k, now);
        assert s.Answers(k, now);
        FreshIff(s, i, dbname, rel, session, now);
        return cache[hit.value].data, false, None;
      }
      queried := true;
      forall i | s.Holds(i, k) ensures s.cells[i].Expired(now) {
        assert View().Holds(i, k);
      }
      forall i | 0 <= i < cache.Length ensures !AnswersFor(sessionLocal, s.cells[i], dbname, rel, session, now) {
        FreshIff(s, i, dbname, rel, session, now);
      }
      if answer.None? { return; }
      var expire := if expiry > 0 then now + expiry else 0;
      RegisteredAnswers(sessionLocal, Slot(dbname, rel, answer, 1, session, expire), now, expiry);
      hide AnswersFor, SearchKey;
      freed := Register(dbname, rel, session, answer.value, expire, stale);
      r := answer;
    }
  }
}
