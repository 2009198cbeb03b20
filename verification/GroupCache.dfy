/** The executor-group cache against a catalog that changes underneath it. Events are database
    reads and lock-protected sections; an event whose guard fails changes nothing. `time`
    numbers the events. */
module GroupCache {
  import opened Base

  datatype Group = Group(id: Id, name: string, discoveryKey: string, token: string)

  datatype Key = ById(id: Id) | ByName(name: string) {
    predicate Fits(c: Group) { match this case ById(id) => c.id == id case ByName(name) => c.name == name }
  }

  /** Every group ever created keeps its immutable configuration; `deletedAt` marks the deleted ones. */
  datatype Catalog = Catalog(ever: map<Id, Group>, deletedAt: map<Id, nat>) {
    predicate Live(id: Id) { id in ever && id !in deletedAt }
  }

  /** One pass of the miss loop: not yet begun, the query sent under a generation, its answer. */
  datatype Miss = Fresh | Asking(generation: nat) | Answered(generation: nat, found: Option<Group>, at: nat)

  datatype Caller = Leading(key: Key, miss: Miss) | Following(key: Key)

  /** A refresh holds its gate from the load until its observers have returned. */
  datatype Refresh = Idle | Loaded(groups: map<Id, Group>, at: nat) | Replaced | Observed

  /** `loadedAt` and `readAt` record when the snapshot and each entry were read. */
  datatype Cache = Cache(
    time: nat, catalog: Catalog, generation: nat, byID: map<Id, Group>, byName: map<string, Group>,
    flights: map<Key, Id>, callers: map<Id, Caller>, refresh: Refresh, loadedAt: nat, readAt: map<Id, nat>)

  const EMPTY := Cache(0, Catalog(map[], map[]), 0, map[], map[], map[], map[], Idle, 0, map[])

  predicate Cached(c: Cache, key: Key) { match key case ById(id) => id in c.byID case ByName(name) => name in c.byName }

  predicate Contains(c: Cache, g: Group) { g.id in c.byID && c.byID[g.id] == g }

  // ----- the catalog -----

  predicate NewConfig(cat: Catalog, g: Group) {
    0 < g.id && g.id !in cat.ever && forall id | id in cat.ever :: cat.ever[id].name != g.name && cat.ever[id].discoveryKey != g.discoveryKey
  }

  function Create(c: Cache, g: Group): Cache {
    if NewConfig(c.catalog, g) then c.(catalog := c.catalog.(ever := c.catalog.ever[g.id := g])) else c
  }

  function Delete(c: Cache, id: Id): Cache {
    if c.catalog.Live(id) then c.(catalog := c.catalog.(deletedAt := c.catalog.deletedAt[id := c.time + 1])) else c
  }

  // ----- complete refreshes -----

  function Snapshot(cat: Catalog): map<Id, Group> { map id | id in cat.ever && cat.Live(id) :: cat.ever[id] }

  function Load(c: Cache): Cache {
    if c.refresh.Idle? then c.(refresh := Loaded(Snapshot(c.catalog), c.time)) else c
  }

  predicate NamesDistinct(groups: map<Id, Group>) {
    forall a, b | a in groups && b in groups && groups[a].name == groups[b].name :: a == b
  }

  function NameIndex(groups: map<Id, Group>): map<string, Group>
    requires NamesDistinct(groups)
  {
    map id | id in groups :: groups[id].name := groups[id]
  }

  /** Both indexes are replaced together under a new generation. */
  function Replace(c: Cache): Cache {
    if c.refresh.Loaded? && NamesDistinct(c.refresh.groups) then
      var groups, at := c.refresh.groups, c.refresh.at;
      c.(generation := c.generation + 1, byID := groups, byName := NameIndex(groups), refresh := Replaced, loadedAt := at,
         readAt := map id | id in groups :: at)
    else c
  }

  function Observe(c: Cache): Cache { if c.refresh.Replaced? then c.(refresh := Observed) else c }

  function EndRefresh(c: Cache): Cache { if c.refresh.Loaded? || c.refresh.Observed? then c.(refresh := Idle) else c }

  // ----- lookups -----

  /** A lookup that misses leads the flight of its key or follows the one in progress. */
  function Lookup(c: Cache, who: Id, key: Key): Cache {
    if who in c.callers || Cached(c, key) then c
    else if key in c.flights then c.(callers := c.callers[who := Following(key)])
    else c.(flights := c.flights[key := who], callers := c.callers[who := Leading(key, Fresh)])
  }

  predicate Leads(c: Cache, who: Id) { who in c.callers && c.callers[who].Leading? }

  /** The flight ends, whatever its outcome, and its followers are released. */
  function EndFlight(c: Cache, who: Id): Cache {
    if !Leads(c, who) then c.(callers := c.callers - {who})
    else
      var key := c.callers[who].key;
      c.(flights := c.flights - {key}, callers := map w | w in c.callers && w != who && c.callers[w] != Following(key) :: c.callers[w])
  }

  /** The loop reads the generation before it asks the source. */
  function Ask(c: Cache, who: Id): Cache {
    if Leads(c, who) && c.callers[who].miss.Fresh? then
      if Cached(c, c.callers[who].key) then EndFlight(c, who)
      else c.(callers := c.callers[who := c.callers[who].(miss := Asking(c.generation))])
    else c
  }

  ghost predicate Answers(cat: Catalog, key: Key, found: Option<Group>) {
    match found
    case Some(g) => cat.Live(g.id) && cat.ever[g.id] == g && key.Fits(g)
    case None => forall id | cat.Live(id) :: !key.Fits(cat.ever[id])
  }

  ghost function Answer(c: Cache, who: Id, found: Option<Group>): Cache {
    if Leads(c, who) && c.callers[who].miss.Asking? && Answers(c.catalog, c.callers[who].key, found) then
      c.(callers := c.callers[who := c.callers[who].(miss := Answered(c.callers[who].miss.generation, found, c.time))])
    else c
  }

  function Stored(c: Cache, g: Group, at: nat): Cache {
    c.(byID := c.byID[g.id := g], byName := c.byName[g.name := g], readAt := c.readAt[g.id := at])
  }

  /** An answer of an older generation is discarded and asked again. */
  function Publish(c: Cache, who: Id): Cache {
    if Leads(c, who) && c.callers[who].miss.Answered? then
      var miss := c.callers[who].miss;
      if miss.generation != c.generation then c.(callers := c.callers[who := c.callers[who].(miss := Fresh)])
      else EndFlight(if miss.found.Some? then Stored(c, miss.found.value, miss.at) else c, who)
    else c
  }

  // ----- runs -----

  datatype Event =
    | ECreate(g: Group) | EDelete(id: Id) | ELoad | EReplace | EObserve | EEndRefresh
    | EMiss(who: Id, key: Key) | EAsk(who: Id) | EAnswer(who: Id, found: Option<Group>) | EPublish(who: Id) | EGiveUp(who: Id)

  ghost function Step(c: Cache, ev: Event): Cache {
    match ev
    case ECreate(g) => Create(c, g)
    case EDelete(id) => Delete(c, id)
    case ELoad => Load(c)
    case EReplace => Replace(c)
    case EObserve => Observe(c)
    case EEndRefresh => EndRefresh(c)
    case EMiss(who, key) => Lookup(c, who, key)
    case EAsk(who) => Ask(c, who)
    case EAnswer(who, found) => Answer(c, who, found)
    case EPublish(who) => Publish(c, who)
    case EGiveUp(who) => EndFlight(c, who)
  }

  ghost function Next(c: Cache, ev: Event): Cache { Step(c, ev).(time := c.time + 1) }

  ghost function Run(c: Cache, events: seq<Event>): Cache
    decreases |events|
  {
    if events == [] then c else Run(Next(c, events[0]), events[1..])
  }

  // ----- invariants -----

  ghost predicate GroupOk(cat: Catalog, time: nat, id: Id) {
    && (id in cat.ever ==> cat.ever[id].id == id)
    && (id in cat.deletedAt ==> id in cat.ever && cat.deletedAt[id] <= time + 1)
  }

  ghost predicate NamesOk(cat: Catalog, a: Id, b: Id) {
    a in cat.ever && b in cat.ever && cat.ever[a].name == cat.ever[b].name ==> a == b
  }

  /** The group had exactly this configuration and was not deleted when it was read. */
  ghost predicate Read(cat: Catalog, time: nat, g: Group, at: nat) {
    at <= time && g.id in cat.ever && cat.ever[g.id] == g && (g.id in cat.deletedAt ==> at < cat.deletedAt[g.id])
  }

  /** Every entry was read no earlier than the snapshot, and both indexes hold it. */
  ghost predicate EntryOk(cat: Catalog, time: nat, byID: map<Id, Group>, byName: map<string, Group>, readAt: map<Id, nat>, loadedAt: nat, id: Id) {
    id in byID ==>
      && byID[id].id == id && id in readAt && loadedAt <= readAt[id] && Read(cat, time, byID[id], readAt[id])
      && byID[id].name in byName && byName[byID[id].name] == byID[id]
  }

  ghost predicate NameOk(byID: map<Id, Group>, byName: map<string, Group>, n: string) {
    n in byName ==> byName[n].name == n && byName[n].id in byID && byID[byName[n].id] == byName[n]
  }

  /** An answer of the current generation was read after the snapshot. */
  ghost predicate MissOk(cat: Catalog, time: nat, generation: nat, loadedAt: nat, miss: Miss) {
    match miss
    case Fresh => true
    case Asking(g) => g <= generation
    case Answered(g, found, at) =>
      g <= generation && (g == generation ==> loadedAt <= at) && (found.Some? ==> Read(cat, time, found.value, at))
  }

  ghost predicate CallerOk(cat: Catalog, time: nat, generation: nat, loadedAt: nat, flights: map<Key, Id>, callers: map<Id, Caller>, who: Id) {
    who in callers ==>
      && callers[who].key in flights
      && (callers[who].Leading? ==> flights[callers[who].key] == who && MissOk(cat, time, generation, loadedAt, callers[who].miss))
  }

  ghost predicate LoadOk(cat: Catalog, time: nat, loadedAt: nat, refresh: Refresh, id: Id) {
    refresh.Loaded? ==>
      && loadedAt <= refresh.at <= time
      && (id in refresh.groups ==> refresh.groups[id].id == id && Read(cat, time, refresh.groups[id], refresh.at))
  }

  ghost predicate CatalogOk(cat: Catalog, time: nat) {
    && (forall id {:trigger GroupOk(cat, time, id)} :: GroupOk(cat, time, id))
    && (forall a, b {:trigger NamesOk(cat, a, b)} :: NamesOk(cat, a, b))
  }

  ghost predicate EntriesOk(cat: Catalog, time: nat, byID: map<Id, Group>, byName: map<string, Group>, readAt: map<Id, nat>, loadedAt: nat) {
    && (forall id {:trigger EntryOk(cat, time, byID, byName, readAt, loadedAt, id)} :: EntryOk(cat, time, byID, byName, readAt, loadedAt, id))
    && (forall n {:trigger NameOk(byID, byName, n)} :: NameOk(byID, byName, n))
  }

  ghost predicate CallersOk(cat: Catalog, time: nat, generation: nat, loadedAt: nat, flights: map<Key, Id>, callers: map<Id, Caller>) {
    forall who {:trigger CallerOk(cat, time, generation, loadedAt, flights, callers, who)} ::
      CallerOk(cat, time, generation, loadedAt, flights, callers, who)
  }

  ghost predicate LoadsOk(cat: Catalog, time: nat, loadedAt: nat, refresh: Refresh) {
    forall id {:trigger LoadOk(cat, time, loadedAt, refresh, id)} :: LoadOk(cat, time, loadedAt, refresh, id)
  }

  ghost predicate Inv(c: Cache) {
    && CatalogOk(c.catalog, c.time) && EntriesOk(c.catalog, c.time, c.byID, c.byName, c.readAt, c.loadedAt)
    && CallersOk(c.catalog, c.time, c.generation, c.loadedAt, c.flights, c.callers)
    && LoadsOk(c.catalog, c.time, c.loadedAt, c.refresh) && c.loadedAt <= c.time
  }

  // ----- every event keeps them -----

  /** The catalog and the clock move on: what was read stays read. */
  ghost predicate Ages(cat: Catalog, time: nat, cat': Catalog, time': nat) {
    && time <= time'
    && (forall id | id in cat.ever :: id in cat'.ever && cat'.ever[id] == cat.ever[id])
    && (forall id | id in cat'.deletedAt :: if id in cat.deletedAt then cat'.deletedAt[id] == cat.deletedAt[id] else time < cat'.deletedAt[id])
  }

  lemma Aging(c: Cache, cat': Catalog, time': nat)
    requires Inv(c) && Ages(c.catalog, c.time, cat', time') && CatalogOk(cat', time')
    ensures Inv(c.(catalog := cat', time := time'))
  {
    forall id ensures EntryOk(cat', time', c.byID, c.byName, c.readAt, c.loadedAt, id) {
      assert EntryOk(c.catalog, c.time, c.byID, c.byName, c.readAt, c.loadedAt, id);
    }
    forall who ensures CallerOk(cat', time', c.generation, c.loadedAt, c.flights, c.callers, who) {
      assert CallerOk(c.catalog, c.time, c.generation, c.loadedAt, c.flights, c.callers, who);
    }
    forall id ensures LoadOk(cat', time', c.loadedAt, c.refresh, id) { assert LoadOk(c.catalog, c.time, c.loadedAt, c.refresh, id); }
  }

  lemma CreateKeeps(c: Cache, g: Group)
    requires Inv(c)
    ensures Inv(Create(c, g))
  {
    if NewConfig(c.catalog, g) {
      var cat := Create(c, g).catalog;
      forall id ensures GroupOk(cat, c.time, id) { assert GroupOk(c.catalog, c.time, id); }
      forall a, b ensures NamesOk(cat, a, b) { assert NamesOk(c.catalog, a, b); }
      Aging(c, cat, c.time);
    }
  }

  lemma DeleteKeeps(c: Cache, id: Id)
    requires Inv(c)
    ensures Inv(Delete(c, id))
  {
    if c.catalog.Live(id) {
      var cat := Delete(c, id).catalog;
      forall i ensures GroupOk(cat, c.time, i) { assert GroupOk(c.catalog, c.time, i); }
      forall a, b ensures NamesOk(cat, a, b) { assert NamesOk(c.catalog, a, b); }
      Aging(c, cat, c.time);
    }
  }

  lemma TimePasses(c: Cache)
    requires Inv(c)
    ensures Inv(c.(time := c.time + 1))
  {
    var later := c.time + 1;
    forall i ensures GroupOk(c.catalog, later, i) { assert GroupOk(c.catalog, c.time, i); }
    Aging(c, c.catalog, later);
  }

  lemma LoadKeeps(c: Cache)
    requires Inv(c)
    ensures Inv(Load(c))
  {
    if c.refresh.Idle? {
      var c' := Load(c);
      forall id ensures LoadOk(c.catalog, c.time, c.loadedAt, c'.refresh, id) { assert GroupOk(c.catalog, c.time, id); }
    }
  }

  lemma ReplacedEntries(c: Cache)
    requires Inv(c) && c.refresh.Loaded? && NamesDistinct(c.refresh.groups)
    ensures var c' := Replace(c); EntriesOk(c'.catalog, c'.time, c'.byID, c'.byName, c'.readAt, c'.loadedAt)
  {
    var c' := Replace(c);
    forall id ensures EntryOk(c'.catalog, c'.time, c'.byID, c'.byName, c'.readAt, c'.loadedAt, id) {
      assert LoadOk(c.catalog, c.time, c.loadedAt, c.refresh, id);
    }
    forall n ensures NameOk(c'.byID, c'.byName, n) {
      if n in c'.byName {
        var id :| id in c'.byID && c'.byID[id].name == n && c'.byName[n] == c'.byID[id];
        assert LoadOk(c.catalog, c.time, c.loadedAt, c.refresh, id);
      }
    }
  }

  lemma ReplaceKeeps(c: Cache)
    requires Inv(c)
    ensures Inv(Replace(c))
  {
    if c.refresh.Loaded? && NamesDistinct(c.refresh.groups) {
      var c' := Replace(c);
      ReplacedEntries(c);
      assert LoadOk(c.catalog, c.time, c.loadedAt, c.refresh, 0);
      forall who ensures CallerOk(c'.catalog, c'.time, c'.generation, c'.loadedAt, c'.flights, c'.callers, who) {
        assert CallerOk(c.catalog, c.time, c.generation, c.loadedAt, c.flights, c.callers, who);
      }
      forall id ensures LoadOk(c'.catalog, c'.time, c'.loadedAt, c'.refresh, id) {}
    }
  }

  /** A published answer joins both indexes consistently: names are unique over all time. */
  lemma StoredKeeps(c: Cache, g: Group, at: nat)
    requires Inv(c) && Read(c.catalog, c.time, g, at) && c.loadedAt <= at
    ensures Inv(Stored(c, g, at))
  {
    var c' := Stored(c, g, at);
    assert GroupOk(c.catalog, c.time, g.id);
    forall id ensures EntryOk(c'.catalog, c'.time, c'.byID, c'.byName, c'.readAt, c'.loadedAt, id) {
      assert EntryOk(c.catalog, c.time, c.byID, c.byName, c.readAt, c.loadedAt, id) && NamesOk(c.catalog, id, g.id);
    }
    forall n ensures NameOk(c'.byID, c'.byName, n) {
      assert NameOk(c.byID, c.byName, n);
      if n in c.byName && n != g.name {
        assert EntryOk(c.catalog, c.time, c.byID, c.byName, c.readAt, c.loadedAt, c.byName[n].id);
      }
    }
  }

  lemma CallersChange(c: Cache, flights: map<Key, Id>, callers: map<Id, Caller>)
    requires Inv(c) && CallersOk(c.catalog, c.time, c.generation, c.loadedAt, flights, callers)
    ensures Inv(c.(flights := flights, callers := callers))
  {
  }

  lemma LookupKeeps(c: Cache, who: Id, key: Key)
    requires Inv(c)
    ensures Inv(Lookup(c, who, key))
  {
    if who !in c.callers && !Cached(c, key) {
      if key in c.flights {
        var callers := c.callers[who := Following(key)];
        forall w ensures CallerOk(c.catalog, c.time, c.generation, c.loadedAt, c.flights, callers, w) {
          assert CallerOk(c.catalog, c.time, c.generation, c.loadedAt, c.flights, c.callers, w);
        }
        CallersChange(c, c.flights, callers);
      } else {
        LeadKeeps(c, who, key);
      }
    }
  }

  lemma LeadKeeps(c: Cache, who: Id, key: Key)
    requires Inv(c) && who !in c.callers && key !in c.flights
    ensures Inv(c.(flights := c.flights[key := who], callers := c.callers[who := Leading(key, Fresh)]))
  {
    var flights, callers := c.flights[key := who], c.callers[who := Leading(key, Fresh)];
    forall w ensures CallerOk(c.catalog, c.time, c.generation, c.loadedAt, flights, callers, w) {
      assert CallerOk(c.catalog, c.time, c.generation, c.loadedAt, c.flights, c.callers, w);
    }
    CallersChange(c, flights, callers);
  }

  lemma EndFlightKeeps(c: Cache, who: Id)
    requires Inv(c)
    ensures Inv(EndFlight(c, who))
  {
    var c' := EndFlight(c, who);
    assert CallerOk(c.catalog, c.time, c.generation, c.loadedAt, c.flights, c.callers, who);
    forall w ensures CallerOk(c.catalog, c.time, c.generation, c.loadedAt, c'.flights, c'.callers, w) {
      assert CallerOk(c.catalog, c.time, c.generation, c.loadedAt, c.flights, c.callers, w);
    }
    CallersChange(c, c'.flights, c'.callers);
  }

  lemma MissChange(c: Cache, who: Id, miss: Miss)
    requires Inv(c) && Leads(c, who) && MissOk(c.catalog, c.time, c.generation, c.loadedAt, miss)
    ensures Inv(c.(callers := c.callers[who := c.callers[who].(miss := miss)]))
  {
    var callers := c.callers[who := c.callers[who].(miss := miss)];
    forall w ensures CallerOk(c.catalog, c.time, c.generation, c.loadedAt, c.flights, callers, w) {
      assert CallerOk(c.catalog, c.time, c.generation, c.loadedAt, c.flights, c.callers, w);
    }
    CallersChange(c, c.flights, callers);
  }

  lemma MissKeeps(c: Cache, who: Id, found: Option<Group>)
    requires Inv(c)
    ensures Inv(Ask(c, who)) && Inv(Answer(c, who, found)) && Inv(Publish(c, who))
  {
    assert CallerOk(c.catalog, c.time, c.generation, c.loadedAt, c.flights, c.callers, who);
    EndFlightKeeps(c, who);
    if Leads(c, who) {
      match c.callers[who].miss
      case Fresh => MissChange(c, who, Asking(c.generation));
      case Asking(g) =>
        if found.Some? && c.catalog.Live(found.value.id) { assert GroupOk(c.catalog, c.time, found.value.id); }
        if Answer(c, who, found) != c { MissChange(c, who, Answered(g, found, c.time)); }
      case Answered(g, f, at) =>
        if g != c.generation {
          MissChange(c, who, Fresh);
        } else if f.Some? {
          StoredKeeps(c, f.value, at);
          EndFlightKeeps(Stored(c, f.value, at), who);
        }
    }
  }

  lemma StepKeeps(c: Cache, ev: Event)
    requires Inv(c)
    ensures Inv(Next(c, ev))
  {
    match ev {
      case ECreate(g) => CreateKeeps(c, g);
      case EDelete(id) => DeleteKeeps(c, id);
      case ELoad => LoadKeeps(c);
      case EReplace => ReplaceKeeps(c);
      case EObserve => RefreshEnds(c);
      case EEndRefresh => RefreshEnds(c);
      case EMiss(who, key) => LookupKeeps(c, who, key);
      case EAsk(who) => MissKeeps(c, who, None);
      case EAnswer(who, found) => MissKeeps(c, who, found);
      case EPublish(who) => MissKeeps(c, who, None);
      case EGiveUp(who) => EndFlightKeeps(c, who);
    }
    assert Step(c, ev).time == c.time;
    TimePasses(Step(c, ev));
  }

  lemma RefreshEnds(c: Cache)
    requires Inv(c)
    ensures Inv(Observe(c)) && Inv(EndRefresh(c))
  {
    forall r: Refresh, id | !r.Loaded? ensures LoadOk(c.catalog, c.time, c.loadedAt, r, id) {}
  }

  lemma {:induction false} RunKeeps(c: Cache, events: seq<Event>)
    requires Inv(c)
    ensures Inv(Run(c, events))
    decreases |events|
  {
    if events != [] {
      StepKeeps(c, events[0]);
      RunKeeps(Next(c, events[0]), events[1..]);
    }
  }

  // ----- what callers may rely on -----

  ghost predicate Reachable(c: Cache) { exists events: seq<Event> :: c == Run(EMPTY, events) }

  lemma ReachableOk(c: Cache)
    requires Reachable(c)
    ensures Inv(c)
  {
    var events: seq<Event> :| c == Run(EMPTY, events);
    assert Inv(EMPTY);
    RunKeeps(EMPTY, events);
  }

  /** The indexes are mirror images, and every entry was read, undeleted, no earlier than the
      current snapshot's load. */
  lemma IndexesMirror(c: Cache)
    requires Reachable(c)
    ensures forall id | id in c.byID :: c.byID[id].id == id && c.byID[id].name in c.byName && c.byName[c.byID[id].name] == c.byID[id]
    ensures forall n | n in c.byName :: c.byName[n].name == n && c.byName[n].id in c.byID && c.byID[c.byName[n].id] == c.byName[n]
    ensures forall id | id in c.byID :: id in c.readAt && c.loadedAt <= c.readAt[id] && Read(c.catalog, c.time, c.byID[id], c.readAt[id])
  {
    ReachableOk(c);
    forall id | id in c.byID ensures EntryOk(c.catalog, c.time, c.byID, c.byName, c.readAt, c.loadedAt, id) {}
    forall n | n in c.byName ensures NameOk(c.byID, c.byName, n) {}
  }

  lemma LoadsAdvance(c: Cache, ev: Event)
    requires Inv(c)
    ensures c.loadedAt <= Next(c, ev).loadedAt
    ensures forall id | id in c.catalog.deletedAt :: id in Next(c, ev).catalog.deletedAt && Next(c, ev).catalog.deletedAt[id] == c.catalog.deletedAt[id]
  {
    assert LoadOk(c.catalog, c.time, c.loadedAt, c.refresh, 0);
    DeletionsStay(c, ev);
  }

  lemma DeletionsStay(c: Cache, ev: Event)
    ensures forall id | id in c.catalog.deletedAt :: id in Next(c, ev).catalog.deletedAt && Next(c, ev).catalog.deletedAt[id] == c.catalog.deletedAt[id]
  {
  }

  lemma DeletedIsGone(c: Cache, id: Id)
    requires Inv(c) && id in c.catalog.deletedAt && c.catalog.deletedAt[id] <= c.loadedAt
    ensures id !in c.byID && forall n | n in c.byName :: c.byName[n].id != id
  {
    assert EntryOk(c.catalog, c.time, c.byID, c.byName, c.readAt, c.loadedAt, id);
    forall n | n in c.byName ensures c.byName[n].id != id { assert NameOk(c.byID, c.byName, n); }
  }

  /** A group deleted before a completed refresh's load never reappears, whatever misses are
      still in flight. */
  lemma {:induction false} NoResurrection(c: Cache, events: seq<Event>, id: Id)
    requires Inv(c) && id in c.catalog.deletedAt && c.catalog.deletedAt[id] <= c.loadedAt
    ensures id !in Run(c, events).byID && forall n | n in Run(c, events).byName :: Run(c, events).byName[n].id != id
    decreases |events|
  {
    DeletedIsGone(c, id);
    if events != [] {
      StepKeeps(c, events[0]);
      LoadsAdvance(c, events[0]);
      NoResurrection(Next(c, events[0]), events[1..], id);
    }
  }

  predicate Querying(c: Cache, who: Id, key: Key) {
    who in c.callers && c.callers[who].key == key && c.callers[who].Leading? && !c.callers[who].miss.Fresh?
  }

  /** At most one source query per key is outstanding. */
  lemma OneQueryPerKey(c: Cache, a: Id, b: Id, key: Key)
    requires Reachable(c) && Querying(c, a, key) && Querying(c, b, key)
    ensures a == b
  {
    ReachableOk(c);
    assert CallerOk(c.catalog, c.time, c.generation, c.loadedAt, c.flights, c.callers, a);
    assert CallerOk(c.catalog, c.time, c.generation, c.loadedAt, c.flights, c.callers, b);
  }
}
