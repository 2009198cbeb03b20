/** The connection pool over the group cache. Connections are numbered as they are created. Whoever
    takes one out of the pool, or fails to put one in, keeps it in a local variable and closes it;
    nothing checks whether it was closed before. */
module GroupClients {
  import opened Base
  import opened GroupCache

  datatype Conn = Conn(serial: nat, group: Group)

  /** A caller constructing a client: with an outdated connection still to close, before and after
      the factory call, with its own refused connection still to close, and with the outcome still
      to be announced. */
  datatype Borrower =
    | Dropping(group: Group, serial: nat) | Creating(group: Group) | Built(group: Group, serial: nat)
    | Discarding(group: Group, serial: nat) | Ending(group: Group)
  {
    predicate Constructs() { Dropping? || Creating? || Built? }
  }

  /** `observed` holds what the refresh observer has removed and not yet closed, while it is called,
      and `closing` the same for Close. `home` and `closes` are history: where each connection is,
      and how often it was closed. */
  datatype Pool = Pool(
    cache: Cache, closed: bool, clients: map<Id, Conn>, creations: map<Id, Id>, borrowers: map<Id, Borrower>,
    observed: Option<map<Id, Conn>>, closing: map<Id, Conn>, next: nat, home: map<nat, Place>, closes: multiset<nat>)

  /** Where a connection can be. */
  datatype Place = InPool(id: Id) | WithBorrower(who: Id) | WithObserver(id: Id) | WithCloser(id: Id) | Gone

  const NEW_POOL := Pool(EMPTY, false, map[], map[], map[], None, map[], 0, map[], multiset{})

  // ----- sections -----

  predicate Usable(p: Pool, group: Group) { !p.closed && Contains(p.cache, group) }

  predicate Starts(p: Pool, who: Id, group: Group) {
    && who !in p.borrowers && Usable(p, group) && group.id !in p.creations
    && !(group.id in p.clients && p.clients[group.id].group == group)
  }

  /** The section after the cache lookup: reuse, wait, or start a construction and take an outdated
      client out. */
  function Borrow(p: Pool, who: Id, group: Group): Pool {
    if !Starts(p, who, group) then p
    else
      var q := p.(creations := p.creations[group.id := who]);
      if group.id in p.clients then
        var outdated := p.clients[group.id].serial;
        q.(clients := p.clients - {group.id}, borrowers := p.borrowers[who := Dropping(group, outdated)], home := p.home[outdated := WithBorrower(who)])
      else q.(borrowers := p.borrowers[who := Creating(group)])
  }

  /** What the factory returned: a connection, an incomplete one that must be closed, or nothing. */
  datatype Made = Whole | Partial | Nothing

  function Build(p: Pool, who: Id, made: Made): Pool {
    if who in p.borrowers && p.borrowers[who].Creating? then
      var group := p.borrowers[who].group;
      if made.Nothing? then p.(borrowers := p.borrowers[who := Ending(group)])
      else
        var b := if made.Whole? then Built(group, p.next) else Discarding(group, p.next);
        p.(borrowers := p.borrowers[who := b], home := p.home[p.next := WithBorrower(who)], next := p.next + 1)
    else p
  }

  predicate Installs(p: Pool, who: Id, live: bool) {
    who in p.borrowers && p.borrowers[who].Built? && live && Usable(p, p.borrowers[who].group)
  }

  /** Publish the built client, or keep it for closing. */
  function Install(p: Pool, who: Id, live: bool): Pool {
    if who in p.borrowers && p.borrowers[who].Built? then
      var group, serial := p.borrowers[who].group, p.borrowers[who].serial;
      if Installs(p, who, live) then
        p.(clients := p.clients[group.id := Conn(serial, group)], borrowers := p.borrowers[who := Ending(group)],
           home := p.home[serial := InPool(group.id)])
      else p.(borrowers := p.borrowers[who := Discarding(group, serial)])
    else p
  }

  function Announce(p: Pool, who: Id): Pool {
    if who in p.borrowers && p.borrowers[who].Ending? then
      p.(creations := p.creations - {p.borrowers[who].group.id}, borrowers := p.borrowers - {who})
    else p
  }

  /** The refresh observer takes out the clients whose groups are gone. */
  function Sweep(p: Pool): Pool {
    if p.cache.refresh.Replaced? && p.observed.None? then
      var gone := map id | id in p.clients && !Contains(p.cache, p.clients[id].group) :: p.clients[id];
      p.(clients := p.clients - gone.Keys, observed := Some(gone),
         home := map s | s in p.home :: if p.home[s].InPool? && p.home[s].id in gone then WithObserver(p.home[s].id) else p.home[s])
    else p
  }

  function Observed(p: Pool): Pool {
    if p.observed == Some(map[]) then p.(observed := None, cache := Observe(p.cache)) else p
  }

  /** Close runs once and takes everything out. */
  function Close(p: Pool): Pool {
    if p.closed then p
    else p.(closed := true, clients := map[], closing := p.clients,
            home := map s | s in p.home :: if p.home[s].InPool? then WithCloser(p.home[s].id) else p.home[s])
  }

  // ----- closing what one holds -----

  function Shut(p: Pool, serial: nat): Pool { p.(home := p.home[serial := Gone], closes := p.closes + multiset{serial}) }

  function BorrowerShuts(p: Pool, who: Id): Pool {
    if who in p.borrowers && p.borrowers[who].Dropping? then
      Shut(p, p.borrowers[who].serial).(borrowers := p.borrowers[who := Creating(p.borrowers[who].group)])
    else if who in p.borrowers && p.borrowers[who].Discarding? then
      Shut(p, p.borrowers[who].serial).(borrowers := p.borrowers[who := Ending(p.borrowers[who].group)])
    else p
  }

  function ObserverShuts(p: Pool, id: Id): Pool {
    if p.observed.Some? && id in p.observed.value then
      Shut(p, p.observed.value[id].serial).(observed := Some(p.observed.value - {id}))
    else p
  }

  function CloserShuts(p: Pool, id: Id): Pool {
    if id in p.closing then Shut(p, p.closing[id].serial).(closing := p.closing - {id}) else p
  }

  // ----- runs -----

  datatype PoolEvent =
    | OnCache(ev: Event) | EBorrow(who: Id, group: Group) | EBuild(who: Id, made: Made) | EInstall(who: Id, live: bool)
    | EAnnounce(who: Id) | ESweep | EObserved | EClose | EBorrowerShuts(who: Id) | EObserverShuts(id: Id) | ECloserShuts(id: Id)

  /** A refresh ends its observers only through the pool's observer, or without it once the
      pool has unsubscribed. */
  ghost function NextPool(p: Pool, ev: PoolEvent): Pool {
    match ev
    case OnCache(e) => if e.EObserve? && (!p.closed || p.observed.Some?) then p else p.(cache := Next(p.cache, e))
    case EBorrow(who, group) => Borrow(p, who, group)
    case EBuild(who, made) => Build(p, who, made)
    case EInstall(who, live) => Install(p, who, live)
    case EAnnounce(who) => Announce(p, who)
    case ESweep => Sweep(p)
    case EObserved => Observed(p)
    case EClose => Close(p)
    case EBorrowerShuts(who) => BorrowerShuts(p, who)
    case EObserverShuts(id) => ObserverShuts(p, id)
    case ECloserShuts(id) => CloserShuts(p, id)
  }

  ghost function RunPool(p: Pool, events: seq<PoolEvent>): Pool
    decreases |events|
  {
    if events == [] then p else RunPool(NextPool(p, events[0]), events[1..])
  }

  // ----- invariants -----

  /** The connection a place holds. */
  function Holds(p: Pool, at: Place): Option<nat> {
    match at
    case InPool(id) => if id in p.clients then Some(p.clients[id].serial) else None
    case WithBorrower(who) =>
      if who in p.borrowers && !p.borrowers[who].Creating? && !p.borrowers[who].Ending? then Some(p.borrowers[who].serial) else None
    case WithObserver(id) => if p.observed.Some? && id in p.observed.value then Some(p.observed.value[id].serial) else None
    case WithCloser(id) => if id in p.closing then Some(p.closing[id].serial) else None
    case Gone => None
  }

  ghost predicate PlaceOk(p: Pool, at: Place) {
    Holds(p, at).Some? ==> Holds(p, at).value in p.home && p.home[Holds(p, at).value] == at
  }

  ghost predicate SerialOk(p: Pool, s: nat) {
    && (s in p.home <==> s < p.next)
    && p.closes[s] == (if s in p.home && p.home[s].Gone? then 1 else 0)
    && (s in p.home && !p.home[s].Gone? ==> Holds(p, p.home[s]) == Some(s))
  }

  ghost predicate PlacesOk(p: Pool) {
    (forall at {:trigger PlaceOk(p, at)} :: PlaceOk(p, at)) && forall s: nat {:trigger SerialOk(p, s)} :: SerialOk(p, s)
  }

  /** Once the observer has swept, and whenever none is due, installed clients are current. */
  ghost predicate ClientOk(p: Pool, id: Id) {
    id in p.clients ==>
      && !p.closed && p.clients[id].group.id == id
      && (!p.cache.refresh.Replaced? || p.observed.Some? ==> Contains(p.cache, p.clients[id].group))
  }

  ghost predicate BorrowerOk(p: Pool, who: Id) {
    who in p.borrowers ==>
      && p.borrowers[who].group.id in p.creations && p.creations[p.borrowers[who].group.id] == who
      && (p.borrowers[who].Constructs() ==> p.borrowers[who].group.id !in p.clients)
  }

  ghost predicate PoolInv(p: Pool) {
    && Inv(p.cache) && PlacesOk(p) && (p.observed.Some? ==> p.cache.refresh.Replaced?) && (p.closing != map[] ==> p.closed)
    && (forall id {:trigger ClientOk(p, id)} :: ClientOk(p, id))
    && (forall who {:trigger BorrowerOk(p, who)} :: BorrowerOk(p, who))
  }

  // ----- every event keeps them -----

  /** Short of a replacement, an entry of the cache stays what it is. */
  lemma EntriesStay(c: Cache, ev: Event, g: Group)
    requires Inv(c) && Contains(c, g) && (Next(c, ev).refresh.Replaced? ==> c.refresh.Replaced?)
    ensures Contains(Next(c, ev), g)
  {
    if ev.EPublish? && Leads(c, ev.who) {
      assert CallerOk(c.catalog, c.time, c.generation, c.loadedAt, c.flights, c.callers, ev.who);
      assert EntryOk(c.catalog, c.time, c.byID, c.byName, c.readAt, c.loadedAt, g.id);
    }
  }

  /** Outside its own end, a pending observation stays pending. */
  lemma StillReplaced(c: Cache, ev: Event)
    requires c.refresh.Replaced? && !ev.EObserve?
    ensures Next(c, ev).refresh.Replaced?
  {
  }

  lemma CacheKeeps(p: Pool, ev: Event)
    requires PoolInv(p) && (ev.EObserve? ==> p.closed && p.observed.None?)
    ensures PoolInv(p.(cache := Next(p.cache, ev)))
  {
    var q := p.(cache := Next(p.cache, ev));
    StepKeeps(p.cache, ev);
    if p.cache.refresh.Replaced? && !ev.EObserve? { StillReplaced(p.cache, ev); }
    forall at ensures PlaceOk(q, at) { assert PlaceOk(p, at); }
    forall s: nat ensures SerialOk(q, s) { assert SerialOk(p, s); }
    forall w ensures BorrowerOk(q, w) { assert BorrowerOk(p, w); }
    forall id ensures ClientOk(q, id) {
      assert ClientOk(p, id);
      if id in p.clients && (!q.cache.refresh.Replaced? || q.observed.Some?) { EntriesStay(p.cache, ev, p.clients[id].group); }
    }
  }

  lemma BorrowPlaces(p: Pool, who: Id, group: Group)
    requires PlacesOk(p)
    ensures PlacesOk(Borrow(p, who, group))
  {
    var q := Borrow(p, who, group);
    assert PlaceOk(p, InPool(group.id));
    forall at ensures PlaceOk(q, at) { assert PlaceOk(p, at); }
    forall s: nat ensures SerialOk(q, s) { BorrowSerial(p, who, group, s); }
  }

  lemma BorrowSerial(p: Pool, who: Id, group: Group, s: nat)
    requires PlacesOk(p)
    ensures SerialOk(Borrow(p, who, group), s)
  {
    assert SerialOk(p, s) && PlaceOk(p, InPool(group.id));
  }

  lemma BorrowKeeps(p: Pool, who: Id, group: Group)
    requires PoolInv(p)
    ensures PoolInv(Borrow(p, who, group))
  {
    var q := Borrow(p, who, group);
    BorrowPlaces(p, who, group);
    forall id ensures ClientOk(q, id) { assert ClientOk(p, id); }
    forall w ensures BorrowerOk(q, w) { assert BorrowerOk(p, w); }
  }

  lemma BuildPlaces(p: Pool, who: Id, made: Made)
    requires PlacesOk(p)
    ensures PlacesOk(Build(p, who, made))
  {
    var q := Build(p, who, made);
    assert SerialOk(p, p.next);
    forall at ensures PlaceOk(q, at) { assert PlaceOk(p, at); }
    forall s: nat ensures SerialOk(q, s) { assert SerialOk(p, s); }
  }

  lemma BuildKeeps(p: Pool, who: Id, made: Made)
    requires PoolInv(p)
    ensures PoolInv(Build(p, who, made))
  {
    var q := Build(p, who, made);
    BuildPlaces(p, who, made);
    forall id ensures ClientOk(q, id) { assert ClientOk(p, id); }
    forall w ensures BorrowerOk(q, w) { assert BorrowerOk(p, w); }
  }

  lemma InstallPlaces(p: Pool, who: Id, live: bool)
    requires PlacesOk(p) && (Installs(p, who, live) ==> p.borrowers[who].group.id !in p.clients)
    ensures PlacesOk(Install(p, who, live))
  {
    var q := Install(p, who, live);
    assert PlaceOk(p, WithBorrower(who));
    forall at ensures PlaceOk(q, at) { assert PlaceOk(p, at); }
    forall s: nat ensures SerialOk(q, s) { assert SerialOk(p, s); }
  }

  lemma InstallKeeps(p: Pool, who: Id, live: bool)
    requires PoolInv(p)
    ensures PoolInv(Install(p, who, live))
  {
    var q := Install(p, who, live);
    assert BorrowerOk(p, who);
    InstallPlaces(p, who, live);
    forall id ensures ClientOk(q, id) { assert ClientOk(p, id); }
    forall w ensures BorrowerOk(q, w) { assert BorrowerOk(p, w); }
  }

  lemma AnnounceKeeps(p: Pool, who: Id)
    requires PoolInv(p)
    ensures PoolInv(Announce(p, who))
  {
    var q := Announce(p, who);
    assert BorrowerOk(p, who);
    forall at ensures PlaceOk(q, at) { assert PlaceOk(p, at); }
    forall s: nat ensures SerialOk(q, s) { assert SerialOk(p, s); }
    forall id ensures ClientOk(q, id) { assert ClientOk(p, id); }
    forall w ensures BorrowerOk(q, w) { assert BorrowerOk(p, w); }
  }

  lemma SweepPlaces(p: Pool)
    requires PlacesOk(p)
    ensures PlacesOk(Sweep(p))
  {
    forall at ensures PlaceOk(Sweep(p), at) { SweepPlace(p, at); }
    forall s: nat ensures SerialOk(Sweep(p), s) { SweepSerial(p, s); }
  }

  lemma SweepPlace(p: Pool, at: Place)
    requires PlacesOk(p)
    ensures PlaceOk(Sweep(p), at)
  {
    assert PlaceOk(p, at);
    if at.WithObserver? { assert PlaceOk(p, InPool(at.id)); }
  }

  lemma SweepSerial(p: Pool, s: nat)
    requires PlacesOk(p)
    ensures SerialOk(Sweep(p), s)
  {
    assert SerialOk(p, s);
  }

  lemma SweepKeeps(p: Pool)
    requires PoolInv(p)
    ensures PoolInv(Sweep(p))
  {
    var q := Sweep(p);
    SweepPlaces(p);
    forall id ensures ClientOk(q, id) { assert ClientOk(p, id); }
    forall w ensures BorrowerOk(q, w) { assert BorrowerOk(p, w); }
  }

  lemma ObservedKeeps(p: Pool)
    requires PoolInv(p)
    ensures PoolInv(Observed(p))
  {
    var q := Observed(p);
    RefreshEnds(p.cache);
    forall at ensures PlaceOk(q, at) { assert PlaceOk(p, at); }
    forall s: nat ensures SerialOk(q, s) { assert SerialOk(p, s); }
    forall id ensures ClientOk(q, id) { assert ClientOk(p, id); }
    forall w ensures BorrowerOk(q, w) { assert BorrowerOk(p, w); }
  }

  lemma CloseKeeps(p: Pool)
    requires PoolInv(p)
    ensures PoolInv(Close(p))
  {
    var q := Close(p);
    forall at ensures PlaceOk(q, at) {
      assert PlaceOk(p, at);
      if at.WithCloser? { assert PlaceOk(p, InPool(at.id)); }
    }
    forall s: nat ensures SerialOk(q, s) { assert SerialOk(p, s); }
    forall id ensures ClientOk(q, id) { assert ClientOk(p, id); }
    forall w ensures BorrowerOk(q, w) { assert BorrowerOk(p, w); }
  }

  /** What a step that closes does: one place, which held a connection, holds it no longer. */
  ghost predicate Shuts(p: Pool, q: Pool, at: Place) {
    && Holds(p, at).Some? && Holds(q, at).None? && (forall other | other != at :: Holds(q, other) == Holds(p, other))
    && q.next == p.next && q.home == p.home[Holds(p, at).value := Gone] && q.closes == p.closes + multiset{Holds(p, at).value}
  }

  lemma ShutKeepsPlaces(p: Pool, q: Pool, at: Place)
    requires PlacesOk(p) && Shuts(p, q, at)
    ensures PlacesOk(q)
  {
    assert PlaceOk(p, at);
    forall other ensures PlaceOk(q, other) { assert PlaceOk(p, other); }
    forall s: nat ensures SerialOk(q, s) { assert SerialOk(p, s); }
  }

  lemma BorrowerShutsPlaces(p: Pool, who: Id)
    requires PlacesOk(p)
    ensures PlacesOk(BorrowerShuts(p, who))
  {
    var q := BorrowerShuts(p, who);
    if q != p { ShutKeepsPlaces(p, q, WithBorrower(who)); }
  }

  lemma BorrowerShutsKeeps(p: Pool, who: Id)
    requires PoolInv(p)
    ensures PoolInv(BorrowerShuts(p, who))
  {
    var q := BorrowerShuts(p, who);
    BorrowerShutsPlaces(p, who);
    forall id ensures ClientOk(q, id) { assert ClientOk(p, id); }
    forall w ensures BorrowerOk(q, w) { assert BorrowerOk(p, w); }
  }

  lemma ObserverShutsPlaces(p: Pool, id: Id)
    requires PlacesOk(p)
    ensures PlacesOk(ObserverShuts(p, id))
  {
    var q := ObserverShuts(p, id);
    if q != p { ShutKeepsPlaces(p, q, WithObserver(id)); }
  }

  lemma ObserverShutsKeeps(p: Pool, id: Id)
    requires PoolInv(p)
    ensures PoolInv(ObserverShuts(p, id))
  {
    var q := ObserverShuts(p, id);
    ObserverShutsPlaces(p, id);
    forall i ensures ClientOk(q, i) { assert ClientOk(p, i); }
    forall w ensures BorrowerOk(q, w) { assert BorrowerOk(p, w); }
  }

  lemma CloserShutsPlaces(p: Pool, id: Id)
    requires PlacesOk(p)
    ensures PlacesOk(CloserShuts(p, id))
  {
    var q := CloserShuts(p, id);
    if q != p { ShutKeepsPlaces(p, q, WithCloser(id)); }
  }

  lemma CloserShutsKeeps(p: Pool, id: Id)
    requires PoolInv(p)
    ensures PoolInv(CloserShuts(p, id))
  {
    var q := CloserShuts(p, id);
    CloserShutsPlaces(p, id);
    forall i ensures ClientOk(q, i) { assert ClientOk(p, i); }
    forall w ensures BorrowerOk(q, w) { assert BorrowerOk(p, w); }
  }

  lemma PoolStepKeeps(p: Pool, ev: PoolEvent)
    requires PoolInv(p)
    ensures PoolInv(NextPool(p, ev))
  {
    match ev
    case OnCache(e) => if !(e.EObserve? && (!p.closed || p.observed.Some?)) { CacheKeeps(p, e); }
    case EBorrow(who, group) => BorrowKeeps(p, who, group);
    case EBuild(who, made) => BuildKeeps(p, who, made);
    case EInstall(who, live) => InstallKeeps(p, who, live);
    case EAnnounce(who) => AnnounceKeeps(p, who);
    case ESweep => SweepKeeps(p);
    case EObserved => ObservedKeeps(p);
    case EClose => CloseKeeps(p);
    case EBorrowerShuts(who) => BorrowerShutsKeeps(p, who);
    case EObserverShuts(id) => ObserverShutsKeeps(p, id);
    case ECloserShuts(id) => CloserShutsKeeps(p, id);
  }

  lemma {:induction false} PoolRunKeeps(p: Pool, events: seq<PoolEvent>)
    requires PoolInv(p)
    ensures PoolInv(RunPool(p, events))
    decreases |events|
  {
    if events != [] {
      PoolStepKeeps(p, events[0]);
      PoolRunKeeps(NextPool(p, events[0]), events[1..]);
    }
  }

  ghost predicate PoolReachable(p: Pool) { exists events: seq<PoolEvent> :: p == RunPool(NEW_POOL, events) }

  lemma PoolReachableOk(p: Pool)
    requires PoolReachable(p)
    ensures PoolInv(p)
  {
    var events: seq<PoolEvent> :| p == RunPool(NEW_POOL, events);
    assert PoolInv(NEW_POOL);
    PoolRunKeeps(NEW_POOL, events);
  }

  // ----- what the pool promises -----

  /** From the observer's sweep until the next replacement, the group of every installed client is
      cached; after Close nothing is installed. */
  lemma ClientsAreCurrent(p: Pool, id: Id)
    requires PoolReachable(p) && id in p.clients
    ensures !p.closed && p.clients[id].group.id == id
    ensures !p.cache.refresh.Replaced? || p.observed.Some? ==> Contains(p.cache, p.clients[id].group)
  {
    PoolReachableOk(p);
    assert ClientOk(p, id);
  }

  /** Installation never overwrites a live connection. */
  lemma InstallIsFresh(p: Pool, who: Id, live: bool)
    requires PoolReachable(p) && Installs(p, who, live)
    ensures p.borrowers[who].group.id !in p.clients
  {
    PoolReachableOk(p);
    assert BorrowerOk(p, who);
  }

  /** A connection is in at most one place, and nowhere once it was closed; it is closed at most
      once, and one that was created and not closed is somewhere. */
  lemma ConnectionsHaveOneOwner(p: Pool, s: nat)
    requires PoolReachable(p)
    ensures forall a, b | Holds(p, a) == Some(s) == Holds(p, b) :: a == b
    ensures p.closes[s] <= 1
    ensures s < p.next ==> (p.closes[s] == 1 <==> forall at :: Holds(p, at) != Some(s))
    ensures p.next <= s ==> p.closes[s] == 0 && forall at :: Holds(p, at) != Some(s)
  {
    PoolReachableOk(p);
    assert SerialOk(p, s);
    forall a, b | Holds(p, a) == Some(s) == Holds(p, b) ensures a == b { assert PlaceOk(p, a) && PlaceOk(p, b); }
    forall at | Holds(p, at) == Some(s) ensures s in p.home && p.home[s] == at { assert PlaceOk(p, at); }
  }

  /** When nobody has anything left to close, every created connection that is neither installed nor
      with the caller that has just built it was closed exactly once. */
  lemma EverythingClosedOnce(p: Pool, s: nat)
    requires PoolReachable(p) && s < p.next
    requires forall who | who in p.borrowers :: !p.borrowers[who].Dropping? && !p.borrowers[who].Discarding?
    requires (p.observed.Some? ==> p.observed.value == map[]) && p.closing == map[]
    ensures (exists id | id in p.clients :: p.clients[id].serial == s)
         || (exists who | who in p.borrowers :: p.borrowers[who].Built? && p.borrowers[who].serial == s)
         || p.closes[s] == 1
  {
    PoolReachableOk(p);
    assert SerialOk(p, s);
    match p.home[s]
    case InPool(id) => assert p.clients[id].serial == s;
    case WithBorrower(who) => assert p.borrowers[who].Built?;
    case WithObserver(_) => assert false;
    case WithCloser(_) => assert false;
    case Gone =>
  }

  /** After Close, once its callers, the observer and Close itself have returned, every connection
      ever created was closed exactly once. */
  lemma NothingLeaks(p: Pool, s: nat)
    requires PoolReachable(p) && p.closed && p.borrowers == map[] && p.observed.None? && p.closing == map[]
    ensures p.closes[s] == if s < p.next then 1 else 0
  {
    ConnectionsHaveOneOwner(p, s);
    if s < p.next {
      EverythingClosedOnce(p, s);
      if id :| id in p.clients && p.clients[id].serial == s { ClientsAreCurrent(p, id); }
    }
  }
}
