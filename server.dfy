/**
 * The interaction-recording service: the `POST /api/interactions` handler and
 * the start-up seeding of the platform state row, as transitions of an
 * abstract store holding the state row and the interaction rows.
 */
module Server {
  import opened Wrappers
  import opened Growth

  /** Id the handler reads and updates the state row by. */
  const StateRowId: int := 1

  /** Version written into a freshly seeded state row. */
  const SeedVersion: string := "1.0.3"

  /** Error message when no state row with id 1 is found. */
  const StateNotFound: string := "Platform state not found"

  /** Error message raised when the request body carries no `coordinates` object. */
  const MissingCoordinates: string := "Cannot read properties of undefined (reading 'x')"

  datatype Coordinates = Coordinates(x: int, y: int)

  /** A request body; absent `coordinates` and `timestamp` are `None`. */
  datatype InteractionRequest = InteractionRequest(
    kind: string,
    coordinates: Option<Coordinates>,
    sessionId: string,
    timestamp: Option<string>)

  /** A row of `user_interactions`. */
  datatype InteractionRow = InteractionRow(
    id: int,
    kind: string,
    x: int,
    y: int,
    sessionId: string,
    createdAt: string)

  /** The row of `platform_state`; `totalInteractions` may be null. */
  datatype StateRow = StateRow(
    id: int,
    version: string,
    totalInteractions: Option<int>,
    growthLevel: int,
    lastUpdated: string)

  /** The store: at most one state row, and the interaction rows in insertion order. */
  datatype Store = Store(state: Option<StateRow>, interactions: seq<InteractionRow>)

  /**
   * What the store does during one request: the error each call reports, if
   * any, the id it gives the inserted row, and the current time. The handler
   * reads the clock twice, once for `created_at` and once for `last_updated`;
   * both reads are taken to give the same `now`.
   */
  datatype StoreCalls = StoreCalls(
    insertError: Option<string>,
    fetchError: Option<string>,
    updateError: Option<string>,
    insertedId: int,
    now: string)

  /** The handler's answer: status 200 with `success: true`, or status 500 with `success: false`. */
  datatype Response =
    | Recorded(interactionId: int, growthLevel: int, totalInteractions: int)
    | Failed(error: string)

  /** A stored total, with a null total counted as zero (JavaScript's `|| 0`). */
  function StoredTotal(total: Option<int>): (t: int)
    ensures t == 0 <==> total == None || total == Some(0)
    ensures total.Some? ==> t == total.value
  {
    match total
    case None => 0
    case Some(t) => t
  }

  /** The interaction row a request inserts; an absent or empty timestamp becomes the current time. */
  function RowFor(req: InteractionRequest, calls: StoreCalls): (row: InteractionRow)
    requires req.coordinates.Some?
    ensures row.kind == req.kind && row.sessionId == req.sessionId && row.id == calls.insertedId
    ensures row.x == req.coordinates.value.x && row.y == req.coordinates.value.y
    ensures row.createdAt == (if req.timestamp.Some? && req.timestamp.value != "" then req.timestamp.value else calls.now)
  {
    var c := req.coordinates.value;
    var createdAt := match req.timestamp
      case Some(t) => if t != "" then t else calls.now
      case None => calls.now;
    InteractionRow(calls.insertedId, req.kind, c.x, c.y, req.sessionId, createdAt)
  }

  /** The handler finds the state row: a row with id 1 exists. */
  predicate StateFound(store: Store): (b: bool)
    ensures b <==> exists row :: store.state == Some(row) && row.id == StateRowId
  {
    store.state.Some? && store.state.value.id == StateRowId
  }

  /**
   * One `POST /api/interactions` request: insert the interaction row, fetch the
   * state row, compute the new total and growth level, write them back and
   * answer with them. The first failing step ends the request with a 500.
   */
  function RecordInteraction(store: Store, req: InteractionRequest, calls: StoreCalls): (r: (Response, Store))
    ensures r.0.Recorded? <==>
      req.coordinates.Some? && calls.insertError.None? && calls.fetchError.None? &&
      StateFound(store) && calls.updateError.None?
    ensures r.0.Recorded? ==>
      var total := StoredTotal(store.state.value.totalInteractions) + 1;
      && r.0.totalInteractions == total
      && r.0.growthLevel == Level(total)
      && r.0.interactionId == calls.insertedId
      && r.1.state == Some(store.state.value.(
           totalInteractions := Some(r.0.totalInteractions),
           growthLevel := r.0.growthLevel,
           lastUpdated := calls.now))
    ensures r.0.Failed? ==> r.1.state == store.state
    ensures r.1.interactions == store.interactions ||
      (req.coordinates.Some? && calls.insertError.None? && r.1.interactions == store.interactions + [RowFor(req, calls)])
  {
    match req.coordinates
    case None => (Failed(MissingCoordinates), store)
    case Some(_) =>
      if calls.insertError.Some? then (Failed(calls.insertError.value), store)
      else
        var inserted := store.(interactions := store.interactions + [RowFor(req, calls)]);
        if calls.fetchError.Some? then (Failed(calls.fetchError.value), inserted)
        else if !StateFound(inserted) then (Failed(StateNotFound), inserted)
        else
          var current := inserted.state.value;
          var newTotal := StoredTotal(current.totalInteractions) + 1;
          var newGrowth := Level(newTotal);
          if calls.updateError.Some? then (Failed(calls.updateError.value), inserted)
          else
            var updated := current.(totalInteractions := Some(newTotal), growthLevel := newGrowth, lastUpdated := calls.now);
            (Recorded(calls.insertedId, newGrowth, newTotal), inserted.(state := Some(updated)))
  }

  /** A recorded request appends exactly its own row, and the stored row matches the answer. */
  lemma RecordedWritesAnswer(store: Store, req: InteractionRequest, calls: StoreCalls)
    requires RecordInteraction(store, req, calls).0.Recorded?
    ensures var (resp, after) := RecordInteraction(store, req, calls);
      && after.interactions == store.interactions + [RowFor(req, calls)]
      && after.state.Some?
      && after.state.value.totalInteractions == Some(resp.totalInteractions)
      && after.state.value.growthLevel == resp.growthLevel
      && resp.growthLevel <= Full
      && (resp.totalInteractions >= 0 ==> 0 <= resp.growthLevel)
  {
  }

  /** Without a state row with id 1 the request fails, the state is not written and the inserted row stays. */
  lemma MissingStateFails(store: Store, req: InteractionRequest, calls: StoreCalls)
    requires req.coordinates.Some? && calls.insertError.None? && calls.fetchError.None?
    requires !StateFound(store)
    ensures RecordInteraction(store, req, calls) ==
      (Failed(StateNotFound), store.(interactions := store.interactions + [RowFor(req, calls)]))
  {
  }

  /** A store error ends the request with a 500 carrying that error's message. */
  lemma StoreErrorAborts(store: Store, req: InteractionRequest, calls: StoreCalls)
    requires req.coordinates.Some?
    ensures calls.insertError.Some? ==>
      RecordInteraction(store, req, calls) == (Failed(calls.insertError.value), store)
    ensures calls.insertError.None? && calls.fetchError.Some? ==>
      RecordInteraction(store, req, calls) ==
        (Failed(calls.fetchError.value), store.(interactions := store.interactions + [RowFor(req, calls)]))
    ensures calls.insertError.None? && calls.fetchError.None? && StateFound(store) && calls.updateError.Some? ==>
      RecordInteraction(store, req, calls) ==
        (Failed(calls.updateError.value), store.(interactions := store.interactions + [RowFor(req, calls)]))
  {
  }

  /** The new growth level never drops when the stored total grows. */
  lemma GrowthFollowsTotal(a: Store, b: Store, req: InteractionRequest, calls: StoreCalls)
    requires RecordInteraction(a, req, calls).0.Recorded? && RecordInteraction(b, req, calls).0.Recorded?
    requires StoredTotal(a.state.value.totalInteractions) <= StoredTotal(b.state.value.totalInteractions)
    ensures RecordInteraction(a, req, calls).0.growthLevel <= RecordInteraction(b, req, calls).0.growthLevel
  {
  }

  /**
   * Start-up seeding: when no state row is read, insert one with zero
   * interactions and zero growth (`seedId` is the id the store assigns, and
   * a failed insert leaves the store as it was); an existing row is kept.
   */
  function InitializePlatform(store: Store, insertFails: bool, seedId: int, now: string): (s: Store)
    ensures s.interactions == store.interactions
    ensures store.state.Some? ==> s.state == store.state
    ensures store.state.None? && !insertFails ==>
      s.state.Some? && s.state.value.totalInteractions == Some(0) && s.state.value.growthLevel == 0 &&
      s.state.value.id == seedId && s.state.value.version == SeedVersion
    ensures insertFails ==> s == store
  {
    if store.state.None? && !insertFails then
      store.(state := Some(StateRow(seedId, SeedVersion, Some(0), 0, now)))
    else
      store
  }

  /**
   * The intended invariant of the store: the state row with id 1 counts every
   * interaction row, and its growth level is the level of that count.
   */
  predicate Counted(store: Store) {
    StateFound(store)
    && StoredTotal(store.state.value.totalInteractions) == |store.interactions|
    && store.state.value.growthLevel == Level(|store.interactions|)
  }

  /** Seeding an empty store under id 1 starts the count at zero. */
  lemma SeedingCounts(store: Store, now: string)
    requires store == Store(None, [])
    ensures Counted(InitializePlatform(store, false, StateRowId, now))
  {
  }

  /** A recorded request keeps the count. */
  lemma RecordedKeepsCount(store: Store, req: InteractionRequest, calls: StoreCalls)
    requires Counted(store)
    requires RecordInteraction(store, req, calls).0.Recorded?
    ensures Counted(RecordInteraction(store, req, calls).1)
    ensures RecordInteraction(store, req, calls).0.totalInteractions == |store.interactions| + 1
  {
  }

  /**
   * A fetch or update error after a successful insert leaves a row the state
   * row does not count: nothing in the handler restores the invariant.
   */
  lemma LateFailureLosesCount(store: Store, req: InteractionRequest, calls: StoreCalls)
    requires Counted(store)
    requires req.coordinates.Some? && calls.insertError.None?
    requires calls.fetchError.Some? || calls.updateError.Some?
    ensures !Counted(RecordInteraction(store, req, calls).1)
  {
  }

  /** A request with a usable body and a store that reports no error. */
  predicate Clean(req: InteractionRequest, calls: StoreCalls) {
    req.coordinates.Some? && calls.insertError.None? && calls.fetchError.None? && calls.updateError.None?
  }

  /** Requests handled one after another. */
  function Replay(store: Store, reqs: seq<InteractionRequest>, calls: seq<StoreCalls>): (s: Store)
    requires |reqs| == |calls|
    ensures |s.interactions| <= |store.interactions| + |reqs|
    decreases |reqs|
  {
    if reqs == [] then store
    else Replay(RecordInteraction(store, reqs[0], calls[0]).1, reqs[1..], calls[1..])
  }

  /**
   * With one request at a time and no store error, `n` requests raise the
   * stored total by exactly `n`, and the total equals the number of rows.
   */
  lemma {:induction false} ReplayCounts(store: Store, reqs: seq<InteractionRequest>, calls: seq<StoreCalls>)
    requires |reqs| == |calls|
    requires Counted(store)
    requires forall i :: 0 <= i < |reqs| ==> Clean(reqs[i], calls[i])
    ensures Counted(Replay(store, reqs, calls))
    ensures StoredTotal(Replay(store, reqs, calls).state.value.totalInteractions)
      == StoredTotal(store.state.value.totalInteractions) + |reqs|
    decreases |reqs|
  {
    if reqs != [] {
      assert Clean(reqs[0], calls[0]);
      var next := RecordInteraction(store, reqs[0], calls[0]).1;
      RecordedKeepsCount(store, reqs[0], calls[0]);
      ReplayCounts(next, reqs[1..], calls[1..]);
    }
  }
}
