# Living platform: growth tracker and interaction service

A Dafny model of the two pieces of logic behind the portfolio page's
"growth" meter.

- **The page's tracker** (`Client.LivingPlatform`, after `livingPlatform.js`).
  It counts interactions locally and spawns a particle on every third one.
  It raises a local growth estimate, `min(100, floor(count / 50 * 100))`, and
  logs the first milestone that becomes due into the change log. Each insertion
  into the displayed change list removes its last entry once it holds more than
  five, which keeps it at five when its last node is an entry. When the service answers, the
  tracker takes the service's growth level. Every animation frame ages each
  particle and splices out the ones whose opacity has fallen to zero.
- **The service** (`Server`, after `server.js`). `POST /api/interactions` is
  one transition of an abstract store. The store holds at most one
  `platform_state` row and the `user_interactions` rows. The handler inserts
  the row, fetches state row 1, computes `total + 1` and the capped growth
  level, writes both back and answers with them. The first failing step ends
  the request with a 500 carrying the error's message. `initializePlatform`
  seeds a zero row when none is read.

Both sides use one growth formula, `Growth.Level`, computed exactly on
integers.

Files: `wrappers.dfy` (Option), `growth.dfy` (the formula),
`living_platform.dfy` (the tracker class and its particle and change-log
functions), `server.dfy` (the store transitions).

The tracker's state is a class. Its methods update `interactionCount`,
`growthLevel`, `changes`, `shown` (the displayed list) and `particles` in
place. Each method is proved against a function of the old state:
`Age`, `LogAfterEvent`, `ShownAfterEvent`, `Shown`. `DrawParticles` keeps the
source's reverse index loop and splice. The object invariant `Valid()` says
two things. Every particle satisfies `1 <= life <= 120` and `alpha == life / 120`.
No milestone message is logged twice.

## Model

| member | source | states |
|---|---|---|
| Growth.Level | livingPlatform.js:71 | the estimate is at most 100, is at least 0 for a non-negative count, and is exactly 100 from 50 interactions on |
| Growth.LevelBelowBudget | server.js:88 | up to 50 interactions the level is exactly twice the count, the exact value of `floor(n / 50 * 100)` |
| Growth.LevelFullIff | livingPlatform.js:5 | the level is 100 if and only if the count has reached `maxInteractions` (50) |
| Growth.LevelMonotone | server.js:88 | a larger total never yields a lower growth level |
| Growth.LevelStep | livingPlatform.js:71 | below saturation each further interaction raises the estimate by exactly two points |
| Client.ColorFor | livingPlatform.js:110-125 | a particle's colour is always one of the palette's colours |
| Client.ColorDefaultIff | livingPlatform.js:110-125 | the default colour `#93c5fd` is used exactly for `click` and for types with no palette entry |
| Client.Spawn | livingPlatform.js:118-127 | a new particle has life 120, opacity 1 and the colour of its type, and satisfies the particle invariant |
| Client.Tick | livingPlatform.js:256-257 | a frame lowers life by exactly one and keeps the colour; a live particle with more than one frame left stays live |
| Client.Visible | livingPlatform.js:260 | for a particle whose opacity is `life / 120`, the opacity test passes exactly when life is positive |
| Client.TickVisibleIff | livingPlatform.js:256-260 | after one frame the opacity `life / 120` is positive exactly when the remaining life is positive |
| Client.Age | livingPlatform.js:255-267 | one frame never lengthens the list, and every particle left in it is visible |
| Client.AgeAppend | livingPlatform.js:227-267 | a frame treats particles one by one, so survivors keep their relative order |
| Client.AgeSingle | livingPlatform.js:256-266 | a particle survives a frame exactly when it had more than one frame of life, and it survives aged by one frame |
| Client.AgeKeepsLive | livingPlatform.js:255-257 | a frame preserves `1 <= life <= 120` and `alpha == life / 120` for every survivor, and survivors are younger than a fresh particle |
| Client.AgeFrames | livingPlatform.js:271-276 | successive animation frames never lengthen the particle list |
| Client.SpawnLifetime | livingPlatform.js:126 | a spawned particle is on screen with life `120 - n` for frames 0 to 119 and is gone from frame 120 on |
| Client.FirstDue | livingPlatform.js:147-148 | the result is the first milestone in list order whose level is reached and whose message is not logged; `None` means no milestone is due |
| Client.LogAfterEvent | livingPlatform.js:139-151 | a growth event adds at most one entry, at the front, and only the message of a milestone that is reached and not yet logged; when some milestone is due, the first due one in list order is the one prepended |
| Client.ShownAfterEvent | livingPlatform.js:150-151 | the displayed list changes exactly as the log does: unchanged when nothing is logged, otherwise `Shown` of the logged message; a list of at most five stays at most five |
| Client.LogFreshKeepsOnce | livingPlatform.js:147-151 | prepending a message absent from the log keeps every milestone message unique |
| Client.EventKeepsOnce | livingPlatform.js:147-151 | a growth event never logs a milestone message twice |
| Client.EventAfterAllLogged | livingPlatform.js:139-151 | once all five milestones are logged, a growth event changes nothing at any level |
| Client.EventBelowFirstMilestone | livingPlatform.js:139-148 | below level 20 a growth event logs nothing |
| Client.InitialLoggedOnce | livingPlatform.js:6-10 | the initial three-entry log holds no milestone message |
| Client.Shown | livingPlatform.js:178-183 | the new message is first, the older entries follow in order, and the list grows by one only while it held fewer than five |
| Client.ShownBounded | livingPlatform.js:180-183 | a displayed list of at most five items still has at most five, namely the newest ones |
| Client.LivingPlatform.constructor | livingPlatform.js:2-11 | a new tracker has count 0, growth 0, the three initial log messages and no particles, and satisfies the invariant |
| Client.LivingPlatform.RecordInteraction | livingPlatform.js:62-107 | the count rises by exactly one; a particle is appended exactly when the new count is a multiple of 3; the log changes only when the local estimate rises above the old level; a server reply sets the level to its value even if lower; without a reply the level never drops |
| Client.LivingPlatform.CreateInteractionParticle | livingPlatform.js:109-130 | exactly one particle is appended at the end: life 120, opacity 1, the colour of its type |
| Client.LivingPlatform.TriggerGrowthEvent | livingPlatform.js:137-161 | the log and displayed list become those of `LogAfterEvent` and `ShownAfterEvent` at the current level, and the invariant is kept |
| Client.LivingPlatform.AddChange | livingPlatform.js:163-184 | the message goes to index 0 of the log ahead of every older entry, and the displayed list becomes `Shown` of the old one; a message not yet in the log keeps the invariant |
| Client.LivingPlatform.DrawParticles | livingPlatform.js:226-268 | the reverse splice loop leaves exactly `Age` of the old list, and every survivor still satisfies `1 <= life <= 120` |
| Server.StoredTotal | server.js:87 | a null total and a stored 0 both read as 0 (JavaScript's `|| 0`); any other stored total reads as itself |
| Server.StateFound | server.js:82 | the state is found exactly when a row with id 1 exists |
| Server.RowFor | server.js:55-63 | the inserted row carries the request's type, x, y and session id, and the request timestamp, or the current time when none is given |
| Server.RecordInteraction | server.js:46-126 | success exactly when the body has coordinates and no store call fails and state row 1 exists; the answer's total is the stored total (null counted as 0) plus one, and its level is the capped level of that total; the state row is written only on success and then holds exactly the answered values; at most one interaction row is appended |
| Server.RecordedWritesAnswer | server.js:97-117 | on success exactly one row is appended, and the stored total and level equal the answer's, with the level at most 100 |
| Server.MissingStateFails | server.js:82-84 | without state row 1 the answer is `Platform state not found`, the state is not written, and the inserted row remains |
| Server.StoreErrorAborts | server.js:66-124 | an insert, fetch or update error ends the request with a failure carrying that error's message; later steps do not run |
| Server.GrowthFollowsTotal | server.js:86-88 | a larger stored total never yields a lower answered growth level |
| Server.InitializePlatform | server.js:19-41 | a row with total 0, growth 0 and version 1.0.3 is inserted only when no state row is read; an existing row and the interaction rows are left unchanged |
| Server.SeedingCounts | server.js:19-41 | seeding an empty store under id 1 starts a state row that counts all zero interaction rows |
| Server.RecordedKeepsCount | server.js:86-105 | if the state row counted every interaction row before a recorded request, it still does afterwards |
| Server.LateFailureLosesCount | server.js:72-110 | a fetch or update error after a successful insert leaves an interaction row that the state row does not count |
| Server.Replay | server.js:46-126 | handling requests one at a time adds at most one interaction row per request |
| Server.ReplayCounts | server.js:46-126 | with one request at a time and no store errors, `n` requests raise the stored total by exactly `n`, and the total still equals the number of interaction rows |

## Left out

- Floating-point rounding of the growth formula. The source computes `(count / 50) * 100` in doubles. For some counts, 29 among them, that lands just below the integer, so `floor` gives 57 instead of 58. `Growth.Level` is the exact integer formula. Its bounds, saturation at 50 and monotonicity hold either way.
- Particle position, velocity and radius: the mouse repulsion, friction and boundary reflection (livingPlatform.js:231-253), `drawConnections` and all canvas drawing. These are floating point and rendering. A `Particle` holds only colour, life and opacity. The coordinates passed to `recordInteraction` are therefore not modelled on the page side.
- Particles are JavaScript objects mutated through the list. Here they are values replaced in the `particles` sequence. Nothing else references them, so no aliasing is lost.
- The network call to the service. `RecordInteraction` takes the reply as an `Option<int>`: `Some(level)` for an answer with status ok, and `None` for a failed call or a non-ok status.
- The page's asynchrony. `recordInteraction` is modelled as one atomic step. Overlapping calls, and replies arriving out of order, are not modelled.
- Session-id generation in `localStorage`, random velocities and radii, `Date` timestamps and `console` logging. The change log keeps messages only, without their times.
- `celebrateMilestone`: its 50 particles are added later by timers, so a growth event never changes `particles` in this model. `activateAdaptiveColors` and `updateGrowthDisplay` only write styles.
- Client.Shown and Client.LivingPlatform.AddChange: the source tests the list's element count (`children.length > 5`) but removes its last node (`lastChild`), which may be a whitespace text node from the page markup. The model holds entries only, so the cap of five holds in the model but holds in the page only when the list's last node is an entry; the text node case, where the first overflow leaves six entries, is not modelled.
- The displayed change list starts from page markup that is not part of this model. The constructor takes that list as a parameter.
- The service's store is abstracted. Each call's outcome (error or not), the id the store assigns to an inserted row and the current time are inputs in `StoreCalls`. The handler reads the clock twice (server.js:61 for `created_at`, server.js:102 for `last_updated`); the model uses one `now` for both, so it does not capture the two times differing. The lost-update race between concurrent requests (server.js:72-105) is not modelled: requests are handled one at a time.
- Server.InitializePlatform: a failed read while a row exists would insert a second row in the source. The store holds at most one state row, so that case is not modelled: the read sees the store's row.
- A request body without `coordinates` throws a JavaScript TypeError. It is modelled by the constant message `MissingCoordinates`. Other malformed bodies and non-integer coordinates are not modelled.
- `GET /api/platform/state`, `GET /api/platform/changelog` and `/health`. These are a field rename, a constant list and a constant answer. Express routing, CORS, dotenv and the Supabase client are also left out.
- customCursor.js and main.js: floating-point cursor smoothing and DOM wiring, with no discrete logic.
