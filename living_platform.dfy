/**
 * The page's interaction tracker: a local interaction counter, a local growth
 * estimate reconciled with the service's reply, a milestone change log, and
 * the lifetime of the decorative particles spawned by interactions.
 */
module Client {
  import opened Wrappers
  import opened Growth

  // ---------------------------------------------------------------------
  // Particles
  // ---------------------------------------------------------------------

  /** Frames a freshly spawned particle lives. */
  const ParticleLife: int := 120

  /** Colour used for a `click` and for any interaction type without an entry. */
  const DefaultColor: string := "#93c5fd"

  /** Colour of the particle spawned for each known interaction type. */
  const Palette: map<string, string> := map[
    "click" := "#93c5fd",
    "hover" := "#c084fc",
    "scroll" := "#fbbf24",
    "keypress" := "#34d399",
    "move" := "#60a5fa"
  ]

  /**
   * A particle as far as its lifetime is concerned; position, velocity and
   * radius are not part of this model.
   */
  datatype Particle = Particle(color: string, life: int, alpha: real)

  /** Opacity of a particle with the given remaining life. */
  function AlphaFor(life: int): real {
    life as real / ParticleLife as real
  }

  /** A particle in the list: still alive, never older than its spawn, opacity matching its life. */
  predicate Live(p: Particle) {
    1 <= p.life <= ParticleLife && p.alpha == AlphaFor(p.life)
  }

  /** Colour for an interaction type, falling back to the default colour. */
  function ColorFor(kind: string): (c: string)
    ensures c in Palette.Values
  {
    if kind in Palette then Palette[kind]
    else assert Palette["click"] == DefaultColor; DefaultColor
  }

  /** Only a click and an unknown type are drawn in the default colour; every other known type has its own. */
  lemma ColorDefaultIff(kind: string)
    ensures ColorFor(kind) == DefaultColor <==> kind == "click" || kind !in Palette
  {
  }

  /** The particle spawned for an interaction of the given type. */
  function Spawn(kind: string): (p: Particle)
    ensures Live(p) && p.life == ParticleLife && p.alpha == 1.0
    ensures p.color == ColorFor(kind)
  {
    Particle(ColorFor(kind), ParticleLife, 1.0)
  }

  /** One frame of ageing: one less life, opacity recomputed from it. */
  function Tick(p: Particle): (r: Particle)
    ensures r.color == p.color && r.life == p.life - 1
    ensures Live(p) && p.life > 1 ==> Live(r)
  {
    var life := p.life - 1;
    p.(life := life, alpha := AlphaFor(life))
  }

  /** A particle is drawn, and kept, while its opacity is positive. */
  predicate Visible(p: Particle): (b: bool)
    ensures p.alpha == AlphaFor(p.life) ==> (b <==> p.life > 0)
  {
    p.alpha > 0.0
  }

  /** Opacity after a frame is positive exactly when life after that frame is positive. */
  lemma TickVisibleIff(p: Particle)
    ensures Visible(Tick(p)) <==> p.life - 1 > 0
  {
  }

  /**
   * One drawing frame over a particle list: every particle ages by one frame
   * and those no longer visible are dropped, the others keeping their order.
   */
  function Age(s: seq<Particle>): (r: seq<Particle>)
    ensures |r| <= |s|
    ensures forall q :: q in r ==> Visible(q)
  {
    if s == [] then []
    else (if Visible(Tick(s[0])) then [Tick(s[0])] else []) + Age(s[1..])
  }

  /** Ageing works element by element: the survivors of `a + b` are those of `a`, then those of `b`. */
  lemma {:induction false} AgeAppend(a: seq<Particle>, b: seq<Particle>)
    ensures Age(a + b) == Age(a) + Age(b)
  {
    if a == [] {
      assert a + b == b;
    } else {
      assert (a + b)[0] == a[0];
      assert (a + b)[1..] == a[1..] + b;
      AgeAppend(a[1..], b);
    }
  }

  /** A single particle survives a frame exactly when it had more than one frame of life left. */
  lemma AgeSingle(p: Particle)
    ensures Age([p]) == if p.life > 1 then [Tick(p)] else []
  {
  }

  /** A frame keeps every surviving particle live and strictly younger than a fresh one. */
  lemma {:induction false} AgeKeepsLive(s: seq<Particle>)
    requires forall p :: p in s ==> Live(p)
    ensures forall q :: q in Age(s) ==> Live(q) && q.life < ParticleLife
  {
    if s != [] {
      assert s[0] in s;
      AgeKeepsLive(s[1..]);
      forall q | q in Age(s) ensures Live(q) && q.life < ParticleLife {
        if q !in Age(s[1..]) {
          assert q == Tick(s[0]);
        }
      }
    }
  }

  /** `n` drawing frames in a row. */
  function AgeFrames(n: nat, s: seq<Particle>): (r: seq<Particle>)
    ensures |r| <= |s|
  {
    if n == 0 then s else Age(AgeFrames(n - 1, s))
  }

  /**
   * A spawned particle is on screen, with life `120 - n` and opacity
   * `(120 - n) / 120`, for the first 119 frames, and is gone from frame 120 on.
   */
  lemma {:induction false} SpawnLifetime(kind: string, n: nat)
    ensures AgeFrames(n, [Spawn(kind)]) ==
      if n < ParticleLife then [Particle(ColorFor(kind), ParticleLife - n, AlphaFor(ParticleLife - n))]
      else []
  {
    if n > 0 {
      SpawnLifetime(kind, n - 1);
      var prev := AgeFrames(n - 1, [Spawn(kind)]);
      if n - 1 < ParticleLife {
        AgeSingle(prev[0]);
      } else {
        assert prev == [];
      }
    }
  }

  // ---------------------------------------------------------------------
  // Milestones and the change log
  // ---------------------------------------------------------------------

  /** A growth milestone and the change-log message it produces. */
  datatype Milestone = Milestone(level: int, message: string)

  /** The milestones, in the order they are searched. */
  const Milestones: seq<Milestone> := [
    Milestone(20, "Canvas ecosystem expanding with user interactions"),
    Milestone(40, "Adaptive color system activated"),
    Milestone(60, "New interactive elements discovered"),
    Milestone(80, "Platform intelligence evolving"),
    Milestone(100, "Full ecosystem maturity achieved – v1.1.0")
  ]

  /** The change log a new tracker starts with. */
  const InitialChanges: seq<string> := [
    "Platform initialized – v1.0.0",
    "Interactive canvas system activated",
    "Growth tracking mechanism implemented"
  ]

  /** Most items the displayed change list keeps after an insertion. */
  const ShownLimit: int := 5

  /** A milestone is due when growth has reached it and its message is not yet logged. */
  predicate Due(m: Milestone, growth: int, logged: seq<string>) {
    m.level <= growth && m.message !in logged
  }

  /** Index of the first due milestone of `ms`, if any (the page's `find`). */
  function FirstDue(ms: seq<Milestone>, growth: int, logged: seq<string>): (r: Option<nat>)
    ensures r.Some? ==> r.value < |ms| && Due(ms[r.value], growth, logged)
    ensures r.Some? ==> forall j :: 0 <= j < r.value ==> !Due(ms[j], growth, logged)
    ensures r.None? ==> forall j :: 0 <= j < |ms| ==> !Due(ms[j], growth, logged)
  {
    if ms == [] then None
    else if Due(ms[0], growth, logged) then Some(0)
    else match FirstDue(ms[1..], growth, logged)
      case None => None
      case Some(i) => Some(i + 1)
  }

  /** True of the messages some milestone produces. */
  predicate IsMilestoneMessage(s: string) {
    exists k :: 0 <= k < |Milestones| && Milestones[k].message == s
  }

  /** No milestone message occurs twice in the log. */
  predicate LoggedOnce(changes: seq<string>) {
    forall i, j :: 0 <= i < j < |changes| && IsMilestoneMessage(changes[i]) ==> changes[i] != changes[j]
  }

  /** Logging a message that is not yet in the log keeps milestone messages unique. */
  lemma LogFreshKeepsOnce(changes: seq<string>, msg: string)
    requires LoggedOnce(changes) && msg !in changes
    ensures LoggedOnce([msg] + changes)
  {
  }

  /**
   * The displayed list after a message is inserted at its top: when it then
   * holds more than five items, its last item is removed.
   */
  function Shown(shown: seq<string>, msg: string): (r: seq<string>)
    ensures |r| > 0 && r[0] == msg
    ensures r[1..] <= shown
    ensures |r| == if |shown| < ShownLimit then |shown| + 1 else |shown|
  {
    var grown := [msg] + shown;
    if |grown| > ShownLimit then grown[..|grown| - 1] else grown
  }

  /** A displayed list of at most five items still holds at most five, and keeps its newest ones. */
  lemma ShownBounded(shown: seq<string>, msg: string)
    requires |shown| <= ShownLimit
    ensures |Shown(shown, msg)| <= ShownLimit
    ensures Shown(shown, msg) == ([msg] + shown)[..|Shown(shown, msg)|]
  {
  }

  /** The initial log holds no milestone message. */
  lemma InitialLoggedOnce()
    ensures LoggedOnce(InitialChanges)
  {
  }

  /** The change log after a growth event at the given growth level. */
  function LogAfterEvent(growth: int, changes: seq<string>): (r: seq<string>)
    ensures r == changes || (|r| == |changes| + 1 && r[1..] == changes)
    ensures r != changes ==>
      (exists k :: 0 <= k < |Milestones| && r[0] == Milestones[k].message && Due(Milestones[k], growth, changes))
    ensures forall k ::
      (0 <= k < |Milestones| && Due(Milestones[k], growth, changes) &&
       (forall j :: 0 <= j < k ==> !Due(Milestones[j], growth, changes)))
      ==> r == [Milestones[k].message] + changes
  {
    match FirstDue(Milestones, growth, changes)
    case None => changes
    case Some(k) => [Milestones[k].message] + changes
  }

  /** The displayed list after a growth event at the given growth level. */
  function ShownAfterEvent(growth: int, changes: seq<string>, shown: seq<string>): (r: seq<string>)
    ensures LogAfterEvent(growth, changes) == changes ==> r == shown
    ensures LogAfterEvent(growth, changes) != changes ==> r == Shown(shown, LogAfterEvent(growth, changes)[0])
    ensures |shown| <= ShownLimit ==> |r| <= ShownLimit
  {
    match FirstDue(Milestones, growth, changes)
    case None => shown
    case Some(k) => Shown(shown, Milestones[k].message)
  }

  /** A growth event never logs a milestone twice. */
  lemma {:induction false} EventKeepsOnce(growth: int, changes: seq<string>)
    requires LoggedOnce(changes)
    ensures LoggedOnce(LogAfterEvent(growth, changes))
  {
    match FirstDue(Milestones, growth, changes)
    case None =>
    case Some(k) => LogFreshKeepsOnce(changes, Milestones[k].message);
  }

  /** Once every milestone is logged, a growth event logs nothing more, whatever the level. */
  lemma EventAfterAllLogged(growth: int, changes: seq<string>)
    requires forall k :: 0 <= k < |Milestones| ==> Milestones[k].message in changes
    ensures LogAfterEvent(growth, changes) == changes
  {
  }

  /** Below the lowest milestone a growth event logs nothing. */
  lemma EventBelowFirstMilestone(growth: int, changes: seq<string>)
    requires growth < Milestones[0].level
    ensures LogAfterEvent(growth, changes) == changes
  {
  }

  // ---------------------------------------------------------------------
  // The tracker
  // ---------------------------------------------------------------------

  /** The page's tracker object. */
  class LivingPlatform {
    var interactionCount: nat
    var growthLevel: int
    /** Messages of the change log, newest first. */
    var changes: seq<string>
    /** Messages of the displayed change list, newest first. */
    var shown: seq<string>
    var particles: seq<Particle>

    /** Every particle in the list is live, and no milestone is logged twice. */
    ghost predicate Valid()
      reads this
    {
      (forall p :: p in particles ==> Live(p)) && LoggedOnce(changes)
    }

    /** A new tracker; `initialShown` is the change list the page is loaded with. */
    constructor (initialShown: seq<string>)
      ensures Valid()
      ensures interactionCount == 0 && growthLevel == 0
      ensures changes == InitialChanges && shown == initialShown && particles == []
    {
      interactionCount := 0;
      growthLevel := 0;
      changes := InitialChanges;
      shown := initialShown;
      particles := [];
      InitialLoggedOnce();
    }

    /**
     * Counts one interaction of the given type; `reply` is the growth level
     * the service answered with, or `None` when the call failed.
     */
    method RecordInteraction(kind: string, reply: Option<int>)
      requires Valid()
      modifies this
      ensures Valid()
      ensures interactionCount == old(interactionCount) + 1
      ensures particles == if interactionCount % 3 == 0 then old(particles) + [Spawn(kind)] else old(particles)
      ensures var local := Level(interactionCount);
        && changes == (if local > old(growthLevel) then LogAfterEvent(local, old(changes)) else old(changes))
        && shown == (if local > old(growthLevel) then ShownAfterEvent(local, old(changes), old(shown)) else old(shown))
        && growthLevel == match reply
          case Some(server) => server
          case None => if local > old(growthLevel) then local else old(growthLevel)
      ensures reply.None? ==> growthLevel >= old(growthLevel)
    {
      interactionCount := interactionCount + 1;
      if interactionCount % 3 == 0 {
        CreateInteractionParticle(kind);
      }
      var newGrowthLevel := Level(interactionCount);
      if newGrowthLevel > growthLevel {
        growthLevel := newGrowthLevel;
        TriggerGrowthEvent();
      }
      match reply {
        case Some(server) =>
          if server != growthLevel {
            growthLevel := server;
          }
        case None =>
      }
    }

    /** Appends the particle for an interaction of the given type. */
    method CreateInteractionParticle(kind: string)
      requires Valid()
      modifies this`particles
      ensures Valid()
      ensures particles == old(particles) + [Spawn(kind)]
    {
      particles := particles + [Particle(ColorFor(kind), ParticleLife, 1.0)];
    }

    /** Logs the first milestone that growth has reached and that is not yet logged. */
    method TriggerGrowthEvent()
      requires Valid()
      modifies this`changes, this`shown
      ensures Valid()
      ensures changes == LogAfterEvent(growthLevel, old(changes))
      ensures shown == ShownAfterEvent(growthLevel, old(changes), old(shown))
    {
      EventKeepsOnce(growthLevel, changes);
      var due := FirstDue(Milestones, growthLevel, changes);
      if due.Some? {
        AddChange(Milestones[due.value].message);
      }
    }

    /** Puts a message at the top of the log and of the displayed list. */
    method AddChange(msg: string)
      modifies this`changes, this`shown
      ensures changes == [msg] + old(changes)
      ensures shown == Shown(old(shown), msg)
      ensures old(Valid()) && msg !in old(changes) ==> Valid()
    {
      changes := [msg] + changes;
      shown := [msg] + shown;
      if |shown| > ShownLimit {
        shown := shown[..|shown| - 1];
      }
    }

    /**
     * One animation frame over the particle list, walking it from the end:
     * each particle ages one frame and is spliced out once its opacity is no
     * longer positive.
     */
    method DrawParticles()
      requires Valid()
      modifies this`particles
      ensures Valid()
      ensures particles == Age(old(particles))
    {
      ghost var start := particles;
      var i := |particles| - 1;
      while i >= 0
        invariant -1 <= i < |start|
        invariant particles == start[..i + 1] + Age(start[i + 1..])
        decreases i + 1
      {
        var particle := particles[i];
        assert particle == start[i];
        particle := particle.(life := particle.life - 1);
        particle := particle.(alpha := AlphaFor(particle.life));
        particles := particles[i := particle];
        if !(particle.alpha > 0.0) {
          particles := particles[..i] + particles[i + 1..];
        }
        assert start[i..][1..] == start[i + 1..];
        assert start[..i + 1] == start[..i] + [start[i]];
        i := i - 1;
      }
      assert start[..0] == [] && start[0..] == start;
      AgeKeepsLive(start);
    }
  }
}
