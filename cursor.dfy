/** `src/components/RevolutionaryCursor.tsx`: the bounded mouse trail, the
    click particles and their life countdown, the per-frame pruning, the id
    counters, and the cursor-type classification of the element under the
    pointer. Positions, velocities and the spring animation are left out. */
module RevolutionaryCursor {
  import opened Common

  datatype CursorType = DefaultCursor | HoverCursor | TextCursor | ButtonCursor | DragCursor

  datatype TrailPoint = TrailPoint(x: int, y: int, id: nat, timestamp: int)

  /** A particle by id and remaining life; its position and velocity are
      floating point and not modelled. */
  datatype Particle = Particle(id: nat, life: int)

  /** How many trail points are kept. */
  const MaxTrail: nat := 8
  /** How many particles one click creates. */
  const Burst: nat := 6
  /** The frames a new particle lives. */
  const ParticleLife: nat := 60
  /** How long, in milliseconds, a trail point stays. */
  const TrailLifetime := 500

  // ---------------------------------------------------------------------------
  // Ids

  predicate TrailIncreasing(t: seq<TrailPoint>) {
    forall i, j :: 0 <= i < j < |t| ==> t[i].id < t[j].id
  }

  predicate TrailBelow(t: seq<TrailPoint>, bound: nat) {
    forall i :: 0 <= i < |t| ==> t[i].id < bound
  }

  predicate ParticlesIncreasing(ps: seq<Particle>) {
    forall i, j :: 0 <= i < j < |ps| ==> ps[i].id < ps[j].id
  }

  predicate ParticlesBelow(ps: seq<Particle>, bound: nat) {
    forall i :: 0 <= i < |ps| ==> ps[i].id < bound
  }

  // ---------------------------------------------------------------------------
  // The trail

  /** The mouse-move trail update: append the new point, keep the last eight. */
  function AddTrail(trail: seq<TrailPoint>, p: TrailPoint): (r: seq<TrailPoint>)
    ensures |r| == if |trail| < MaxTrail then |trail| + 1 else MaxTrail
    ensures r[|r| - 1] == p
    ensures forall i :: 0 <= i < |r| - 1 ==> r[i] == trail[|trail| + 1 - |r| + i]
  {
    var r := Last(trail + [p], MaxTrail);
    assert r[|r| - 1] == (trail + [p])[|trail|];
    r
  }

  /** A new point whose id is above every id in the trail keeps the ids
      increasing and raises the bound by one. */
  lemma AddTrailIncreasing(trail: seq<TrailPoint>, p: TrailPoint)
    requires TrailIncreasing(trail) && TrailBelow(trail, p.id)
    ensures TrailIncreasing(AddTrail(trail, p)) && TrailBelow(AddTrail(trail, p), p.id + 1)
  {
    var r := AddTrail(trail, p);
    var kept := trail[|trail| + 1 - |r|..];
    assert r == kept + [p];
    TrailSnoc(kept, p);
  }

  /** A point above every id of an increasing trail can go behind it. */
  lemma TrailSnoc(t: seq<TrailPoint>, p: TrailPoint)
    requires TrailIncreasing(t) && TrailBelow(t, p.id)
    ensures TrailIncreasing(t + [p]) && TrailBelow(t + [p], p.id + 1)
  {
  }

  /** The per-frame cleanup: keep the points younger than half a second. */
  function PruneTrail(trail: seq<TrailPoint>, now: int): (r: seq<TrailPoint>)
    ensures |r| <= |trail|
    ensures forall p :: p in r <==> p in trail && now - p.timestamp < TrailLifetime
  {
    if trail == [] then []
    else
      var rest := PruneTrail(trail[1..], now);
      assert forall p :: p in trail <==> p == trail[0] || p in trail[1..] by {
        assert trail == [trail[0]] + trail[1..];
      }
      if now - trail[0].timestamp < TrailLifetime then [trail[0]] + rest else rest
  }

  /** A point below every id of an increasing trail can go in front of it. */
  lemma TrailCons(x: TrailPoint, rest: seq<TrailPoint>)
    requires TrailIncreasing(rest) && forall y :: y in rest ==> x.id < y.id
    ensures TrailIncreasing([x] + rest)
  {
    var r := [x] + rest;
    forall i, j | 0 <= i < j < |r| ensures r[i].id < r[j].id {
      assert r[j] == rest[j - 1];
      if i > 0 {
        assert r[i] == rest[i - 1];
      }
    }
  }

  /** In an increasing trail the head's id is below every later id. */
  lemma TrailHeadBelow(trail: seq<TrailPoint>, rest: seq<TrailPoint>)
    requires TrailIncreasing(trail) && trail != []
    requires forall y :: y in rest ==> y in trail[1..]
    ensures forall y :: y in rest ==> trail[0].id < y.id
  {
    forall y | y in rest ensures trail[0].id < y.id {
      var k :| 0 <= k < |trail[1..]| && trail[1..][k] == y;
      assert trail[k + 1] == y;
    }
  }

  /** Pruning keeps the remaining points in their order, so ids stay increasing. */
  lemma {:induction false} PruneKeepsIncreasing(trail: seq<TrailPoint>, now: int)
    requires TrailIncreasing(trail)
    ensures TrailIncreasing(PruneTrail(trail, now))
  {
    if trail != [] {
      var rest := PruneTrail(trail[1..], now);
      PruneKeepsIncreasing(trail[1..], now);
      if now - trail[0].timestamp < TrailLifetime {
        TrailHeadBelow(trail, rest);
        TrailCons(trail[0], rest);
      }
    }
  }

  // ---------------------------------------------------------------------------
  // Particles

  /** The burst one click creates: six particles with consecutive ids from
      `start`, each with a full life. */
  function Burst6(start: nat): (r: seq<Particle>)
    ensures |r| == Burst
    ensures forall i :: 0 <= i < |r| ==> r[i] == Particle(start + i, ParticleLife)
  {
    seq(Burst, i requires 0 <= i < Burst => Particle(start + i, ParticleLife))
  }

  /** The `map` of a frame: every life goes down by one. */
  function Age(ps: seq<Particle>): (r: seq<Particle>)
    ensures |r| == |ps|
    ensures forall i :: 0 <= i < |ps| ==> r[i] == Particle(ps[i].id, ps[i].life - 1)
  {
    if ps == [] then [] else [Particle(ps[0].id, ps[0].life - 1)] + Age(ps[1..])
  }

  /** The `filter` of a frame: the particles with life left, in order. */
  function Alive(ps: seq<Particle>): (r: seq<Particle>)
    ensures |r| <= |ps|
    ensures forall q :: q in r <==> q in ps && q.life > 0
  {
    if ps == [] then []
    else
      var rest := Alive(ps[1..]);
      assert forall q :: q in ps <==> q == ps[0] || q in ps[1..] by {
        assert ps == [ps[0]] + ps[1..];
      }
      if ps[0].life > 0 then [ps[0]] + rest else rest
  }

  /** One animation frame. */
  function StepParticles(ps: seq<Particle>): seq<Particle> {
    Alive(Age(ps))
  }

  lemma {:induction false} AliveAppend(a: seq<Particle>, b: seq<Particle>)
    ensures Alive(a + b) == Alive(a) + Alive(b)
  {
    if a == [] {
      assert a + b == b;
    } else {
      assert (a + b)[1..] == a[1..] + b;
      AliveAppend(a[1..], b);
    }
  }

  /** Frames are applied to each particle independently. */
  lemma StepAppend(a: seq<Particle>, b: seq<Particle>)
    ensures StepParticles(a + b) == StepParticles(a) + StepParticles(b)
  {
    assert Age(a + b) == Age(a) + Age(b);
    AliveAppend(Age(a), Age(b));
  }

  /** `k` animation frames. */
  function Steps(ps: seq<Particle>, k: nat): seq<Particle>
    decreases k
  {
    if k == 0 then ps else Steps(StepParticles(ps), k - 1)
  }

  lemma {:induction false} StepsEmpty(k: nat)
    ensures Steps([], k) == []
  {
    if k > 0 {
      StepsEmpty(k - 1);
    }
  }

  lemma {:induction false} StepsAppend(a: seq<Particle>, b: seq<Particle>, k: nat)
    ensures Steps(a + b, k) == Steps(a, k) + Steps(b, k)
    decreases k
  {
    if k > 0 {
      var a1, b1 := StepParticles(a), StepParticles(b);
      StepAppend(a, b);
      assert StepParticles(a + b) == a1 + b1;
      StepsAppend(a1, b1, k - 1);
    }
  }

  /** A living particle is still there, with `k` less life, for its first
      `life - 1` frames, and is gone from frame `life` on. */
  lemma {:induction false} ParticleLifetime(p: Particle, k: nat)
    requires p.life > 0
    ensures Steps([p], k) == if k < p.life then [Particle(p.id, p.life - k)] else []
    decreases k
  {
    if k > 0 {
      var q := Particle(p.id, p.life - 1);
      assert Age([p]) == [q];
      assert [q][1..] == [];
      if p.life == 1 {
        assert StepParticles([p]) == [];
        StepsEmpty(k - 1);
      } else {
        assert StepParticles([p]) == [q];
        ParticleLifetime(q, k - 1);
      }
    }
  }

  /** A new particle is removed on exactly its sixtieth frame. */
  lemma NewParticleLastsSixtyFrames(id: nat, k: nat)
    ensures |Steps([Particle(id, ParticleLife)], k)| == if k < ParticleLife then 1 else 0
  {
    ParticleLifetime(Particle(id, ParticleLife), k);
  }

  lemma ParticleCons(x: Particle, rest: seq<Particle>)
    requires ParticlesIncreasing(rest) && forall y :: y in rest ==> x.id < y.id
    ensures ParticlesIncreasing([x] + rest)
  {
    var r := [x] + rest;
    forall i, j | 0 <= i < j < |r| ensures r[i].id < r[j].id {
      assert r[j] == rest[j - 1];
      if i > 0 {
        assert r[i] == rest[i - 1];
      }
    }
  }

  lemma ParticleHeadBelow(ps: seq<Particle>, rest: seq<Particle>)
    requires ParticlesIncreasing(ps) && ps != []
    requires forall y :: y in rest ==> y in ps[1..]
    ensures forall y :: y in rest ==> ps[0].id < y.id
  {
    forall y | y in rest ensures ps[0].id < y.id {
      var k :| 0 <= k < |ps[1..]| && ps[1..][k] == y;
      assert ps[k + 1] == y;
    }
  }

  /** The filter keeps the survivors in order, so increasing ids stay
      increasing. */
  lemma {:induction false} AliveKeepsIncreasing(ps: seq<Particle>)
    requires ParticlesIncreasing(ps)
    ensures ParticlesIncreasing(Alive(ps))
  {
    if ps != [] {
      var rest := Alive(ps[1..]);
      AliveKeepsIncreasing(ps[1..]);
      if ps[0].life > 0 {
        ParticleHeadBelow(ps, rest);
        ParticleCons(ps[0], rest);
      }
    }
  }

  /** A frame keeps ids increasing, below the same bound, and every
      remaining life positive and no larger than before. */
  lemma StepKeepsIds(ps: seq<Particle>, bound: nat)
    requires ParticlesIncreasing(ps) && ParticlesBelow(ps, bound)
    requires forall i :: 0 <= i < |ps| ==> ps[i].life <= ParticleLife
    ensures ParticlesIncreasing(StepParticles(ps)) && ParticlesBelow(StepParticles(ps), bound)
    ensures forall i :: 0 <= i < |StepParticles(ps)| ==> 0 < StepParticles(ps)[i].life <= ParticleLife
  {
    var aged := Age(ps);
    AliveKeepsIncreasing(aged);
    var r := Alive(aged);
    forall i | 0 <= i < |r| ensures r[i].id < bound && 0 < r[i].life <= ParticleLife {
      assert r[i] in aged;
      var k :| 0 <= k < |aged| && aged[k] == r[i];
    }
  }

  // ---------------------------------------------------------------------------
  // Cursor type

  /** What the classification reads from the element under the pointer. The
      `inside...` flags are whether `closest(...)` finds an ancestor-or-self. */
  datatype Target = Target(
    tagName: string, classes: set<string>, contentEditable: string,
    insideButton: bool, insideLink: bool, insideDraggable: bool)

  predicate ButtonLike(t: Target) {
    t.tagName == "BUTTON" || t.insideButton || "cursor-pointer" in t.classes
  }

  predicate LinkLike(t: Target) {
    t.tagName == "A" || t.insideLink
  }

  predicate TextLike(t: Target) {
    t.tagName == "INPUT" || t.tagName == "TEXTAREA" || t.contentEditable == "true"
  }

  predicate DragLike(t: Target) {
    "draggable" in t.classes || t.insideDraggable
  }

  /** The cursor type on a mouse move: button, then link, then text input,
      then draggable, then the default. */
  function Classify(t: Target): (r: CursorType)
    ensures r == ButtonCursor <==> ButtonLike(t)
    ensures r == HoverCursor <==> !ButtonLike(t) && LinkLike(t)
    ensures r == TextCursor <==> !ButtonLike(t) && !LinkLike(t) && TextLike(t)
    ensures r == DragCursor <==> !ButtonLike(t) && !LinkLike(t) && !TextLike(t) && DragLike(t)
    ensures r == DefaultCursor <==> !ButtonLike(t) && !LinkLike(t) && !TextLike(t) && !DragLike(t)
  {
    if t.tagName == "BUTTON" || t.insideButton || "cursor-pointer" in t.classes then ButtonCursor
    else if t.tagName == "A" || t.insideLink then HoverCursor
    else if t.tagName == "INPUT" || t.tagName == "TEXTAREA" || t.contentEditable == "true" then TextCursor
    else if "draggable" in t.classes || t.insideDraggable then DragCursor
    else DefaultCursor
  }

  // ---------------------------------------------------------------------------
  // The component

  class Cursor {
    var x: int
    var y: int
    var isHovering: bool
    var isClicking: bool
    var cursorType: CursorType
    var isVisible: bool
    var trail: seq<TrailPoint>
    var particles: seq<Particle>
    /** `trailIdRef` and `particleIdRef`: the next id to hand out. */
    var trailId: nat
    var particleId: nat

    /** At most eight trail points; both id sequences increase and stay below
        their counters; every particle is alive and at most a full life. */
    predicate Valid()
      reads this
    {
      |trail| <= MaxTrail
      && TrailIncreasing(trail) && TrailBelow(trail, trailId)
      && ParticlesIncreasing(particles) && ParticlesBelow(particles, particleId)
      && forall i :: 0 <= i < |particles| ==> 0 < particles[i].life <= ParticleLife
    }

    constructor ()
      ensures Valid()
      ensures x == 0 && y == 0 && !isHovering && !isClicking && cursorType == DefaultCursor && !isVisible
      ensures trail == [] && particles == [] && trailId == 0 && particleId == 0
    {
      x, y := 0, 0;
      isHovering, isClicking := false, false;
      cursorType := DefaultCursor;
      isVisible := false;
      trail, particles := [], [];
      trailId, particleId := 0, 0;
    }

    /** `handleMouseMove`, with the clock reading as a parameter. */
    method MouseMove(newX: int, newY: int, now: int, target: Target)
      requires Valid()
      modifies this`x, this`y, this`trail, this`trailId, this`cursorType, this`isVisible
      ensures Valid()
      ensures x == newX && y == newY && isVisible
      ensures trail == AddTrail(old(trail), TrailPoint(newX, newY, old(trailId), now))
      ensures trailId == old(trailId) + 1
      ensures cursorType == Classify(target)
    {
      x, y := newX, newY;
      var p := TrailPoint(newX, newY, trailId, now);
      AddTrailIncreasing(trail, p);
      trail := AddTrail(trail, p);
      trailId := trailId + 1;
      cursorType := Classify(target);
      isVisible := true;
    }

    method MouseEnter()
      modifies this`isHovering
      ensures isHovering
    {
      isHovering := true;
    }

    /** `handleMouseLeave`: not hovering, and hidden. */
    method MouseLeave()
      modifies this`isHovering, this`isVisible
      ensures !isHovering && !isVisible
    {
      isHovering := false;
      isVisible := false;
    }

    /** `handleMouseDown`: clicking, and a burst of particles. */
    method MouseDown()
      requires Valid()
      modifies this`isClicking, this`particles, this`particleId
      ensures Valid() && isClicking
      ensures particles == old(particles) + Burst6(old(particleId))
      ensures particleId == old(particleId) + Burst
    {
      isClicking := true;
      CreateParticles();
    }

    method MouseUp()
      modifies this`isClicking
      ensures !isClicking
    {
      isClicking := false;
    }

    /** `createParticles`: six pushes, each taking the next particle id. */
    method CreateParticles()
      requires Valid()
      modifies this`particles, this`particleId
      ensures Valid()
      ensures particles == old(particles) + Burst6(old(particleId))
      ensures particleId == old(particleId) + Burst
    {
      var newParticles: seq<Particle> := [];
      var i := 0;
      while i < Burst
        invariant 0 <= i <= Burst
        invariant particleId == old(particleId) + i
        invariant |newParticles| == i
        invariant forall k :: 0 <= k < i ==> newParticles[k] == Particle(old(particleId) + k, ParticleLife)
        invariant particles == old(particles)
      {
        newParticles := newParticles + [Particle(particleId, ParticleLife)];
        particleId := particleId + 1;
        i := i + 1;
      }
      assert newParticles == Burst6(old(particleId));
      particles := particles + newParticles;
    }

    /** One animation frame, with the clock reading as a parameter. */
    method Animate(now: int)
      requires Valid()
      modifies this`particles, this`trail
      ensures Valid()
      ensures particles == StepParticles(old(particles))
      ensures trail == PruneTrail(old(trail), now)
    {
      StepKeepsIds(particles, particleId);
      PruneKeepsIncreasing(trail, now);
      var stepped := StepParticles(particles);
      var pruned := PruneTrail(trail, now);
      forall i | 0 <= i < |pruned| ensures pruned[i].id < trailId {
        assert pruned[i] in trail;
      }
      particles := stepped;
      trail := pruned;
    }
  }
}
