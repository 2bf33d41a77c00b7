/** The game world: the state machine over start / playing / game over, the
    meteor spawn cap, pruning of discarded entities, collision resolution and the
    fixed order of one playing tick. */
module Shooter {
  import opened Vectors
  import opened Lists
  import opened Wrappers
  import opened Timers
  import opened Settings
  import opened Models

  /** Rebound in the game module after the settings are imported; these are the
      values in effect. */
  const METEOR_TIMER_DURATION: real := 1.5
  const MAX_METEORS: nat := 8
  const PLAYER_RADIUS: real := 0.8
  /** Meteors at or beyond this depth are dropped at the end of a tick. */
  const CULL_DEPTH: real := 10.0

  datatype GameState = Start | Playing | GameOver

  /** A meteor as the collision tests see it. */
  datatype Sphere = Sphere(center: Vec3, radius: real)

  /** The graphics library's overlap tests, which the game calls and does not
      define: check_collision_spheres(c1, r1, c2, r2) and
      check_collision_box_sphere(box, center, radius). */
  datatype CollisionTests = CollisionTests(
    spheres: (Vec3, real, Vec3, real) -> bool,
    boxSphere: (Box, Vec3, real) -> bool)

  // ------------------------------------------------- collision specification

  /** Some meteor overlaps the player's sphere. */
  predicate PlayerStruck(tests: CollisionTests, p: Vec3, ms: seq<Sphere>) {
    exists j :: 0 <= j < |ms| && tests.spheres(p, PLAYER_RADIUS, ms[j].center, ms[j].radius)
  }

  /** The laser's mesh box, moved to the laser's position, overlaps the meteor. */
  predicate LaserStrikes(tests: CollisionTests, box: Box, laser: Vec3, m: Sphere) {
    tests.boxSphere(Translate(box, laser), m.center, m.radius)
  }

  /** How many of the meteors one laser overlaps. */
  function StrikeCount(tests: CollisionTests, box: Box, laser: Vec3, ms: seq<Sphere>): nat {
    if ms == [] then 0
    else StrikeCount(tests, box, laser, ms[..|ms| - 1])
         + (if LaserStrikes(tests, box, laser, ms[|ms| - 1]) then 1 else 0)
  }

  /** How many (laser, meteor) pairs overlap. */
  function PairCount(tests: CollisionTests, box: Box, lasers: seq<Vec3>, ms: seq<Sphere>): nat {
    if lasers == [] then 0
    else PairCount(tests, box, lasers[..|lasers| - 1], ms) + StrikeCount(tests, box, lasers[|lasers| - 1], ms)
  }

  /** Some laser overlaps the meteor. */
  predicate StruckByAny(tests: CollisionTests, box: Box, lasers: seq<Vec3>, m: Sphere) {
    if lasers == [] then false
    else StruckByAny(tests, box, lasers[..|lasers| - 1], m) || LaserStrikes(tests, box, lasers[|lasers| - 1], m)
  }

  /** A laser scores at least once exactly when it overlaps some meteor, and never
      more often than there are meteors. */
  lemma {:induction false} StrikeCountCounts(tests: CollisionTests, box: Box, laser: Vec3, ms: seq<Sphere>)
    ensures StrikeCount(tests, box, laser, ms) <= |ms|
    ensures StrikeCount(tests, box, laser, ms) > 0 <==> exists j :: 0 <= j < |ms| && LaserStrikes(tests, box, laser, ms[j])
  {
    if ms != [] {
      var n := |ms| - 1;
      StrikeCountCounts(tests, box, laser, ms[..n]);
      if StrikeCount(tests, box, laser, ms[..n]) > 0 {
        var j :| 0 <= j < n && LaserStrikes(tests, box, laser, ms[..n][j]);
        assert ms[j] == ms[..n][j];
      }
      if j :| 0 <= j < |ms| && LaserStrikes(tests, box, laser, ms[j]) {
        if j < n {
          assert ms[..n][j] == ms[j];
        }
      }
    }
  }

  /** StruckByAny is "some laser of the list overlaps the meteor". */
  lemma {:induction false} StruckByAnyMeans(tests: CollisionTests, box: Box, lasers: seq<Vec3>, m: Sphere)
    ensures StruckByAny(tests, box, lasers, m) <==> exists k :: 0 <= k < |lasers| && LaserStrikes(tests, box, lasers[k], m)
  {
    if lasers != [] {
      var n := |lasers| - 1;
      StruckByAnyMeans(tests, box, lasers[..n], m);
      if StruckByAny(tests, box, lasers[..n], m) {
        var k :| 0 <= k < n && LaserStrikes(tests, box, lasers[..n][k], m);
        assert lasers[k] == lasers[..n][k];
      }
      if k :| 0 <= k < |lasers| && LaserStrikes(tests, box, lasers[k], m) {
        if k < n {
          assert lasers[..n][k] == lasers[k];
        }
      }
    }
  }

  /** The score a laser pass adds is at most one point per (laser, meteor) pair. */
  lemma {:induction false} PairCountBound(tests: CollisionTests, box: Box, lasers: seq<Vec3>, ms: seq<Sphere>)
    ensures PairCount(tests, box, lasers, ms) <= |lasers| * |ms|
  {
    if lasers != [] {
      var n := |lasers| - 1;
      PairCountBound(tests, box, lasers[..n], ms);
      StrikeCountCounts(tests, box, lasers[n], ms);
      assert |lasers| * |ms| == n * |ms| + |ms|;
    }
  }

  /** The score a laser pass adds is zero exactly when no laser overlaps any meteor. */
  lemma {:induction false} PairCountZero(tests: CollisionTests, box: Box, lasers: seq<Vec3>, ms: seq<Sphere>)
    ensures PairCount(tests, box, lasers, ms) == 0
        <==> forall k, j :: 0 <= k < |lasers| && 0 <= j < |ms| ==> !LaserStrikes(tests, box, lasers[k], ms[j])
  {
    if lasers != [] {
      var n := |lasers| - 1;
      var front := lasers[..n];
      PairCountZero(tests, box, front, ms);
      StrikeCountCounts(tests, box, lasers[n], ms);
      if PairCount(tests, box, lasers, ms) == 0 {
        forall k, j | 0 <= k < |lasers| && 0 <= j < |ms|
          ensures !LaserStrikes(tests, box, lasers[k], ms[j])
        {
          if k < n {
            assert front[k] == lasers[k];
          }
        }
      } else if StrikeCount(tests, box, lasers[n], ms) == 0 {
        var k, j :| 0 <= k < n && 0 <= j < |ms| && LaserStrikes(tests, box, front[k], ms[j]);
        assert lasers[k] == front[k];
      }
    }
  }

  /** What the laser pass does to a meteor: any overlapping laser flashes it and
      restarts its death timer; flashing it again changes nothing further. */
  function Flashed(s: MeteorState): MeteorState {
    s.(hit := true, flashValue := FLASH_START, timer := TimerState(0.0, true))
  }

  function Outcome(tests: CollisionTests, box: Box, lasers: seq<Vec3>, m: Sphere, s: MeteorState): MeteorState {
    if StruckByAny(tests, box, lasers, m) then Flashed(s) else s
  }

  /** The meteors' states after one laser's sweep has reached the first n of them. */
  function Swept(tests: CollisionTests, box: Box, laser: Vec3, mb: seq<Sphere>, ss: seq<MeteorState>, n: nat): (r: seq<MeteorState>)
    requires |mb| == |ss|
    ensures |r| == |ss|
    ensures forall j :: 0 <= j < |ss| ==>
      r[j] == if j < n && LaserStrikes(tests, box, laser, mb[j]) then Flashed(ss[j]) else ss[j]
  {
    seq(|ss|, j requires 0 <= j < |ss| => if j < n && LaserStrikes(tests, box, laser, mb[j]) then Flashed(ss[j]) else ss[j])
  }

  /** The whole pass applied to the meteors' states. */
  function Outcomes(tests: CollisionTests, box: Box, lasers: seq<Vec3>, mb: seq<Sphere>, ss: seq<MeteorState>): (r: seq<MeteorState>)
    requires |mb| == |ss|
    ensures |r| == |ss|
    ensures forall j :: 0 <= j < |ss| ==> r[j] == Outcome(tests, box, lasers, mb[j], ss[j])
  {
    seq(|ss|, j requires 0 <= j < |ss| => Outcome(tests, box, lasers, mb[j], ss[j]))
  }

  /** The lasers' discard flags once the first n lasers have swept the meteors. */
  function Hits(tests: CollisionTests, box: Box, lasers: seq<Vec3>, mb: seq<Sphere>, ds: seq<bool>, n: nat): (r: seq<bool>)
    requires |lasers| == |ds|
    ensures |r| == |ds|
    ensures forall k :: 0 <= k < |ds| ==>
      r[k] == if k < n then ds[k] || StrikeCount(tests, box, lasers[k], mb) > 0 else ds[k]
  {
    seq(|ds|, k requires 0 <= k < |ds| => if k < n then ds[k] || StrikeCount(tests, box, lasers[k], mb) > 0 else ds[k])
  }

  lemma StrikeCountStep(tests: CollisionTests, box: Box, laser: Vec3, ms: seq<Sphere>, j: nat)
    requires j < |ms|
    ensures StrikeCount(tests, box, laser, ms[..j + 1])
         == StrikeCount(tests, box, laser, ms[..j]) + (if LaserStrikes(tests, box, laser, ms[j]) then 1 else 0)
  {
    assert ms[..j + 1][..j] == ms[..j];
  }

  lemma PairCountStep(tests: CollisionTests, box: Box, lasers: seq<Vec3>, i: nat, ms: seq<Sphere>)
    requires i < |lasers|
    ensures PairCount(tests, box, lasers[..i + 1], ms)
         == PairCount(tests, box, lasers[..i], ms) + StrikeCount(tests, box, lasers[i], ms)
  {
    assert lasers[..i + 1][..i] == lasers[..i];
  }

  lemma SweptStep(tests: CollisionTests, box: Box, laser: Vec3, mb: seq<Sphere>, ss: seq<MeteorState>, n: nat)
    requires |mb| == |ss| && n < |ss|
    ensures Swept(tests, box, laser, mb, ss, n + 1)
         == Swept(tests, box, laser, mb, ss, n)[n := if LaserStrikes(tests, box, laser, mb[n]) then Flashed(ss[n]) else ss[n]]
  {
  }

  lemma HitsStep(tests: CollisionTests, box: Box, lasers: seq<Vec3>, mb: seq<Sphere>, ds: seq<bool>, n: nat)
    requires |lasers| == |ds| && n < |ds|
    ensures Hits(tests, box, lasers, mb, ds, n + 1)
         == Hits(tests, box, lasers, mb, ds, n)[n := ds[n] || StrikeCount(tests, box, lasers[n], mb) > 0]
  {
  }

  /** Running the pass over one more laser is one more sweep: flashing is
      idempotent, so a meteor the earlier lasers already flashed stays flashed. */
  lemma OutcomesStep(tests: CollisionTests, box: Box, lasers: seq<Vec3>, i: nat, mb: seq<Sphere>, ss: seq<MeteorState>)
    requires i < |lasers| && |mb| == |ss|
    ensures Outcomes(tests, box, lasers[..i + 1], mb, ss)
         == Swept(tests, box, lasers[i], mb, Outcomes(tests, box, lasers[..i], mb, ss), |ss|)
  {
    assert lasers[..i + 1][..i] == lasers[..i];
  }

  /** After the pass a meteor is flashed, with its death timer restarted, exactly
      when some laser overlaps it, and is untouched otherwise. */
  lemma OutcomesMeans(tests: CollisionTests, box: Box, lasers: seq<Vec3>, mb: seq<Sphere>, ss: seq<MeteorState>, j: nat)
    requires |mb| == |ss| && j < |ss|
    ensures Outcomes(tests, box, lasers, mb, ss)[j]
         == if exists k :: 0 <= k < |lasers| && LaserStrikes(tests, box, lasers[k], mb[j]) then Flashed(ss[j]) else ss[j]
  {
    StruckByAnyMeans(tests, box, lasers, mb[j]);
  }

  /** After the pass a laser is discarded exactly when it was already or it
      overlaps some meteor. */
  lemma HitsMeans(tests: CollisionTests, box: Box, lasers: seq<Vec3>, mb: seq<Sphere>, ds: seq<bool>, k: nat)
    requires |lasers| == |ds| && k < |ds|
    ensures Hits(tests, box, lasers, mb, ds, |ds|)[k]
        <==> ds[k] || exists j :: 0 <= j < |mb| && LaserStrikes(tests, box, lasers[k], mb[j])
  {
    StrikeCountCounts(tests, box, lasers[k], mb);
  }

  // ------------------------------------------------------- entity list views

  function Positions(ls: seq<Laser>): (r: seq<Vec3>)
    reads ls
    ensures |r| == |ls| && forall k :: 0 <= k < |ls| ==> r[k] == ls[k].pos
  {
    seq(|ls|, k requires 0 <= k < |ls| reads ls => ls[k].pos)
  }

  function Bodies(ms: seq<Meteor>): (r: seq<Sphere>)
    reads ms
    ensures |r| == |ms| && forall k :: 0 <= k < |ms| ==> r[k] == Sphere(ms[k].pos, ms[k].radius)
  {
    seq(|ms|, k requires 0 <= k < |ms| reads ms => Sphere(ms[k].pos, ms[k].radius))
  }

  function Discards(ls: seq<Laser>): (r: seq<bool>)
    reads ls
    ensures |r| == |ls| && forall k :: 0 <= k < |ls| ==> r[k] == ls[k].discard
  {
    seq(|ls|, k requires 0 <= k < |ls| reads ls => ls[k].discard)
  }

  /** The filter masks of check_discard and of the depth cull. */
  function LaserLive(ls: seq<Laser>): (r: seq<bool>)
    reads ls
    ensures |r| == |ls| && forall k :: 0 <= k < |ls| ==> r[k] == !ls[k].discard
  {
    seq(|ls|, k requires 0 <= k < |ls| reads ls => !ls[k].discard)
  }

  function MeteorLive(ms: seq<Meteor>): (r: seq<bool>)
    reads ms
    ensures |r| == |ms| && forall k :: 0 <= k < |ms| ==> r[k] == !ms[k].discard
  {
    seq(|ms|, k requires 0 <= k < |ms| reads ms => !ms[k].discard)
  }

  function MeteorNear(ms: seq<Meteor>): (r: seq<bool>)
    reads ms
    ensures |r| == |ms| && forall k :: 0 <= k < |ms| ==> r[k] == (ms[k].pos.z < CULL_DEPTH)
  {
    seq(|ms|, k requires 0 <= k < |ms| reads ms => ms[k].pos.z < CULL_DEPTH)
  }

  function States(ms: seq<Meteor>): (r: seq<MeteorState>)
    reads ms
    ensures |r| == |ms| && forall j :: 0 <= j < |ms| ==> r[j] == ms[j].State()
  {
    seq(|ms|, j requires 0 <= j < |ms| reads ms => ms[j].State())
  }

  /** Filtering a list of meteors and then taking their bodies is taking their
      bodies and then filtering. */
  lemma {:induction false} BodiesKeep(ms: seq<Meteor>, keep: seq<bool>)
    requires |keep| == |ms|
    ensures Bodies(Keep(ms, keep)) == Keep(Bodies(ms), keep)
  {
    if ms != [] {
      var n := |ms| - 1;
      BodiesKeep(ms[..n], keep[..n]);
      assert Bodies(ms)[..n] == Bodies(ms[..n]);
      var front, last := Keep(ms[..n], keep[..n]), if keep[n] then [ms[n]] else [];
      assert Bodies(front + last) == Bodies(front) + Bodies(last);
    }
  }

  /** The same for the lasers' positions and for the meteors' states. */
  lemma {:induction false} PositionsKeep(ls: seq<Laser>, keep: seq<bool>)
    requires |keep| == |ls|
    ensures Positions(Keep(ls, keep)) == Keep(Positions(ls), keep)
  {
    if ls != [] {
      var n := |ls| - 1;
      PositionsKeep(ls[..n], keep[..n]);
      assert Positions(ls)[..n] == Positions(ls[..n]);
      var front, last := Keep(ls[..n], keep[..n]), if keep[n] then [ls[n]] else [];
      assert Positions(front + last) == Positions(front) + Positions(last);
    }
  }

  lemma {:induction false} StatesKeep(ms: seq<Meteor>, keep: seq<bool>)
    requires |keep| == |ms|
    ensures States(Keep(ms, keep)) == Keep(States(ms), keep)
  {
    if ms != [] {
      var n := |ms| - 1;
      StatesKeep(ms[..n], keep[..n]);
      assert States(ms)[..n] == States(ms[..n]);
      var front, last := Keep(ms[..n], keep[..n]), if keep[n] then [ms[n]] else [];
      assert States(front + last) == States(front) + States(last);
    }
  }

  /** The discard flags of lasers none of which is marked. */
  function Unmarked(n: nat): (r: seq<bool>)
    ensures |r| == n && forall k :: 0 <= k < n ==> !r[k]
  {
    seq(n, k => false)
  }

  /** The meteors' states after one Meteor.update each. */
  function Advanced(ms: seq<Meteor>, dt: real, frameDt: real): (r: seq<MeteorState>)
    reads ms
    ensures |r| == |ms|
    ensures forall k :: 0 <= k < |ms| ==>
      r[k] == Advance(ms[k].State(), ms[k].direction, ms[k].speed, dt, frameDt)
  {
    seq(|ms|, k requires 0 <= k < |ms| reads ms =>
      Advance(ms[k].State(), ms[k].direction, ms[k].speed, dt, frameDt))
  }

  /** The depth cull's mask over meteor states: nearer than depth 10. */
  function NearMask(ss: seq<MeteorState>): (r: seq<bool>)
    ensures |r| == |ss| && forall k :: 0 <= k < |ss| ==> r[k] == (ss[k].pos.z < CULL_DEPTH)
  {
    seq(|ss|, k requires 0 <= k < |ss| => ss[k].pos.z < CULL_DEPTH)
  }

  /** The state of the meteor that spawn_meteor creates from the given draws. */
  function SpawnState(spawn: MeteorSpawn): MeteorState {
    MeteorState(Vec3(spawn.x, 0.0, -20.0), Vec3(0.0, 0.0, 0.0), false, 0.0, false, TimerState(0.0, false))
  }

  /** The body of the meteor that spawn_meteor creates from the given draws. */
  function SpawnBody(spawn: MeteorSpawn): Sphere {
    Sphere(Vec3(spawn.x, 0.0, -20.0), 0.4 * spawn.visualRadius)
  }

  /** Meteors are distinct objects, each valid. */
  predicate MeteorsWellFormed(ms: seq<Meteor>) {
    Distinct(ms) && forall m :: m in ms ==> m.Valid()
  }

  // ------------------------------------------------ passes over entity lists

  /** The player-vs-meteor loop of check_collisions. */
  method FindPlayerHit(tests: CollisionTests, p: Vec3, ms: seq<Meteor>) returns (struck: bool)
    ensures struck == PlayerStruck(tests, p, Bodies(ms))
  {
    var j := 0;
    while j < |ms|
      invariant 0 <= j <= |ms|
      invariant forall k :: 0 <= k < j ==> !tests.spheres(p, PLAYER_RADIUS, ms[k].pos, ms[k].radius)
    {
      if tests.spheres(p, PLAYER_RADIUS, ms[j].pos, ms[j].radius) {
        assert Bodies(ms)[j] == Sphere(ms[j].pos, ms[j].radius);
        return true;
      }
      j := j + 1;
    }
    return false;
  }

  /** The meteor's side of a hit: it is marked hit, its death timer is switched
      on and it flashes. */
  method StrikeMeteor(ms: seq<Meteor>, j: nat)
    requires j < |ms| && Distinct(ms)
    modifies ms[j]
    ensures Bodies(ms) == old(Bodies(ms))
    ensures States(ms) == old(States(ms))[j := Flashed(old(States(ms))[j])]
  {
    ghost var s0 := States(ms);
    var m := ms[j];
    m.hit := true;
    m.ActivateDeathTimer();
    m.Flash();
    assert forall j' :: 0 <= j' < |ms| && j' != j ==> ms[j'].State() == s0[j'];
    assert States(ms) == s0[j := Flashed(s0[j])];
  }

  /** The laser's side of a hit: it is marked for discard. */
  method DiscardLaser(ls: seq<Laser>, i: nat)
    requires i < |ls| && Distinct(ls)
    modifies ls[i]
    ensures Positions(ls) == old(Positions(ls))
    ensures Discards(ls) == old(Discards(ls))[i := true] && ls[i].discard
  {
    ghost var d0 := Discards(ls);
    ls[i].discard := true;
    assert forall k :: 0 <= k < |ls| && k != i ==> ls[k].discard == d0[k];
    assert Discards(ls) == d0[i := true];
  }

  /** The body of the laser-vs-meteor loops for laser i and meteor j: on overlap
      the meteor is marked hit, the laser discarded, the death timer restarted and
      the meteor flashed. */
  method ResolvePair(tests: CollisionTests, box: Box, ls: seq<Laser>, i: nat, ms: seq<Meteor>, j: nat)
    returns (scored: bool)
    requires i < |ls| && j < |ms| && Distinct(ls) && Distinct(ms)
    modifies ls[i], ms[j]
    ensures Positions(ls) == old(Positions(ls)) && Bodies(ms) == old(Bodies(ms))
    ensures scored == LaserStrikes(tests, box, Positions(ls)[i], Bodies(ms)[j])
    ensures Discards(ls) == old(Discards(ls))[i := ls[i].discard]
    ensures ls[i].discard == (old(ls[i].discard) || scored)
    ensures States(ms) == old(States(ms))[j := if scored then Flashed(old(States(ms))[j]) else old(States(ms))[j]]
  {
    scored := LaserStrikes(tests, box, ls[i].pos, Sphere(ms[j].pos, ms[j].radius));
    if scored {
      StrikeMeteor(ms, j);
      DiscardLaser(ls, i);
    }
  }

  /** The inner loop of the laser-vs-meteor pass, for laser i: every meteor the
      laser's box overlaps is flashed, has its death timer restarted and scores. */
  method LaserSweep(tests: CollisionTests, box: Box, ls: seq<Laser>, i: nat, ms: seq<Meteor>) returns (gain: nat)
    requires i < |ls| && Distinct(ls) && Distinct(ms)
    modifies ls[i], ms
    ensures gain == StrikeCount(tests, box, old(ls[i].pos), old(Bodies(ms)))
    ensures Positions(ls) == old(Positions(ls)) && Bodies(ms) == old(Bodies(ms))
    ensures Discards(ls) == old(Discards(ls))[i := old(ls[i].discard) || gain > 0]
    ensures States(ms) == Swept(tests, box, old(ls[i].pos), old(Bodies(ms)), old(States(ms)), |ms|)
  {
    ghost var lp, ds := Positions(ls), Discards(ls);
    ghost var mb, s0 := Bodies(ms), States(ms);
    gain := 0;
    var j := 0;
    while j < |ms|
      invariant 0 <= j <= |ms|
      invariant Positions(ls) == lp && Bodies(ms) == mb
      invariant Discards(ls) == ds[i := ls[i].discard]
      invariant ls[i].discard == (ds[i] || gain > 0)
      invariant States(ms) == Swept(tests, box, lp[i], mb, s0, j)
      invariant gain == StrikeCount(tests, box, lp[i], mb[..j])
    {
      StrikeCountStep(tests, box, lp[i], mb, j);
      SweptStep(tests, box, lp[i], mb, s0, j);
      var scored := ResolvePair(tests, box, ls, i, ms, j);
      UpdateTwice(ds, i, ds[i] || gain > 0, ls[i].discard);
      if scored {
        gain := gain + 1;
      }
      j := j + 1;
    }
    assert mb[..|ms|] == mb;
  }

  /** The laser-vs-meteor loops of check_collisions. Every overlapping pair counts:
      there is no break after a hit and no test of meteor.hit, so a laser touching
      two meteors scores twice and a meteor touched twice has its timer restarted. */
  method LaserPass(tests: CollisionTests, box: Box, ls: seq<Laser>, ms: seq<Meteor>) returns (gain: nat)
    requires Distinct(ls) && Distinct(ms)
    modifies ls, ms
    ensures gain == PairCount(tests, box, old(Positions(ls)), old(Bodies(ms)))
    ensures Positions(ls) == old(Positions(ls)) && Bodies(ms) == old(Bodies(ms))
    ensures Discards(ls) == Hits(tests, box, old(Positions(ls)), old(Bodies(ms)), old(Discards(ls)), |ls|)
    ensures States(ms) == Outcomes(tests, box, old(Positions(ls)), old(Bodies(ms)), old(States(ms)))
  {
    ghost var lp, ds := Positions(ls), Discards(ls);
    ghost var mb, s0 := Bodies(ms), States(ms);
    gain := 0;
    var i := 0;
    while i < |ls|
      invariant 0 <= i <= |ls|
      invariant Positions(ls) == lp && Bodies(ms) == mb
      invariant Discards(ls) == Hits(tests, box, lp, mb, ds, i)
      invariant States(ms) == Outcomes(tests, box, lp[..i], mb, s0)
      invariant gain == PairCount(tests, box, lp[..i], mb)
    {
      OutcomesStep(tests, box, lp, i, mb, s0);
      PairCountStep(tests, box, lp, i, mb);
      HitsStep(tests, box, lp, mb, ds, i);
      var g := LaserSweep(tests, box, ls, i, ms);
      gain := gain + g;
      i := i + 1;
    }
    assert lp[..|ls|] == lp;
  }

  /** Every laser takes one update step, in list order. */
  method UpdateLasers(ls: seq<Laser>, dt: real)
    requires Distinct(ls)
    modifies ls
    ensures forall k :: 0 <= k < |ls| ==> ls[k].pos == Displace(old(ls[k].pos), ls[k].direction, ls[k].speed, dt)
    ensures forall k :: 0 <= k < |ls| ==> ls[k].discard == old(ls[k].discard)
  {
    var i := 0;
    while i < |ls|
      invariant 0 <= i <= |ls|
      invariant forall k :: 0 <= k < i ==> ls[k].pos == Displace(old(ls[k].pos), ls[k].direction, ls[k].speed, dt)
      invariant forall k :: i <= k < |ls| ==> ls[k].pos == old(ls[k].pos)
      invariant forall k :: 0 <= k < |ls| ==> ls[k].discard == old(ls[k].discard)
    {
      ls[i].Update(dt);
      i := i + 1;
    }
  }

  /** Every meteor takes one update step, in list order. */
  method UpdateMeteors(ms: seq<Meteor>, dt: real, frameDt: real)
    requires MeteorsWellFormed(ms)
    modifies ms
    ensures forall k :: 0 <= k < |ms| ==>
      ms[k].State() == Advance(old(ms[k].State()), ms[k].direction, ms[k].speed, dt, frameDt)
  {
    var i := 0;
    while i < |ms|
      invariant 0 <= i <= |ms|
      invariant forall k :: 0 <= k < i ==>
        ms[k].State() == Advance(old(ms[k].State()), ms[k].direction, ms[k].speed, dt, frameDt)
      invariant forall k :: i <= k < |ms| ==> ms[k].State() == old(ms[k].State())
    {
      ms[i].Update(dt, frameDt);
      i := i + 1;
    }
  }

  // --------------------------------------------------------- state machine

  /** The state after one update, given the keys pressed and whether the
      collision check of a playing tick found the player struck. The game-over
      test comes after the playing branch, so a crash and an R press in the same
      update restart at once. */
  function NextState(s: GameState, keys: Keys, struck: bool): (r: GameState)
    ensures s == Start ==> (r == Playing <==> keys.space) && (r != Playing ==> r == Start)
    ensures s == Playing && !struck ==> r == Playing
    ensures s == Playing && struck ==> r == (if keys.r then Playing else GameOver)
    ensures s == GameOver ==> r == (if keys.r then Playing else GameOver)
    ensures r == GameOver ==> !keys.r
  {
    var afterPlay := if s == Start then (if keys.space then Playing else Start)
                     else if s == Playing then (if struck then GameOver else Playing)
                     else s;
    if afterPlay == GameOver && keys.r then Playing else afterPlay
  }

  /** Whether an update resets the world: R in game over, reached either from
      game over or by a crash in this very update. */
  predicate Restarts(s: GameState, keys: Keys, struck: bool) {
    keys.r && (s == GameOver || (s == Playing && struck))
  }

  /** The meteor count after one create_meteor call. */
  function Created(n: nat): (r: nat)
    ensures r <= n + 1
    ensures n < MAX_METEORS ==> r == n + 1
    ensures n >= MAX_METEORS ==> r == n
  {
    if n < MAX_METEORS then n + 1 else n
  }

  /** The meteor count after k create_meteor calls with no pruning between them. */
  function CreatedTimes(n: nat, k: nat): nat {
    if k == 0 then n else Created(CreatedTimes(n, k - 1))
  }

  /** The spawn cap saturates: create_meteor calls add one meteor each until there
      are eight, and none after that. */
  lemma {:induction false} CreatedSaturates(n: nat, k: nat)
    ensures CreatedTimes(n, k) == if n >= MAX_METEORS then n
                                  else if n + k <= MAX_METEORS then n + k
                                  else MAX_METEORS
  {
    if k > 0 {
      CreatedSaturates(n, k - 1);
    }
  }

  class Game {
    var state: GameState
    var close: bool
    var score: nat
    var player: Player
    var lasers: seq<Laser>
    var meteors: seq<Meteor>
    var meteorTimer: Timer
    /** The graphics library's overlap tests and the laser mesh's bounding box. */
    const tests: CollisionTests
    const laserBox: Box
    /** The game's own objects: itself, its craft, its spawn timer and every laser
        and meteor it holds. */
    ghost var Repr: set<object>

    /** What every update keeps: the craft within bounds, the spawn timer a running
        1.5 s loop that creates meteors, entity lists without repetitions, and never
        more than eight meteors. */
    ghost predicate Valid()
      reads this, player, meteorTimer
    {
      && player.Valid()
      && meteorTimer.duration == METEOR_TIMER_DURATION && meteorTimer.loop
      && meteorTimer.callback == Callback.CreateMeteor && meteorTimer.active
      && Distinct(lasers) && MeteorsWellFormed(meteors)
      && |meteors| <= MAX_METEORS
      && this in Repr && player in Repr && meteorTimer in Repr
      && (forall l :: l in lasers ==> l in Repr)
      && (forall m :: m in meteors ==> m in Repr)
    }

    /** Game.__init__ without the window, audio and assets: the start screen over a
        freshly reset world. */
    constructor (tests: CollisionTests, laserBox: Box)
      ensures Valid() && state == Start && !close && score == 0
      ensures lasers == [] && meteors == []
      ensures fresh(player) && NewCraft(player.State())
      ensures fresh(meteorTimer) && meteorTimer.time == 0.0
      ensures this.tests == tests && this.laserBox == laserBox
    {
      this.tests := tests;
      this.laserBox := laserBox;
      state := Start;
      close := false;
      score := 0;
      player := new Player();
      lasers := [];
      meteors := [];
      meteorTimer := new Timer(METEOR_TIMER_DURATION, true, true, Callback.CreateMeteor);
      Repr := {this, player, meteorTimer};
    }

    /** reset_game: score 0, a new craft, no lasers or meteors and a new
        autostarted looping spawn timer; the game state is left as it is. */
    method ResetGame()
      modifies this
      ensures Valid() && state == old(state)
      ensures !close && score == 0 && lasers == [] && meteors == []
      ensures fresh(player) && NewCraft(player.State())
      ensures fresh(meteorTimer) && meteorTimer.time == 0.0
      ensures Repr == {this, player, meteorTimer}
    {
      close := false;
      score := 0;
      player := new Player();
      lasers := [];
      meteors := [];
      meteorTimer := new Timer(METEOR_TIMER_DURATION, true, true, Callback.CreateMeteor);
      Repr := {this, player, meteorTimer};
    }

    /** spawn_meteor: one new meteor at the end of the list. */
    method SpawnMeteor(spawn: MeteorSpawn)
      requires Valid() && SpawnInRange(spawn)
      modifies this
      ensures |meteors| <= MAX_METEORS ==> Valid()
      ensures |meteors| == |old(meteors)| + 1 && meteors[..|old(meteors)|] == old(meteors)
      ensures fresh(meteors[|meteors| - 1])
      ensures meteors[|meteors| - 1].pos == Vec3(spawn.x, 0.0, -20.0)
      ensures meteors[|meteors| - 1].radius == 0.4 * spawn.visualRadius
      ensures meteors[|meteors| - 1].speed == spawn.speed
      ensures meteors[|meteors| - 1].direction == Vec3(0.0, 0.0, spawn.drift)
      ensures !meteors[|meteors| - 1].hit && !meteors[|meteors| - 1].discard
      ensures meteors[|meteors| - 1].flashValue == 0.0
      ensures meteors[|meteors| - 1].deathTimer == TimerState(0.0, false)
      ensures lasers == old(lasers) && player == old(player) && meteorTimer == old(meteorTimer)
      ensures state == old(state) && score == old(score) && close == old(close)
      ensures Repr == old(Repr) + {meteors[|meteors| - 1]}
      ensures Bodies(meteors) == old(Bodies(meteors)) + [SpawnBody(spawn)]
      ensures MeteorLive(meteors) == old(MeteorLive(meteors)) + [true]
      ensures States(meteors) == old(States(meteors)) + [SpawnState(spawn)]
    {
      var m := new Meteor(spawn);
      meteors := meteors + [m];
      Repr := Repr + {m};
      assert meteors[..|old(meteors)|] == old(meteors);
    }

    /** create_meteor, the spawn timer's callback: spawns only below the cap. */
    method CreateMeteor(spawn: MeteorSpawn)
      requires Valid() && SpawnInRange(spawn)
      modifies this
      ensures Valid()
      ensures |meteors| == Created(|old(meteors)|)
      ensures meteors[..|old(meteors)|] == old(meteors)
      ensures |meteors| > |old(meteors)| ==> fresh(meteors[|meteors| - 1])
      ensures Repr == if |meteors| > |old(meteors)| then old(Repr) + {meteors[|meteors| - 1]} else old(Repr)
      ensures Bodies(meteors) == old(Bodies(meteors)) + if |old(meteors)| < MAX_METEORS then [SpawnBody(spawn)] else []
      ensures MeteorLive(meteors) == old(MeteorLive(meteors)) + if |old(meteors)| < MAX_METEORS then [true] else []
      ensures States(meteors) == old(States(meteors)) + if |old(meteors)| < MAX_METEORS then [SpawnState(spawn)] else []
      ensures lasers == old(lasers) && player == old(player) && meteorTimer == old(meteorTimer)
      ensures state == old(state) && score == old(score) && close == old(close)
    {
      if |meteors| < MAX_METEORS {
        SpawnMeteor(spawn);
      }
    }

    /** shoot_laser: one new laser at the given position at the end of the list. */
    method ShootLaser(pos: Vec3)
      requires Valid()
      modifies this
      ensures Valid()
      ensures |lasers| == |old(lasers)| + 1 && lasers[..|old(lasers)|] == old(lasers)
      ensures fresh(lasers[|lasers| - 1])
      ensures lasers[|lasers| - 1].pos == pos && !lasers[|lasers| - 1].discard
      ensures meteors == old(meteors) && player == old(player) && meteorTimer == old(meteorTimer)
      ensures state == old(state) && score == old(score) && close == old(close)
      ensures Distinct(old(lasers)) ==> Distinct(lasers)
      ensures Repr == old(Repr) + {lasers[|lasers| - 1]}
      ensures Positions(lasers) == old(Positions(lasers)) + [pos]
      ensures Discards(lasers) == old(Discards(lasers)) + [false]
      ensures States(meteors) == old(States(meteors)) && player.State() == old(player.State())
      ensures meteorTimer.State() == old(meteorTimer.State())
    {
      var l := new Laser(pos);
      lasers := lasers + [l];
      Repr := Repr + {l};
      assert lasers[..|old(lasers)|] == old(lasers);
    }

    /** check_discard: both lists lose exactly their discarded entities, in order. */
    method CheckDiscard()
      requires Valid()
      modifies this
      ensures Valid()
      ensures lasers == Keep(old(lasers), old(LaserLive(lasers)))
      ensures meteors == Keep(old(meteors), old(MeteorLive(meteors)))
      ensures forall l :: l in lasers <==> l in old(lasers) && !l.discard
      ensures forall m :: m in meteors <==> m in old(meteors) && !m.discard
      ensures Positions(lasers) == Keep(old(Positions(lasers)), old(LaserLive(lasers)))
      ensures Discards(lasers) == Unmarked(|lasers|)
      ensures Bodies(meteors) == Keep(old(Bodies(meteors)), old(MeteorLive(meteors)))
      ensures States(meteors) == Keep(old(States(meteors)), old(MeteorLive(meteors)))
      ensures player == old(player) && meteorTimer == old(meteorTimer)
      ensures player.State() == old(player.State()) && meteorTimer.State() == old(meteorTimer.State())
      ensures state == old(state) && score == old(score) && close == old(close)
      ensures Repr == old(Repr)
    {
      PruneLasers();
      PruneMeteors();
    }

    /** The lasers' comprehension of check_discard. */
    method PruneLasers()
      requires Valid()
      modifies this
      ensures Valid()
      ensures lasers == Keep(old(lasers), old(LaserLive(lasers)))
      ensures forall l :: l in lasers <==> l in old(lasers) && !l.discard
      ensures Positions(lasers) == Keep(old(Positions(lasers)), old(LaserLive(lasers)))
      ensures Discards(lasers) == Unmarked(|lasers|)
      ensures meteors == old(meteors) && player == old(player) && meteorTimer == old(meteorTimer)
      ensures MeteorLive(meteors) == old(MeteorLive(meteors))
      ensures Bodies(meteors) == old(Bodies(meteors)) && States(meteors) == old(States(meteors))
      ensures state == old(state) && score == old(score) && close == old(close)
      ensures Repr == old(Repr)
    {
      assert Apart();
      var lk := LaserLive(lasers);
      ghost var ls0 := lasers;
      PositionsKeep(ls0, lk);
      ghost var kept := Positions(Keep(ls0, lk));
      lasers := Filter(lasers, lk);
      assert Positions(lasers) == kept;
      forall l ensures l in lasers <==> l in ls0 && !l.discard {
        KeepMembers(ls0, lk, l);
      }
      KeepDistinct(ls0, lk);
    }

    /** The meteors' comprehension of check_discard. */
    method PruneMeteors()
      requires Valid()
      modifies this
      ensures Valid()
      ensures meteors == Keep(old(meteors), old(MeteorLive(meteors)))
      ensures forall m :: m in meteors <==> m in old(meteors) && !m.discard
      ensures Bodies(meteors) == Keep(old(Bodies(meteors)), old(MeteorLive(meteors)))
      ensures States(meteors) == Keep(old(States(meteors)), old(MeteorLive(meteors)))
      ensures lasers == old(lasers) && player == old(player) && meteorTimer == old(meteorTimer)
      ensures Positions(lasers) == old(Positions(lasers)) && Discards(lasers) == old(Discards(lasers))
      ensures state == old(state) && score == old(score) && close == old(close)
      ensures Repr == old(Repr)
    {
      assert Apart();
      var mk := MeteorLive(meteors);
      ghost var ms0 := meteors;
      BodiesKeep(ms0, mk);
      StatesKeep(ms0, mk);
      ghost var kept, keptStates := Bodies(Keep(ms0, mk)), States(Keep(ms0, mk));
      meteors := Filter(meteors, mk);
      assert Bodies(meteors) == kept;
      assert States(meteors) == keptStates;
      forall m ensures m in meteors <==> m in ms0 && !m.discard {
        KeepMembers(ms0, mk, m);
      }
      KeepDistinct(ms0, mk);
    }

    /** check_collisions. Outside the playing state nothing happens. A meteor
        overlapping the player ends the game before any laser is tested; otherwise
        every overlapping (laser, meteor) pair scores one point, discards the laser
        and flashes the meteor with its death timer restarted. */
    method CheckCollisions() returns (ghost struck: bool)
      requires Valid()
      modifies this, lasers, meteors
      ensures Valid()
      ensures lasers == old(lasers) && meteors == old(meteors)
      ensures player == old(player) && meteorTimer == old(meteorTimer) && close == old(close)
      ensures player.State() == old(player.State()) && meteorTimer.State() == old(meteorTimer.State())
      ensures Repr == old(Repr)
      ensures struck <==> old(state) == Playing && PlayerStruck(tests, old(player.pos), old(Bodies(meteors)))
      ensures state == if struck then GameOver else old(state)
      ensures Positions(lasers) == old(Positions(lasers)) && Bodies(meteors) == old(Bodies(meteors))
      ensures old(state) != Playing || struck ==>
        score == old(score) && Discards(lasers) == old(Discards(lasers)) && States(meteors) == old(States(meteors))
      ensures old(state) == Playing && !struck ==>
        && score == old(score) + PairCount(tests, laserBox, old(Positions(lasers)), old(Bodies(meteors)))
        && Discards(lasers) == Hits(tests, laserBox, old(Positions(lasers)), old(Bodies(meteors)), old(Discards(lasers)), |lasers|)
        && States(meteors) == Outcomes(tests, laserBox, old(Positions(lasers)), old(Bodies(meteors)), old(States(meteors)))
    {
      struck := false;
      if state != Playing {
        return;
      }
      var hit := FindPlayerHit(tests, player.pos, meteors);
      if hit {
        struck := true;
        state := GameOver;
        return;
      }
      ScoreLasers();
    }

    /** The laser-vs-meteor part of check_collisions. */
    method ScoreLasers()
      requires Valid()
      modifies this, lasers, meteors
      ensures Valid()
      ensures lasers == old(lasers) && meteors == old(meteors) && state == old(state)
      ensures player == old(player) && meteorTimer == old(meteorTimer) && close == old(close)
      ensures player.State() == old(player.State()) && meteorTimer.State() == old(meteorTimer.State())
      ensures Repr == old(Repr)
      ensures Positions(lasers) == old(Positions(lasers)) && Bodies(meteors) == old(Bodies(meteors))
      ensures score == old(score) + PairCount(tests, laserBox, old(Positions(lasers)), old(Bodies(meteors)))
      ensures Discards(lasers) == Hits(tests, laserBox, old(Positions(lasers)), old(Bodies(meteors)), old(Discards(lasers)), |lasers|)
      ensures States(meteors) == Outcomes(tests, laserBox, old(Positions(lasers)), old(Bodies(meteors)), old(States(meteors)))
    {
      assert Apart();
      var gain := LaserPass(tests, laserBox, lasers, meteors);
      score := score + gain;
    }

    /** The start of a playing tick: the spawn timer advances by the frame time
        and, when it expires, create_meteor runs. */
    method TickSpawnTimer(frameDt: real, spawn: MeteorSpawn) returns (fired: bool)
      requires Valid() && SpawnInRange(spawn)
      modifies this, meteorTimer
      ensures Valid()
      ensures fired <==> Expires(old(meteorTimer.State()), METEOR_TIMER_DURATION, frameDt)
      ensures meteorTimer == old(meteorTimer)
      ensures meteorTimer.State() == Step(old(meteorTimer.State()), METEOR_TIMER_DURATION, true, frameDt)
      ensures |meteors| == (if fired then Created(|old(meteors)|) else |old(meteors)|)
      ensures meteors[..|old(meteors)|] == old(meteors)
      ensures forall m :: m in meteors ==> m in old(meteors) || fresh(m)
      ensures lasers == old(lasers) && player == old(player)
      ensures Positions(lasers) == old(Positions(lasers)) && LaserLive(lasers) == old(LaserLive(lasers))
      ensures player.State() == old(player.State())
      ensures state == old(state) && score == old(score) && close == old(close)
      ensures fresh(Repr - old(Repr))
      ensures Bodies(meteors) == old(Bodies(meteors))
        + if fired && |old(meteors)| < MAX_METEORS then [SpawnBody(spawn)] else []
      ensures MeteorLive(meteors) == old(MeteorLive(meteors))
        + if fired && |old(meteors)| < MAX_METEORS then [true] else []
      ensures States(meteors) == old(States(meteors))
        + if fired && |old(meteors)| < MAX_METEORS then [SpawnState(spawn)] else []
    {
      assert Apart();
      fired := meteorTimer.Update(frameDt);
      assert States(meteors) == old(States(meteors));
      if fired {
        CreateMeteor(spawn);
        assert forall m :: m in meteors ==> m in old(meteors) || m == meteors[|meteors| - 1] by {
          forall m | m in meteors ensures m in old(meteors) || m == meteors[|meteors| - 1] {
            var j :| 0 <= j < |meteors| && meteors[j] == m;
            if j < |old(meteors)| {
              assert meteors[..|old(meteors)|][j] == m;
            }
          }
        }
      }
    }

    /** The entity updates of a playing tick: every laser moves, then every meteor. */
    method MoveEntities(dt: real, frameDt: real)
      requires Valid()
      modifies lasers, meteors
      ensures Valid()
      ensures Repr == old(Repr) && lasers == old(lasers) && meteors == old(meteors)
      ensures player == old(player) && meteorTimer == old(meteorTimer)
      ensures player.State() == old(player.State()) && meteorTimer.State() == old(meteorTimer.State())
      ensures state == old(state) && score == old(score) && close == old(close)
      ensures forall k :: 0 <= k < |lasers| ==>
        lasers[k].pos == Displace(old(lasers[k].pos), lasers[k].direction, lasers[k].speed, dt)
      ensures forall k :: 0 <= k < |lasers| ==> lasers[k].discard == old(lasers[k].discard)
      ensures forall k :: 0 <= k < |meteors| ==>
        meteors[k].State() == Advance(old(meteors[k].State()), meteors[k].direction, meteors[k].speed, dt, frameDt)
      ensures Positions(lasers) == Flown(old(Positions(lasers)), dt) && Discards(lasers) == old(Discards(lasers))
      ensures States(meteors) == old(Advanced(meteors, dt, frameDt))
    {
      assert Apart();
      UpdateLasers(lasers, dt);
      UpdateMeteors(meteors, dt, frameDt);
    }

    /** The craft's update, with the laser it may ask for appended to the list. */
    method MovePlayer(keys: Keys, dt: real, sin: real -> real)
      requires Valid()
      modifies this, player
      ensures Valid()
      ensures player == old(player) && meteors == old(meteors) && meteorTimer == old(meteorTimer)
      ensures meteorTimer.State() == old(meteorTimer.State())
      ensures state == old(state) && score == old(score) && close == old(close)
      ensures fresh(Repr - old(Repr))
      ensures player.State() == Fly(old(player.State()), keys, dt, sin)
      ensures |lasers| == |old(lasers)| + (if keys.space then 1 else 0) && lasers[..|old(lasers)|] == old(lasers)
      ensures keys.space ==> fresh(lasers[|lasers| - 1])
      ensures Positions(lasers) == old(Positions(lasers)) + if keys.space then [Add(old(player.pos), Vec3(0.0, 0.0, -1.0))] else []
      ensures Discards(lasers) == old(Discards(lasers)) + if keys.space then [false] else []
      ensures States(meteors) == old(States(meteors))
    {
      var shot := SteerCraft(keys, dt, sin);
      if shot.Some? {
        ShootLaser(shot.value);
      }
    }

    /** The craft's update on the game's craft; shot is the laser it asks the game
        to shoot, if any. */
    method SteerCraft(keys: Keys, dt: real, sin: real -> real) returns (shot: Option<Vec3>)
      requires Valid()
      modifies player
      ensures Valid()
      ensures player.State() == Fly(old(player.State()), keys, dt, sin)
      ensures player.pos.x == ClampX(old(player.pos.x) + Steer(keys.right, keys.left).dirX * PLAYER_SPEED * dt)
      ensures shot == if keys.space then Some(Add(old(player.pos), Vec3(0.0, 0.0, -1.0))) else None
      ensures Positions(lasers) == old(Positions(lasers)) && Discards(lasers) == old(Discards(lasers))
      ensures States(meteors) == old(States(meteors))
      ensures meteorTimer.State() == old(meteorTimer.State())
    {
      assert Apart();
      shot := player.Update(keys, dt, sin);
    }

    /** The end of a playing tick: meteors at depth 10 or beyond are dropped. */
    method CullMeteors()
      requires Valid()
      modifies this
      ensures Valid()
      ensures meteors == Keep(old(meteors), old(MeteorNear(meteors)))
      ensures forall m :: m in meteors <==> m in old(meteors) && m.pos.z < CULL_DEPTH
      ensures meteors == Keep(old(meteors), old(NearMask(States(meteors))))
      ensures States(meteors) == Keep(old(States(meteors)), old(NearMask(States(meteors))))
      ensures lasers == old(lasers) && player == old(player) && meteorTimer == old(meteorTimer)
      ensures Positions(lasers) == old(Positions(lasers)) && Discards(lasers) == old(Discards(lasers))
      ensures player.State() == old(player.State()) && meteorTimer.State() == old(meteorTimer.State())
      ensures state == old(state) && score == old(score) && close == old(close)
      ensures Repr == old(Repr)
    {
      assert Apart();
      var near := MeteorNear(meteors);
      ghost var ms0 := meteors;
      assert near == NearMask(States(ms0));
      StatesKeep(ms0, near);
      ghost var kept := States(Keep(ms0, near));
      meteors := Filter(meteors, near);
      assert States(meteors) == kept;
      forall m ensures m in meteors <==> m in ms0 && m.pos.z < CULL_DEPTH {
        KeepMembers(ms0, near, m);
      }
      KeepDistinct(ms0, near);
    }

    /** The spawn timer and the pruning that open a playing tick. The meteors left
        are the undiscarded ones, in order, followed by the one the timer spawned
        if it expired below the cap. */
    method SpawnAndPrune(frameDt: real, spawn: MeteorSpawn)
      requires Valid() && SpawnInRange(spawn)
      modifies Repr
      ensures Valid() && fresh(Repr - old(Repr))
      ensures Bodies(meteors) == Keep(old(Bodies(meteors)), old(MeteorLive(meteors)))
        + if Expires(old(meteorTimer.State()), METEOR_TIMER_DURATION, frameDt) && |old(meteors)| < MAX_METEORS then [SpawnBody(spawn)] else []
      ensures States(meteors) == Keep(old(States(meteors)), old(MeteorLive(meteors)))
        + if Expires(old(meteorTimer.State()), METEOR_TIMER_DURATION, frameDt) && |old(meteors)| < MAX_METEORS then [SpawnState(spawn)] else []
      ensures lasers == Keep(old(lasers), old(LaserLive(lasers)))
      ensures Positions(lasers) == Keep(old(Positions(lasers)), old(LaserLive(lasers)))
      ensures Discards(lasers) == Unmarked(|lasers|)
      ensures state == old(state) && score == old(score) && close == old(close)
      ensures player == old(player) && meteorTimer == old(meteorTimer) && player.State() == old(player.State())
      ensures meteorTimer.State() == Step(old(meteorTimer.State()), METEOR_TIMER_DURATION, true, frameDt)
    {
      ghost var b0, s0, k0 := Bodies(meteors), States(meteors), MeteorLive(meteors);
      var fired := TickSpawnTimer(frameDt, spawn);
      ghost var spawned := fired && |old(meteors)| < MAX_METEORS;
      KeepAppend(b0, k0, if spawned then [SpawnBody(spawn)] else [], if spawned then [true] else []);
      KeepAppend(s0, k0, if spawned then [SpawnState(spawn)] else [], if spawned then [true] else []);
      assert Keep([SpawnBody(spawn)], [true]) == [SpawnBody(spawn)] by {
        assert [SpawnBody(spawn)][..0] == [];
      }
      assert Keep([SpawnState(spawn)], [true]) == [SpawnState(spawn)] by {
        assert [SpawnState(spawn)][..0] == [];
      }
      CheckDiscard();
    }

    /** The first half of the playing branch of update: spawn timer, pruning,
        collisions. The crash test runs against the meteors the pruning left. */
    method TickFront(frameDt: real, spawn: MeteorSpawn) returns (ghost struck: bool, ghost pruned: seq<MeteorState>)
      requires Valid() && state == Playing && SpawnInRange(spawn)
      modifies Repr
      ensures Valid() && fresh(Repr - old(Repr))
      ensures struck <==> PlayerStruck(tests, old(player.pos), Bodies(meteors))
      ensures Bodies(meteors) == Keep(old(Bodies(meteors)), old(MeteorLive(meteors)))
        + if Expires(old(meteorTimer.State()), METEOR_TIMER_DURATION, frameDt) && |old(meteors)| < MAX_METEORS then [SpawnBody(spawn)] else []
      ensures pruned == Keep(old(States(meteors)), old(MeteorLive(meteors)))
        + if Expires(old(meteorTimer.State()), METEOR_TIMER_DURATION, frameDt) && |old(meteors)| < MAX_METEORS then [SpawnState(spawn)] else []
      ensures |pruned| == |meteors|
      ensures lasers == Keep(old(lasers), old(LaserLive(lasers)))
      ensures Positions(lasers) == Keep(old(Positions(lasers)), old(LaserLive(lasers)))
      ensures state == if struck then GameOver else Playing
      ensures struck ==> score == old(score) && Discards(lasers) == Unmarked(|lasers|) && States(meteors) == pruned
      ensures !struck ==>
        && score == old(score) + PairCount(tests, laserBox, Positions(lasers), Bodies(meteors))
        && Discards(lasers) == Hits(tests, laserBox, Positions(lasers), Bodies(meteors), Unmarked(|lasers|), |lasers|)
        && States(meteors) == Outcomes(tests, laserBox, Positions(lasers), Bodies(meteors), pruned)
      ensures score >= old(score) && close == old(close)
      ensures player == old(player) && meteorTimer == old(meteorTimer) && player.State() == old(player.State())
      ensures meteorTimer.State() == Step(old(meteorTimer.State()), METEOR_TIMER_DURATION, true, frameDt)
    {
      SpawnAndPrune(frameDt, spawn);
      pruned := States(meteors);
      struck := CheckCollisions();
    }

    /** The second half of the playing branch of update: lasers, meteors, player,
        depth cull. */
    method TickBack(keys: Keys, dt: real, frameDt: real, sin: real -> real)
      requires Valid()
      modifies Repr
      ensures Valid()
      ensures fresh(Repr - old(Repr))
      ensures state == old(state) && score == old(score) && close == old(close)
      ensures player == old(player) && meteorTimer == old(meteorTimer)
      ensures meteorTimer.State() == old(meteorTimer.State())
      ensures player.State() == Fly(old(player.State()), keys, dt, sin)
      ensures |lasers| == |old(lasers)| + (if keys.space then 1 else 0) && lasers[..|old(lasers)|] == old(lasers)
      ensures keys.space ==> fresh(lasers[|lasers| - 1])
      ensures Positions(lasers) == Flown(old(Positions(lasers)), dt)
        + if keys.space then [Add(old(player.pos), Vec3(0.0, 0.0, -1.0))] else []
      ensures Discards(lasers) == old(Discards(lasers)) + if keys.space then [false] else []
      ensures meteors == Keep(old(meteors), NearMask(old(Advanced(meteors, dt, frameDt))))
      ensures States(meteors) == Keep(old(Advanced(meteors, dt, frameDt)), NearMask(old(Advanced(meteors, dt, frameDt))))
      ensures forall m :: m in meteors <==> m in old(meteors) && m.pos.z < CULL_DEPTH
    {
      MoveEntities(dt, frameDt);
      MovePlayer(keys, dt, sin);
      CullMeteors();
    }

    /** The playing branch of update, in the source's order: spawn timer, pruning,
        collisions, lasers, meteors, player, depth cull. */
    method PlayingTick(keys: Keys, dt: real, frameDt: real, spawn: MeteorSpawn, sin: real -> real)
      returns (ghost struck: bool, ghost seen: seq<Sphere>, ghost shots: seq<Vec3>)
      requires Valid() && state == Playing && SpawnInRange(spawn)
      modifies Repr
      ensures Valid()
      ensures fresh(Repr - old(Repr))
      ensures struck <==> PlayerStruck(tests, old(player.pos), seen)
      ensures seen == Keep(old(Bodies(meteors)), old(MeteorLive(meteors)))
        + if Expires(old(meteorTimer.State()), METEOR_TIMER_DURATION, frameDt) && |old(meteors)| < MAX_METEORS then [SpawnBody(spawn)] else []
      ensures shots == Keep(old(Positions(lasers)), old(LaserLive(lasers)))
      ensures state == if struck then GameOver else Playing
      ensures score == old(score) + if struck then 0 else PairCount(tests, laserBox, shots, seen)
      ensures close == old(close)
      ensures player == old(player) && meteorTimer == old(meteorTimer)
      ensures meteorTimer.State() == Step(old(meteorTimer.State()), METEOR_TIMER_DURATION, true, frameDt)
      ensures player.State() == Fly(old(player.State()), keys, dt, sin)
      ensures Positions(lasers) == Flown(shots, dt) + if keys.space then [Add(old(player.pos), Vec3(0.0, 0.0, -1.0))] else []
      ensures Discards(lasers) == (if struck then Unmarked(|shots|) else Hits(tests, laserBox, shots, seen, Unmarked(|shots|), |shots|))
        + if keys.space then [false] else []
      ensures keys.space ==> fresh(lasers[|lasers| - 1])
      ensures forall m :: m in meteors ==> m.pos.z < CULL_DEPTH
    {
      ghost var pruned;
      struck, pruned := TickFront(frameDt, spawn);
      seen, shots := Bodies(meteors), Positions(lasers);
      TickBack(keys, dt, frameDt, sin);
    }

    /** update: the start screen waits for space; a playing tick runs the world;
        in game over, R resets the world and plays again and escape asks to close.
        A crash in a playing tick reaches the game-over branch in the same update.
        struck reports that the craft was hit in this update. */
    method Update(keys: Keys, dt: real, frameDt: real, spawn: MeteorSpawn, sin: real -> real)
      returns (ghost struck: bool, ghost seen: seq<Sphere>, ghost shots: seq<Vec3>)
      requires Valid() && SpawnInRange(spawn)
      modifies Repr
      ensures Valid()
      ensures fresh(Repr - old(Repr))
      ensures struck <==> old(state) == Playing && PlayerStruck(tests, old(player.pos), seen)
      ensures old(state) == Playing ==>
        seen == Keep(old(Bodies(meteors)), old(MeteorLive(meteors)))
                + if Expires(old(meteorTimer.State()), METEOR_TIMER_DURATION, frameDt) && |old(meteors)| < MAX_METEORS then [SpawnBody(spawn)] else []
      ensures old(state) == Playing ==> shots == Keep(old(Positions(lasers)), old(LaserLive(lasers)))
      ensures state == NextState(old(state), keys, struck)
      ensures Restarts(old(state), keys, struck) ==>
        && score == 0 && lasers == [] && meteors == [] && !close
        && fresh(player) && NewCraft(player.State())
        && fresh(meteorTimer) && meteorTimer.State() == TimerState(0.0, true)
      ensures !Restarts(old(state), keys, struck) ==>
        close == (old(close) || (state == GameOver && keys.escape))
      ensures old(state) != Playing && !Restarts(old(state), keys, struck) ==>
        && score == old(score) && lasers == old(lasers) && meteors == old(meteors)
        && player == old(player) && player.State() == old(player.State())
        && meteorTimer == old(meteorTimer) && meteorTimer.State() == old(meteorTimer.State())
        && Positions(lasers) == old(Positions(lasers)) && Discards(lasers) == old(Discards(lasers))
        && States(meteors) == old(States(meteors))
      ensures old(state) == Playing && !Restarts(old(state), keys, struck) ==>
        && score == old(score) + (if struck then 0 else PairCount(tests, laserBox, shots, seen))
        && player == old(player) && meteorTimer == old(meteorTimer)
        && meteorTimer.State() == Step(old(meteorTimer.State()), METEOR_TIMER_DURATION, true, frameDt)
        && player.State() == Fly(old(player.State()), keys, dt, sin)
        && Positions(lasers) == Flown(shots, dt) + (if keys.space then [Add(old(player.pos), Vec3(0.0, 0.0, -1.0))] else [])
        && (forall m :: m in meteors ==> m.pos.z < CULL_DEPTH)
    {
      struck, seen, shots := false, [], [];
      if state == Start {
        if keys.space {
          state := Playing;
        }
      } else if state == Playing {
        struck, seen, shots := PlayingUpdate(keys, dt, frameDt, spawn, sin);
      } else {
        GameOverKeys(keys);
      }
    }

    /** update from the playing state: a playing tick, then the game-over branch
        when the tick crashed the craft. */
    method PlayingUpdate(keys: Keys, dt: real, frameDt: real, spawn: MeteorSpawn, sin: real -> real)
      returns (ghost struck: bool, ghost seen: seq<Sphere>, ghost shots: seq<Vec3>)
      requires Valid() && state == Playing && SpawnInRange(spawn)
      modifies Repr
      ensures Valid() && fresh(Repr - old(Repr))
      ensures struck <==> PlayerStruck(tests, old(player.pos), seen)
      ensures seen == Keep(old(Bodies(meteors)), old(MeteorLive(meteors)))
        + if Expires(old(meteorTimer.State()), METEOR_TIMER_DURATION, frameDt) && |old(meteors)| < MAX_METEORS then [SpawnBody(spawn)] else []
      ensures shots == Keep(old(Positions(lasers)), old(LaserLive(lasers)))
      ensures state == NextState(Playing, keys, struck)
      ensures struck && keys.r ==>
        && score == 0 && lasers == [] && meteors == [] && !close
        && fresh(player) && NewCraft(player.State())
        && fresh(meteorTimer) && meteorTimer.State() == TimerState(0.0, true)
      ensures !(struck && keys.r) ==>
        && close == (old(close) || (struck && keys.escape))
        && score == old(score) + (if struck then 0 else PairCount(tests, laserBox, shots, seen))
        && player == old(player) && meteorTimer == old(meteorTimer)
        && meteorTimer.State() == Step(old(meteorTimer.State()), METEOR_TIMER_DURATION, true, frameDt)
        && player.State() == Fly(old(player.State()), keys, dt, sin)
        && Positions(lasers) == Flown(shots, dt) + (if keys.space then [Add(old(player.pos), Vec3(0.0, 0.0, -1.0))] else [])
        && (forall m :: m in meteors ==> m.pos.z < CULL_DEPTH)
    {
      struck, seen, shots := PlayingTick(keys, dt, frameDt, spawn, sin);
      if state == GameOver {
        GameOverKeys(keys);
      }
    }

    /** The game-over branch of update: R resets the world and plays again; failing
        that, escape asks to close. */
    method GameOverKeys(keys: Keys)
      requires Valid() && state == GameOver
      modifies this
      ensures Valid() && fresh(Repr - old(Repr))
      ensures state == if keys.r then Playing else GameOver
      ensures keys.r ==>
        && score == 0 && lasers == [] && meteors == [] && !close
        && fresh(player) && NewCraft(player.State())
        && fresh(meteorTimer) && meteorTimer.State() == TimerState(0.0, true)
      ensures !keys.r ==>
        && close == (old(close) || keys.escape) && score == old(score) && Repr == old(Repr)
        && lasers == old(lasers) && meteors == old(meteors)
        && player == old(player) && player.State() == old(player.State())
        && meteorTimer == old(meteorTimer) && meteorTimer.State() == old(meteorTimer.State())
        && Positions(lasers) == old(Positions(lasers)) && Discards(lasers) == old(Discards(lasers))
        && Bodies(meteors) == old(Bodies(meteors)) && States(meteors) == old(States(meteors))
    {
      assert Apart();
      if keys.r {
        state := Playing;
        ResetGame();
      } else if keys.escape {
        close := true;
      }
    }

    /** The game, its craft and its spawn timer are none of the lasers and meteors. */
    predicate Apart()
      reads this
    {
      && (forall k :: 0 <= k < |lasers| ==>
            lasers[k] as object != player && lasers[k] as object != meteorTimer && lasers[k] as object != this)
      && (forall k :: 0 <= k < |meteors| ==>
            meteors[k] as object != player && meteors[k] as object != meteorTimer && meteors[k] as object != this)
    }
  }
}
