/**
 * The particle pool of src/framework/systems/particles/particle_system.cpp:
 * a fixed number of particle objects owned by the game-object manager, a
 * slot finder that scans forward from the last slot it returned and then
 * wraps around, respawning, and the per-frame decay.
 *
 * The generator keeps pointers to objects inside the manager's map; here it
 * keeps their ids and changes an object by writing it back through
 * GameObjectManager.Update. Lifetimes, positions and colours are exact reals.
 * The two rand() draws of respawnParticle are inputs.
 */
module Particles {
  import opened Common
  import opened GameObjects
  import Mesh

  /** The component a slot that is not (or no longer) a particle would read as. */
  const Absent: ParticleComponent := ParticleComponent(Zero2, Zero2, Vec4(1.0, 1.0, 1.0, 1.0), 0.0)

  function ComponentAt(objects: map<Id, GameObject>, id: Id): ParticleComponent
  {
    if id in objects && objects[id].particle.Some? then objects[id].particle.value else Absent
  }

  /** The particle components of the slots `ids`, in slot order. */
  function ComponentsOf(objects: map<Id, GameObject>, ids: seq<Id>): (ps: seq<ParticleComponent>)
    ensures |ps| == |ids|
    ensures forall k :: 0 <= k < |ids| ==> ps[k] == ComponentAt(objects, ids[k])
  {
    seq(|ids|, k requires 0 <= k < |ids| => ComponentAt(objects, ids[k]))
  }

  predicate Dead(p: ParticleComponent) { p.life <= 0.0 }

  // ---------------------------------------------------------------------
  // firstUnusedParticle
  // ---------------------------------------------------------------------

  /** The first dead slot in [lo, hi), if there is one. */
  function FirstDead(ps: seq<ParticleComponent>, lo: nat, hi: nat): (r: Option<nat>)
    requires lo <= hi <= |ps|
    ensures r.Some? ==> lo <= r.value < hi && Dead(ps[r.value])
    ensures r.Some? ==> forall j :: lo <= j < r.value ==> !Dead(ps[j])
    ensures r.None? <==> forall j :: lo <= j < hi ==> !Dead(ps[j])
    decreases hi - lo
  {
    if lo == hi then None
    else if Dead(ps[lo]) then Some(lo)
    else FirstDead(ps, lo + 1, hi)
  }

  /** The slot firstUnusedParticle picks when the last slot it returned was
   *  `last`: the first dead slot at or after `last`, else the first dead slot
   *  before it, else slot 0. */
  function FirstUnused(ps: seq<ParticleComponent>, last: nat): (i: nat)
    requires last == 0 || last < |ps|
    ensures |ps| > 0 ==> i < |ps|
    ensures (exists j :: last <= j < |ps| && Dead(ps[j])) ==>
      last <= i && Dead(ps[i]) && forall j :: last <= j < i ==> !Dead(ps[j])
    ensures (forall j :: last <= j < |ps| ==> !Dead(ps[j])) && (exists j :: 0 <= j < last && Dead(ps[j])) ==>
      i < last && Dead(ps[i]) && forall j :: 0 <= j < i ==> !Dead(ps[j])
    ensures (forall j :: 0 <= j < |ps| ==> !Dead(ps[j])) ==> i == 0
  {
    match FirstDead(ps, last, |ps|)
    case Some(i) => i
    case None =>
      match FirstDead(ps, 0, last)
      case Some(i) => i
      case None => 0
  }

  /** A dead slot with only live slots before it in [lo, hi) is the one FirstDead finds. */
  lemma {:induction false} FirstDeadAt(ps: seq<ParticleComponent>, lo: nat, hi: nat, i: nat)
    requires lo <= i < hi <= |ps| && Dead(ps[i])
    requires forall j :: lo <= j < i ==> !Dead(ps[j])
    ensures FirstDead(ps, lo, hi) == Some(i)
    decreases i - lo
  {
    if lo < i {
      FirstDeadAt(ps, lo + 1, hi, i);
    }
  }

  // ---------------------------------------------------------------------
  // respawnParticle and the per-frame decay
  // ---------------------------------------------------------------------

  /** respawnParticle: `random` and `rColor` are the two rand() draws, already
   *  scaled; the spread is added to both coordinates of the emitter's position. */
  function Respawned(emitter: GameObject, offset: Vec2, random: real, rColor: real): (p: ParticleComponent)
    ensures p.life == 1.0 && !Dead(p) && p.color.w == 1.0
    ensures p.velocity == emitter.rigidBody2d.velocity.Scaled(0.1)
    ensures p.color.x == p.color.y == p.color.z == rColor
    ensures p.position.x - emitter.transform2d.translation.x - offset.x == random
    ensures p.position.y - emitter.transform2d.translation.y - offset.y == random
  {
    ParticleComponent(
      Vec2(emitter.transform2d.translation.x + random + offset.x,
           emitter.transform2d.translation.y + random + offset.y),
      emitter.rigidBody2d.velocity.Scaled(0.1),
      Vec4(rColor, rColor, rColor, 1.0),
      1.0)
  }

  /** One particle after a frame of length dt: its life always drops by dt;
   *  position and alpha move only if it is still alive afterwards. */
  function Decayed(p: ParticleComponent, dt: real): (q: ParticleComponent)
    ensures q.life == p.life - dt && q.velocity == p.velocity
    ensures Dead(q) ==> q.position == p.position && q.color == p.color
    ensures !Dead(q) ==> q.position == p.position.Minus(p.velocity.Scaled(dt))
    ensures !Dead(q) ==> q.color == p.color.(w := p.color.w - dt * 2.5)
  {
    var life := p.life - dt;
    if life > 0.0 then
      p.(life := life, position := p.position.Minus(p.velocity.Scaled(dt)), color := p.color.(w := p.color.w - dt * 2.5))
    else
      p.(life := life)
  }

  /** The pool after the first n slots have decayed by dt. */
  function DecayedFrom(ps: seq<ParticleComponent>, dt: real, n: nat): (qs: seq<ParticleComponent>)
    ensures |qs| == |ps|
    ensures forall k :: 0 <= k < |ps| ==> qs[k] == if k < n then Decayed(ps[k], dt) else ps[k]
  {
    seq(|ps|, k requires 0 <= k < |ps| => if k < n then Decayed(ps[k], dt) else ps[k])
  }

  /** The random draws of one respawn. */
  datatype Draw = Draw(random: real, rColor: real)

  /** The pool and the last used slot after respawning one particle per draw,
   *  each in the slot firstUnusedParticle picks. */
  function SpawnAll(ps: seq<ParticleComponent>, last: nat, emitter: GameObject, offset: Vec2, draws: seq<Draw>)
    : (r: (seq<ParticleComponent>, nat))
    requires |ps| > 0 && last < |ps|
    ensures |r.0| == |ps| && r.1 < |ps|
    ensures draws == [] ==> r == (ps, last)
    decreases |draws|
  {
    if draws == [] then (ps, last)
    else
      var i := FirstUnused(ps, last);
      SpawnAll(ps[i := Respawned(emitter, offset, draws[0].random, draws[0].rColor)], i, emitter, offset, draws[1..])
  }

  /** One respawn revives a dead particle when the pool has one, and changes no
   *  other slot. */
  lemma SpawnOneRevives(ps: seq<ParticleComponent>, last: nat, emitter: GameObject, offset: Vec2, d: Draw)
    requires |ps| > 0 && last < |ps| && exists j :: 0 <= j < |ps| && Dead(ps[j])
    ensures var r := SpawnAll(ps, last, emitter, offset, [d]);
      Dead(ps[r.1]) && !Dead(r.0[r.1]) && forall k :: 0 <= k < |ps| && k != r.1 ==> r.0[k] == ps[k]
  {
    assert [d][1..] == [];
  }

  /** Respawning only ever writes fresh particles: every slot that differs from
   *  the pool the draws started from holds a particle with life 1. */
  lemma {:induction false} SpawnAllTouches(ps: seq<ParticleComponent>, last: nat, emitter: GameObject, offset: Vec2, draws: seq<Draw>)
    requires |ps| > 0 && last < |ps|
    ensures var r := SpawnAll(ps, last, emitter, offset, draws);
      forall k :: 0 <= k < |ps| && r.0[k] != ps[k] ==> r.0[k].life == 1.0
    decreases |draws|
  {
    if draws != [] {
      var i := FirstUnused(ps, last);
      var ps1 := ps[i := Respawned(emitter, offset, draws[0].random, draws[0].rColor)];
      SpawnAllTouches(ps1, i, emitter, offset, draws[1..]);
    }
  }

  /** Objects that differ between `before` and `after` only in the particle
   *  component of the slots `ids`. */
  predicate OnlyParticles(before: map<Id, GameObject>, after: map<Id, GameObject>, ids: seq<Id>)
  {
    after.Keys == before.Keys &&
    forall id :: id in before ==>
      after[id] == (if id in ids then before[id].(particle := after[id].particle) else before[id])
  }

  lemma OnlyParticlesTrans(a: map<Id, GameObject>, b: map<Id, GameObject>, c: map<Id, GameObject>, ids: seq<Id>)
    requires OnlyParticles(a, b, ids) && OnlyParticles(b, c, ids)
    ensures OnlyParticles(a, c, ids)
  {
  }

  /** Giving slot k's object a new particle component changes the pool at k
   *  only, and no other part of any object. */
  lemma SlotUpdated(objects: map<Id, GameObject>, ids: seq<Id>, k: nat, p: ParticleComponent)
    requires k < |ids| && ids[k] in objects
    requires forall i, j :: 0 <= i < j < |ids| ==> ids[i] != ids[j]
    ensures var after := objects[ids[k] := objects[ids[k]].(particle := Some(p))];
      ComponentsOf(after, ids) == ComponentsOf(objects, ids)[k := p] && OnlyParticles(objects, after, ids)
  {
    var after := objects[ids[k] := objects[ids[k]].(particle := Some(p))];
    forall i | 0 <= i < |ids| && i != k
      ensures ComponentAt(after, ids[i]) == ComponentAt(objects, ids[i])
    {
      assert ids[i] != ids[k];
    }
  }

  /** A freshly made particle slot: what init leaves in the manager's map. */
  predicate IsInitialParticle(o: GameObject, id: Id, square: Mesh.Model, textureDefault: Option<Handle>)
  {
    o.id == id && o.isParticle && !o.isHidden && !o.destroyed && !o.isMirror &&
    o.diffuseMap == textureDefault && o.transform2d.translation == Zero3 && o.transform2d.rotation == 0.0 &&
    o.particle == Some(ParticleComponent(Zero2, Zero2, Vec4(1.0, 1.0, 1.0, 1.0), 0.0)) &&
    o.rigidBody2d.velocity == Zero2 && o.model == Some(square) && o.transform2d.scale == Vec2(0.07, 0.07)
  }

  class ParticleGenerator {
    const gom: GameObjectManager
    const amount: nat
    /** The slots, as the ids of the particle objects. */
    var particles: seq<Id>
    var lastUsedParticle: nat

    ghost predicate Valid()
      reads this, gom
    {
      gom.Valid() && |particles| == amount &&
      (forall i, j :: 0 <= i < j < |particles| ==> particles[i] != particles[j]) &&
      (forall k :: 0 <= k < |particles| ==>
        particles[k] in gom.gameObjects && gom.gameObjects[particles[k]].isParticle &&
        gom.gameObjects[particles[k]].particle.Some?) &&
      (lastUsedParticle == 0 || lastUsedParticle < amount)
    }

    /** The particle components of the pool, slot by slot. */
    function Pool(): (ps: seq<ParticleComponent>)
      reads this, gom
      ensures |ps| == |particles|
    {
      ComponentsOf(gom.gameObjects, particles)
    }

    /** The constructor's init: `amount` new particle objects with life 0, zero
     *  velocity, scale .07, the default diffuse texture and the shared square
     *  model (4 vertices, 6 indices, whose buffers are `vertexBuffer` and
     *  `indexBuffer`). */
    constructor (gom: GameObjectManager, amount: nat, vertexBuffer: Handle, indexBuffer: Handle)
      requires gom.Valid() && gom.currentId + amount <= MAX_GAME_OBJECTS
      modifies gom
      ensures Valid() && this.gom == gom && this.amount == amount && lastUsedParticle == 0
      ensures gom.currentId == old(gom.currentId) + amount
      ensures forall k :: 0 <= k < amount ==> particles[k] == old(gom.currentId) + k
      ensures forall k :: 0 <= k < amount ==> IsInitialParticle(gom.gameObjects[particles[k]], particles[k],
        Mesh.CreateModel(4, 6, Mesh.NoAttachment, vertexBuffer, indexBuffer).value, gom.textureDefault)
      ensures forall id :: id in old(gom.gameObjects) ==> id in gom.gameObjects && gom.gameObjects[id] == old(gom.gameObjects[id])
      ensures forall k :: 0 <= k < amount ==> Pool()[k].life == 0.0
    {
      this.gom := gom;
      this.amount := amount;
      particles := [];
      lastUsedParticle := 0;
      new;
      var square := Mesh.CreateModel(4, 6, Mesh.NoAttachment, vertexBuffer, indexBuffer).value;
      var i := 0;
      while i < amount
        invariant i <= amount && gom.Valid() && |particles| == i
        invariant this.gom == gom && lastUsedParticle == 0
        invariant gom.currentId == old(gom.currentId) + i
        invariant forall k :: 0 <= k < i ==> particles[k] == old(gom.currentId) + k
        invariant forall k :: 0 <= k < i ==>
          particles[k] in gom.gameObjects && IsInitialParticle(gom.gameObjects[particles[k]], particles[k], square, gom.textureDefault)
        invariant forall id :: id in old(gom.gameObjects) ==> id in gom.gameObjects && gom.gameObjects[id] == old(gom.gameObjects[id])
      {
        var id := gom.MakeParticle(0.0, Zero2, Zero2, Vec4(1.0, 1.0, 1.0, 1.0));
        var o := gom.gameObjects[id];
        gom.Update(o.(rigidBody2d := o.rigidBody2d.(velocity := Zero2), model := Some(square),
                      transform2d := o.transform2d.(scale := Vec2(0.07, 0.07))));
        particles := particles + [id];
        i := i + 1;
      }
    }

    /** firstUnusedParticle: the slot FirstUnused picks, which also becomes the
     *  last used slot. */
    method FirstUnusedParticle() returns (i: nat)
      requires Valid()
      modifies this`lastUsedParticle
      ensures Valid()
      ensures i == FirstUnused(old(Pool()), old(lastUsedParticle)) && lastUsedParticle == i
    {
      ghost var ps := Pool();
      var k := lastUsedParticle;
      while k < amount
        invariant lastUsedParticle <= k <= amount
        invariant forall j :: lastUsedParticle <= j < k ==> !Dead(ps[j])
      {
        if gom.gameObjects[particles[k]].particle.value.life <= 0.0 {
          FirstDeadAt(ps, lastUsedParticle, amount, k);
          lastUsedParticle := k;
          return k;
        }
        k := k + 1;
      }
      k := 0;
      while k < lastUsedParticle
        invariant k <= lastUsedParticle
        invariant forall j :: 0 <= j < k ==> !Dead(ps[j])
      {
        if gom.gameObjects[particles[k]].particle.value.life <= 0.0 {
          FirstDeadAt(ps, 0, lastUsedParticle, k);
          lastUsedParticle := k;
          return k;
        }
        k := k + 1;
      }
      lastUsedParticle := 0;
      return 0;
    }

    /** respawnParticle on slot k: only that slot's particle component changes. */
    method RespawnParticle(k: nat, emitter: GameObject, offset: Vec2, d: Draw)
      requires Valid() && k < amount
      modifies gom`gameObjects
      ensures Valid()
      ensures Pool() == old(Pool())[k := Respawned(emitter, offset, d.random, d.rColor)]
      ensures OnlyParticles(old(gom.gameObjects), gom.gameObjects, particles)
    {
      var o := gom.gameObjects[particles[k]];
      SlotUpdated(gom.gameObjects, particles, k, Respawned(emitter, offset, d.random, d.rColor));
      gom.Update(o.(particle := Some(Respawned(emitter, offset, d.random, d.rColor))));
    }

    /** The first loop of update: one respawn per draw. */
    method SpawnParticles(emitter: GameObject, offset: Vec2, draws: seq<Draw>)
      requires Valid() && amount > 0
      modifies this`lastUsedParticle, gom`gameObjects
      ensures Valid()
      ensures (Pool(), lastUsedParticle) == SpawnAll(old(Pool()), old(lastUsedParticle), emitter, offset, draws)
      ensures OnlyParticles(old(gom.gameObjects), gom.gameObjects, particles)
    {
      ghost var target := SpawnAll(Pool(), lastUsedParticle, emitter, offset, draws);
      var i := 0;
      while i < |draws|
        invariant i <= |draws| && Valid()
        invariant SpawnAll(Pool(), lastUsedParticle, emitter, offset, draws[i..]) == target
        invariant OnlyParticles(old(gom.gameObjects), gom.gameObjects, particles)
      {
        ghost var before := gom.gameObjects;
        assert draws[i..][1..] == draws[i + 1..];
        var unused := FirstUnusedParticle();
        RespawnParticle(unused, emitter, offset, draws[i]);
        OnlyParticlesTrans(old(gom.gameObjects), before, gom.gameObjects, particles);
        i := i + 1;
      }
      assert draws[i..] == [];
    }

    /** One step of the second loop of update: slot i decays by dt. */
    method DecayParticle(i: nat, dt: real)
      requires Valid() && i < amount
      modifies gom`gameObjects
      ensures Valid()
      ensures Pool() == old(Pool())[i := Decayed(old(Pool())[i], dt)]
      ensures OnlyParticles(old(gom.gameObjects), gom.gameObjects, particles)
    {
      var o := gom.gameObjects[particles[i]];
      SlotUpdated(gom.gameObjects, particles, i, Decayed(o.particle.value, dt));
      gom.Update(o.(particle := Some(Decayed(o.particle.value, dt))));
    }

    /** The second loop of update: every slot decays by dt. */
    method DecayParticles(dt: real)
      requires Valid()
      modifies gom`gameObjects
      ensures Valid()
      ensures Pool() == DecayedFrom(old(Pool()), dt, amount)
      ensures OnlyParticles(old(gom.gameObjects), gom.gameObjects, particles)
    {
      ghost var ps := Pool();
      var i := 0;
      while i < amount
        invariant i <= amount && Valid()
        invariant Pool() == DecayedFrom(ps, dt, i)
        invariant OnlyParticles(old(gom.gameObjects), gom.gameObjects, particles)
      {
        ghost var before := gom.gameObjects;
        DecayParticle(i, dt);
        assert DecayedFrom(ps, dt, i)[i := Decayed(ps[i], dt)] == DecayedFrom(ps, dt, i + 1);
        OnlyParticlesTrans(old(gom.gameObjects), before, gom.gameObjects, particles);
        i := i + 1;
      }
    }

    /** update: respawn one particle per draw (the source indexes slot 0 of an
     *  empty pool, so a pool that respawns must not be empty), then decay every slot. */
    method Update(dt: real, emitter: GameObject, offset: Vec2, draws: seq<Draw>)
      requires Valid() && (draws != [] ==> amount > 0)
      modifies this`lastUsedParticle, gom`gameObjects
      ensures Valid()
      ensures amount > 0 ==> var spawned := SpawnAll(old(Pool()), old(lastUsedParticle), emitter, offset, draws);
        lastUsedParticle == spawned.1 && Pool() == DecayedFrom(spawned.0, dt, amount)
      ensures amount == 0 ==> lastUsedParticle == old(lastUsedParticle)
      ensures OnlyParticles(old(gom.gameObjects), gom.gameObjects, particles)
    {
      if amount > 0 {
        SpawnParticles(emitter, offset, draws);
      }
      ghost var between := gom.gameObjects;
      DecayParticles(dt);
      OnlyParticlesTrans(old(gom.gameObjects), between, gom.gameObjects, particles);
    }
  }
}
