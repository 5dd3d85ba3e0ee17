/** The fire missile: it stores the position it is aimed at and, when it
    touches something, kills the player, heats up a platform's hazard, or
    flies on. The flight (velocity, normalisation) is not modelled; the
    engine's component lookups on the touched object are inputs. */
module FireMissile {
  import opened Common
  import PH = PlatformHazard

  /** The engine's 32 layers. */
  type Layer = l: nat | l < 32

  type HazardId = nat

  /** The serialized default platform mask: layer 6 only. */
  const DefaultPlatformMask: bv32 := 1 << 6

  datatype Missile = Missile(speed: real, platformMask: bv32, target: Vec3, hasTarget: bool)

  /** A missile as spawned from the prefab with the defaults. */
  function Spawned(): (m: Missile)
    ensures !m.hasTarget && m.platformMask == DefaultPlatformMask
  {
    Missile(8.0, DefaultPlatformMask, Vec3(0.0, 0.0, 0.0), false)
  }

  /** Aiming: the target is stored and the missile knows it has one. */
  function SetTarget(m: Missile, target: Vec3): (r: Missile)
    ensures r.hasTarget && r.target == target
    ensures r.platformMask == m.platformMask && r.speed == m.speed
  {
    m.(target := target, hasTarget := true)
  }

  /** The platform test: the bit of the object's layer is set in the
      mask, computed as the C# component does, by shifting a one left (C# uses
      the low five bits of a 32-bit shift count, hence the `bv5`). */
  predicate InMask(layer: Layer, mask: bv32) {
    ((1 as bv32) << (layer as bv5)) & mask != 0
  }

  /** Bit `layer` of `mask`, read by shifting the mask right. */
  predicate BitSet(mask: bv32, layer: Layer) {
    (mask >> (layer as bv5)) & 1 == 1
  }

  /** The platform test holds exactly when bit `layer` of the mask is set.
      The solver settles each fixed shift amount, so the proof goes layer
      by layer. */
  lemma InMaskIsBitTest(layer: Layer, mask: bv32)
    ensures InMask(layer, mask) <==> BitSet(mask, layer)
  {
    if layer == 0 { assert InMask(0, mask) <==> BitSet(mask, 0); }
    else if layer == 1 { assert InMask(1, mask) <==> BitSet(mask, 1); }
    else if layer == 2 { assert InMask(2, mask) <==> BitSet(mask, 2); }
    else if layer == 3 { assert InMask(3, mask) <==> BitSet(mask, 3); }
    else if layer == 4 { assert InMask(4, mask) <==> BitSet(mask, 4); }
    else if layer == 5 { assert InMask(5, mask) <==> BitSet(mask, 5); }
    else if layer == 6 { assert InMask(6, mask) <==> BitSet(mask, 6); }
    else if layer == 7 { assert InMask(7, mask) <==> BitSet(mask, 7); }
    else if layer == 8 { assert InMask(8, mask) <==> BitSet(mask, 8); }
    else if layer == 9 { assert InMask(9, mask) <==> BitSet(mask, 9); }
    else if layer == 10 { assert InMask(10, mask) <==> BitSet(mask, 10); }
    else if layer == 11 { assert InMask(11, mask) <==> BitSet(mask, 11); }
    else if layer == 12 { assert InMask(12, mask) <==> BitSet(mask, 12); }
    else if layer == 13 { assert InMask(13, mask) <==> BitSet(mask, 13); }
    else if layer == 14 { assert InMask(14, mask) <==> BitSet(mask, 14); }
    else if layer == 15 { assert InMask(15, mask) <==> BitSet(mask, 15); }
    else if layer == 16 { assert InMask(16, mask) <==> BitSet(mask, 16); }
    else if layer == 17 { assert InMask(17, mask) <==> BitSet(mask, 17); }
    else if layer == 18 { assert InMask(18, mask) <==> BitSet(mask, 18); }
    else if layer == 19 { assert InMask(19, mask) <==> BitSet(mask, 19); }
    else if layer == 20 { assert InMask(20, mask) <==> BitSet(mask, 20); }
    else if layer == 21 { assert InMask(21, mask) <==> BitSet(mask, 21); }
    else if layer == 22 { assert InMask(22, mask) <==> BitSet(mask, 22); }
    else if layer == 23 { assert InMask(23, mask) <==> BitSet(mask, 23); }
    else if layer == 24 { assert InMask(24, mask) <==> BitSet(mask, 24); }
    else if layer == 25 { assert InMask(25, mask) <==> BitSet(mask, 25); }
    else if layer == 26 { assert InMask(26, mask) <==> BitSet(mask, 26); }
    else if layer == 27 { assert InMask(27, mask) <==> BitSet(mask, 27); }
    else if layer == 28 { assert InMask(28, mask) <==> BitSet(mask, 28); }
    else if layer == 29 { assert InMask(29, mask) <==> BitSet(mask, 29); }
    else if layer == 30 { assert InMask(30, mask) <==> BitSet(mask, 30); }
    else if layer == 31 { assert InMask(31, mask) <==> BitSet(mask, 31); }
  }

  /** The default mask selects exactly layer 6. */
  lemma DefaultMaskIsLayerSix(layer: Layer)
    ensures InMask(layer, DefaultPlatformMask) <==> layer == 6
  {
  }

  /** The touched object: its tag, its layer and the hazard components
      the engine finds in its children and in its parents. */
  datatype Collider = Collider(
    id: nat,
    isPlayer: bool,
    layer: Layer,
    hazardInChildren: Option<HazardId>,
    hazardInParent: Option<HazardId>)

  /** The consequences of a contact: which object (the player) is
      destroyed, whether the missile is destroyed, and which hazard is
      activated. */
  datatype Impact = Impact(destroyed: Option<nat>, missileDestroyed: bool, activate: Option<HazardId>)

  datatype HitKind = PlayerHit | PlatformHit | OtherHit

  /** What was hit: the player tag wins over the layer test. */
  function Classify(m: Missile, other: Collider): (k: HitKind)
    ensures k == PlayerHit <==> other.isPlayer
    ensures k == PlatformHit <==> !other.isPlayer && InMask(other.layer, m.platformMask)
  {
    if other.isPlayer then PlayerHit
    else if InMask(other.layer, m.platformMask) then PlatformHit
    else OtherHit
  }

  /** The hazard of a platform: the one in its children first, otherwise
      the one in its parents. */
  function FindHazard(other: Collider): (h: Option<HazardId>)
    ensures other.hazardInChildren.Some? ==> h == other.hazardInChildren
    ensures other.hazardInChildren.None? ==> h == other.hazardInParent
  {
    if other.hazardInChildren.Some? then other.hazardInChildren else other.hazardInParent
  }

  /** A contact: the player dies together with the missile and no platform
      handling happens; a platform hit destroys the missile, whether or
      not a hazard was found, and activates the hazard found; anything else
      destroys nothing. */
  function OnTriggerEnter(m: Missile, other: Collider): (r: Impact)
    ensures other.isPlayer ==> r == Impact(Some(other.id), true, None)
    ensures Classify(m, other) == PlatformHit ==>
      r.destroyed.None? && r.missileDestroyed && r.activate == FindHazard(other)
    ensures Classify(m, other) == OtherHit ==> r == Impact(None, false, None)
    ensures r.destroyed.Some? ==> r.missileDestroyed
  {
    match Classify(m, other)
    case PlayerHit => Impact(Some(other.id), true, None)
    case PlatformHit => Impact(None, true, FindHazard(other))
    case OtherHit => Impact(None, false, None)
  }

  /** Applying an impact to the scene's hazards: only the hazard named by
      the impact is activated, every other one is left as it was. */
  function ApplyImpact(hazards: map<HazardId, PH.Hazard>, impact: Impact, now: real): (r: map<HazardId, PH.Hazard>)
    ensures r.Keys == hazards.Keys
    ensures forall id :: id in hazards && impact.activate != Some(id) ==> r[id] == hazards[id]
    ensures impact.activate.Some? && impact.activate.value in hazards ==>
      r[impact.activate.value] == PH.ActivateDanger(hazards[impact.activate.value], now)
  {
    match impact.activate
    case Some(id) => if id in hazards then hazards[id := PH.ActivateDanger(hazards[id], now)] else hazards
    case None => hazards
  }

  /** A missile that hits a platform whose hazard is safe and has a
      material makes that platform deadly: afterwards it kills a touching
      player through every contact callback, and the missile is gone. */
  lemma PlatformHitMakesItDeadly(m: Missile, other: Collider, hazards: map<HazardId, PH.Hazard>, now: real, contact: PH.Contact)
    requires !other.isPlayer && InMask(other.layer, m.platformMask)
    requires FindHazard(other).Some? && FindHazard(other).value in hazards
    requires hazards[FindHazard(other).value].hasMaterial
    ensures var impact := OnTriggerEnter(m, other);
      && impact.missileDestroyed
      && PH.KillsOnContact(ApplyImpact(hazards, impact, now)[FindHazard(other).value], contact, true)
  {
    var id := FindHazard(other).value;
    var impact := OnTriggerEnter(m, other);
    assert impact.activate == Some(id);
    assert ApplyImpact(hazards, impact, now)[id] == PH.ActivateDanger(hazards[id], now);
  }
}
