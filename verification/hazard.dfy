/** A platform that a missile can make dangerous for a while: the danger
    latch, the colour it shows, the throttled active detection of a player
    standing on it, and the kill-on-contact rule. The delayed deactivation
    becomes an explicit event; the overlap query's answer is an input. */
module PlatformHazard {
  import opened Common

  /** The serialized default of how long a platform stays dangerous. */
  const DefaultDangerTime: real := 3.0

  /** `hasMaterial` says whether a renderer and its material were found at
      start (on the object or a parent); `hasCollider` likewise for the
      collider the detection box is built from. `deactivateAt` is the time
      the scheduled deactivation is due, if one is scheduled. */
  datatype Hazard = Hazard(
    hasMaterial: bool,
    hasCollider: bool,
    useActiveDetection: bool,
    detectionInterval: real,
    dangerTime: real,
    dangerColour: Rgba,
    originalColour: Rgba,
    isDanger: bool,
    colour: Rgba,
    nextDetectionTime: real,
    deactivateAt: Option<real>)

  /** The four engine callbacks that report a touching object. */
  datatype Contact = TriggerEnter | TriggerStay | CollisionEnter | CollisionStay

  /** One collider returned by the overlap query above the platform. */
  datatype Overlap = Overlap(id: nat, isPlayer: bool)

  /** The latch, the colour and the schedule agree: a dangerous platform
      shows the danger colour and has its deactivation scheduled, a safe
      one shows its original colour and has nothing scheduled. */
  predicate Coherent(h: Hazard) {
    && (h.isDanger ==> h.hasMaterial && h.colour == h.dangerColour && h.deactivateAt.Some?)
    && (!h.isDanger ==> h.colour == h.originalColour && h.deactivateAt.None?)
  }

  function Start(hasMaterial: bool, hasCollider: bool, useActiveDetection: bool, detectionInterval: real,
                 dangerTime: real, dangerColour: Rgba, originalColour: Rgba): (h: Hazard)
    ensures Coherent(h) && !h.isDanger
    ensures h.colour == originalColour && h.originalColour == originalColour && h.deactivateAt.None?
    ensures h.nextDetectionTime == 0.0
    ensures h.hasMaterial == hasMaterial && h.hasCollider == hasCollider
  {
    Hazard(hasMaterial, hasCollider, useActiveDetection, detectionInterval, dangerTime,
           dangerColour, originalColour, false, originalColour, 0.0, None)
  }

  /** Activation: ignored while already dangerous or without a material;
      otherwise the platform turns dangerous, shows the danger colour and
      schedules its own deactivation `dangerTime` later. */
  function ActivateDanger(h: Hazard, now: real): (r: Hazard)
    ensures h.isDanger || !h.hasMaterial ==> r == h
    ensures !h.isDanger && h.hasMaterial ==>
      && r.isDanger && r.colour == h.dangerColour && r.deactivateAt == Some(now + h.dangerTime)
      && r == h.(isDanger := r.isDanger, colour := r.colour, deactivateAt := r.deactivateAt)
    ensures Coherent(h) ==> Coherent(r)
  {
    if h.isDanger || !h.hasMaterial then h
    else h.(isDanger := true, colour := h.dangerColour, deactivateAt := Some(now + h.dangerTime))
  }

  /** Deactivation: without a material nothing changes; otherwise the
      platform is safe again and shows its original colour. */
  function DeactivateDanger(h: Hazard): (r: Hazard)
    ensures !h.hasMaterial ==> r == h
    ensures h.hasMaterial ==> !r.isDanger && r.colour == h.originalColour && r.deactivateAt.None?
    ensures h.hasMaterial ==> r == h.(isDanger := false, colour := r.colour, deactivateAt := None)
    ensures Coherent(h) ==> Coherent(r)
  {
    if !h.hasMaterial then h
    else h.(isDanger := false, colour := h.originalColour, deactivateAt := None)
  }

  /** Every contact callback destroys the touching object exactly when it
      is the player and the platform is dangerous. */
  function KillsOnContact(h: Hazard, contact: Contact, isPlayer: bool): (kill: bool)
    ensures kill <==> h.isDanger && isPlayer
  {
    match contact
    case TriggerEnter => h.isDanger && isPlayer
    case TriggerStay => h.isDanger && isPlayer
    case CollisionEnter => h.isDanger && isPlayer
    case CollisionStay => h.isDanger && isPlayer
  }

  /** Position of the first player among the overlapping colliders, or
      `|overlaps|` when there is none. */
  function FirstPlayerIndex(overlaps: seq<Overlap>): (i: nat)
    ensures i <= |overlaps|
    ensures i < |overlaps| ==> overlaps[i].isPlayer
    ensures forall k :: 0 <= k < i ==> !overlaps[k].isPlayer
    decreases |overlaps|
  {
    if |overlaps| == 0 then 0
    else if overlaps[0].isPlayer then 0
    else 1 + FirstPlayerIndex(overlaps[1..])
  }

  /** The first player among the overlapping colliders. */
  function FirstPlayer(overlaps: seq<Overlap>): (r: Option<nat>)
    ensures r.Some? ==> exists i :: 0 <= i < |overlaps| && overlaps[i].isPlayer && overlaps[i].id == r.value
                          && forall k :: 0 <= k < i ==> !overlaps[k].isPlayer
    ensures r.None? <==> forall k :: 0 <= k < |overlaps| ==> !overlaps[k].isPlayer
  {
    var i := FirstPlayerIndex(overlaps);
    if i < |overlaps| then Some(overlaps[i].id) else None
  }

  /** A detection check is due. */
  predicate CheckDue(h: Hazard, now: real) {
    h.isDanger && h.useActiveDetection && now >= h.nextDetectionTime
  }

  /** One frame of active detection: when a check is due the next one is
      pushed `detectionInterval` ahead and, if the platform has a collider,
      at most one player standing on it (the first the query returns) is
      destroyed. Otherwise nothing happens. */
  function Update(h: Hazard, now: real, overlaps: seq<Overlap>): (r: (Hazard, Option<nat>))
    ensures !CheckDue(h, now) ==> r == (h, None)
    ensures CheckDue(h, now) ==>
      && r.0 == h.(nextDetectionTime := now + h.detectionInterval)
      && (h.hasCollider ==> r.1 == FirstPlayer(overlaps))
      && (!h.hasCollider ==> r.1.None?)
    ensures r.1.Some? ==> h.isDanger && exists i :: 0 <= i < |overlaps| && overlaps[i].isPlayer && overlaps[i].id == r.1.value
    ensures Coherent(h) ==> Coherent(r.0)
  {
    if CheckDue(h, now) then
      var next := h.(nextDetectionTime := now + h.detectionInterval);
      (next, if h.hasCollider then FirstPlayer(overlaps) else None)
    else (h, None)
  }

  /** Checks are throttled: after a check at `t1`, the next frame that
      checks again is at least `detectionInterval` later. */
  lemma DetectionThrottled(h: Hazard, t1: real, o1: seq<Overlap>, t2: real)
    requires CheckDue(h, t1)
    requires CheckDue(Update(h, t1, o1).0, t2)
    ensures t2 >= t1 + h.detectionInterval
  {
  }

  /** The danger window: a safe platform with a material, once activated,
      kills a touching player through every callback; after its
      deactivation it kills nobody and shows its original colour again. */
  lemma DangerWindow(h: Hazard, now: real, contact: Contact)
    requires Coherent(h) && !h.isDanger && h.hasMaterial
    ensures KillsOnContact(ActivateDanger(h, now), contact, true)
    ensures !KillsOnContact(DeactivateDanger(ActivateDanger(h, now)), contact, true)
    ensures DeactivateDanger(ActivateDanger(h, now)) == h
  {
  }
}
