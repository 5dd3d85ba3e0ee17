/** The player's death and respawn: a dead latch, the movement and
    visibility switches, the last grounded position, and the choice of
    where to respawn. The delayed respawn call becomes an explicit
    `RespawnDue` event that only arrives after a death scheduled it. */
module Respawn {
  import opened Common

  datatype Pose = Pose(position: Vec3, rotation: Rotation)

  /** What the manager found when it started (each reference may be
      missing) and its serialized settings. */
  datatype Setup = Setup(
    hasCharacterController: bool,
    hasPlayerController: bool,
    hasRenderers: bool,
    respawnPoint: Option<Pose>,
    deathY: real,
    hidePlayerOnDeath: bool)

  /** `canMove` is the movement switch of the player controller, `visible`
      the state of the renderers, `controllerEnabled` that of the character
      controller. */
  datatype Player = Player(
    isDead: bool,
    canMove: bool,
    visible: bool,
    controllerEnabled: bool,
    pose: Pose,
    lastSafePosition: Vec3,
    respawnPending: bool)

  /** What the respawn does to the character controller and the
      transform, in order. */
  datatype Effect = ControllerOff | Teleport(to: Pose) | ControllerOn

  /** The switches agree with the latch: a respawn is pending exactly
      while dead, movement is off exactly while dead, the renderers are
      hidden exactly while dead when hiding is configured, and the
      character controller is enabled between events. */
  predicate Coherent(setup: Setup, p: Player) {
    && p.respawnPending == p.isDead
    && (setup.hasPlayerController ==> p.canMove == !p.isDead)
    && (setup.hasRenderers ==> p.visible == !(p.isDead && setup.hidePlayerOnDeath))
    && p.controllerEnabled
  }

  /** The player when the manager starts: alive, and its starting position
      is the first safe position. */
  function Start(setup: Setup, pose: Pose): (p: Player)
    ensures Coherent(setup, p) && !p.isDead && p.lastSafePosition == pose.position
    ensures p.pose == pose
  {
    Player(false, true, true, true, pose, pose.position, false)
  }

  /** Death: nothing while already dead; otherwise the latch is set,
      movement disabled, the renderers hidden only when configured, and the
      respawn scheduled. The pose is not touched. */
  function Die(setup: Setup, p: Player): (r: Player)
    ensures p.isDead ==> r == p
    ensures !p.isDead ==>
      && r.isDead && r.respawnPending
      && (setup.hasPlayerController ==> !r.canMove)
      && (setup.hasRenderers && setup.hidePlayerOnDeath ==> !r.visible)
      && (!setup.hidePlayerOnDeath ==> r.visible == p.visible)
      && r.pose == p.pose && r.lastSafePosition == p.lastSafePosition
      && r.controllerEnabled == p.controllerEnabled
    ensures Coherent(setup, p) ==> Coherent(setup, r)
  {
    if p.isDead then p
    else p.(isDead := true,
            canMove := if setup.hasPlayerController then false else p.canMove,
            visible := if setup.hidePlayerOnDeath && setup.hasRenderers then false else p.visible,
            respawnPending := true)
  }

  /** The public entry other scripts call: the same as a death. */
  function TriggerDeath(setup: Setup, p: Player): (r: Player)
    ensures r == Die(setup, p)
  {
    Die(setup, p)
  }

  /** Where the player comes back: the respawn point when there is one,
      otherwise the last safe position with the rotation kept. */
  function RespawnTarget(setup: Setup, p: Player): (t: Pose)
    ensures setup.respawnPoint.Some? ==> t == setup.respawnPoint.value
    ensures setup.respawnPoint.None? ==> t.position == p.lastSafePosition && t.rotation == p.pose.rotation
  {
    match setup.respawnPoint
    case Some(point) => point
    case None => Pose(p.lastSafePosition, p.pose.rotation)
  }

  /** Replays respawn effects from a controller state: true when every
      teleport happens while the controller is off. */
  function TeleportsWhileOff(enabled: bool, effects: seq<Effect>): bool
    decreases |effects|
  {
    if |effects| == 0 then true
    else match effects[0]
      case ControllerOff => TeleportsWhileOff(false, effects[1..])
      case ControllerOn => TeleportsWhileOff(true, effects[1..])
      case Teleport(_) => !enabled && TeleportsWhileOff(enabled, effects[1..])
  }

  /** The controller state after replaying `effects`. */
  function EnabledAfter(enabled: bool, effects: seq<Effect>): bool
    decreases |effects|
  {
    if |effects| == 0 then enabled
    else match effects[0]
      case ControllerOff => EnabledAfter(false, effects[1..])
      case ControllerOn => EnabledAfter(true, effects[1..])
      case Teleport(_) => EnabledAfter(enabled, effects[1..])
  }

  /** Switching the controller off, teleporting and switching it back on
      teleports while off and ends with the controller on. */
  lemma GuardedTeleport(enabled: bool, target: Pose)
    ensures TeleportsWhileOff(enabled, [ControllerOff, Teleport(target), ControllerOn])
    ensures EnabledAfter(enabled, [ControllerOff, Teleport(target), ControllerOn])
  {
    var effects := [ControllerOff, Teleport(target), ControllerOn];
    assert effects[1..] == [Teleport(target), ControllerOn];
    assert effects[1..][1..] == [ControllerOn];
    assert TeleportsWhileOff(true, [ControllerOn][1..]);
    assert TeleportsWhileOff(false, [ControllerOn]);
    assert EnabledAfter(false, [ControllerOn]);
  }

  /** Respawn: clears the latch, moves the player to the respawn target
      with the character controller switched off around the move and back
      on afterwards, and turns movement and visibility back on. */
  function Respawn(setup: Setup, p: Player): (r: (Player, seq<Effect>))
    ensures var (q, effects) := r;
      && !q.isDead && !q.respawnPending
      && q.pose == RespawnTarget(setup, p)
      && Teleport(q.pose) in effects
      && (setup.hasCharacterController ==> TeleportsWhileOff(p.controllerEnabled, effects) && EnabledAfter(p.controllerEnabled, effects))
      && (!setup.hasCharacterController ==> effects == [Teleport(q.pose)] && q.controllerEnabled == p.controllerEnabled)
      && (setup.hasPlayerController ==> q.canMove)
      && (setup.hasRenderers ==> q.visible)
      && q.lastSafePosition == p.lastSafePosition
    ensures p.controllerEnabled ==> Coherent(setup, r.0)
  {
    var target := RespawnTarget(setup, p);
    var q := p.(isDead := false,
                respawnPending := false,
                pose := target,
                visible := if setup.hasRenderers then true else p.visible,
                canMove := if setup.hasPlayerController then true else p.canMove);
    if setup.hasCharacterController then
      var effects := [ControllerOff, Teleport(target), ControllerOn];
      GuardedTeleport(p.controllerEnabled, target);
      (q.(controllerEnabled := true), effects)
    else
      (q, [Teleport(target)])
  }

  /** One frame: the engine reports where the player is and whether the
      character controller is grounded. Falling below `deathY` kills a
      living player; the safe position follows the player only while
      grounded. */
  function Frame(setup: Setup, p: Player, position: Vec3, grounded: bool): (r: Player)
    ensures r.pose.position == position
    ensures !p.isDead && position.y < setup.deathY ==> r.isDead && (setup.hasPlayerController ==> !r.canMove)
    ensures p.isDead || position.y >= setup.deathY ==>
      r.isDead == p.isDead && r.canMove == p.canMove && r.visible == p.visible
    ensures setup.hasCharacterController && grounded ==> r.lastSafePosition == position
    ensures !(setup.hasCharacterController && grounded) ==> r.lastSafePosition == p.lastSafePosition
    ensures Coherent(setup, p) ==> Coherent(setup, r)
  {
    var moved := p.(pose := p.pose.(position := position));
    var checked := if !moved.isDead && position.y < setup.deathY then Die(setup, moved) else moved;
    if setup.hasCharacterController && grounded then checked.(lastSafePosition := position) else checked
  }

  datatype Event =
    | Tick(position: Vec3, grounded: bool)
    | Killed
    | RespawnDue

  /** The scheduled respawn only fires after a death scheduled it. */
  function Step(setup: Setup, p: Player, e: Event): Player {
    match e
    case Tick(position, grounded) => Frame(setup, p, position, grounded)
    case Killed => TriggerDeath(setup, p)
    case RespawnDue => if p.respawnPending then Respawn(setup, p).0 else p
  }

  function Run(setup: Setup, p: Player, events: seq<Event>): Player
    decreases |events|
  {
    if |events| == 0 then p else Run(setup, Step(setup, p, events[0]), events[1..])
  }

  /** From a coherent start the switches stay in step with the latch
      through any sequence of frames, deaths and respawns. */
  lemma {:induction false} RunKeepsCoherent(setup: Setup, p: Player, events: seq<Event>)
    requires Coherent(setup, p)
    ensures Coherent(setup, Run(setup, p, events))
    decreases |events|
  {
    if |events| > 0 {
      var q := Step(setup, p, events[0]);
      assert Coherent(setup, q);
      RunKeepsCoherent(setup, q, events[1..]);
    }
  }

  /** Dying twice is dying once: the second death is ignored. */
  lemma DieIsIdempotent(setup: Setup, p: Player)
    ensures Die(setup, Die(setup, p)) == Die(setup, p)
    ensures Die(setup, p).isDead
  {
  }
}
