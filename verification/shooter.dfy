/** The enemy that fires missiles at the player: start-up lookups, the
    range-and-timer firing rule, and the manual trigger. Distances and
    times come in as `real` inputs; the missile's flight is not modelled. */
module EnemyShooter {
  import opened Common

  /** The shooter's references (target, missile prefab, shoot point), its
      settings, whether the component is enabled, and the earliest time of
      the next automatic shot. */
  datatype Shooter = Shooter(
    enabled: bool,
    hasTarget: bool,
    hasPrefab: bool,
    hasShootPoint: bool,
    shootInterval: real,
    shootDelay: real,
    detectionRange: real,
    nextShootTime: real)

  /** A spawned missile; `aimed` when it was handed the target position
      (the prefab carries the missile script and a target is set). */
  datatype Shot = Shot(aimed: bool)

  /** Start-up: a missing target is looked up by tag, a missing shoot point
      is found or created, a missing prefab is loaded if the editor can
      find it. Without a prefab the shooter disables itself and sets no
      timer; otherwise the first shot is due `shootDelay` from now. */
  function Start(s: Shooter, now: real, playerFound: bool, editorPrefab: bool): (r: Shooter)
    ensures r.hasShootPoint
    ensures r.hasTarget == (s.hasTarget || playerFound)
    ensures !s.hasPrefab && !editorPrefab ==> !r.enabled && r.nextShootTime == s.nextShootTime
    ensures s.hasPrefab || editorPrefab ==>
      r.hasPrefab && r.enabled == s.enabled && r.nextShootTime == now + s.shootDelay
    ensures r.shootInterval == s.shootInterval && r.detectionRange == s.detectionRange
  {
    var found := s.(hasTarget := s.hasTarget || playerFound, hasShootPoint := true);
    if !s.hasPrefab && !editorPrefab then found.(enabled := false)
    else found.(hasPrefab := true, nextShootTime := now + s.shootDelay)
  }

  /** Spawning a missile needs the prefab and the shoot point. */
  function ShootMissile(s: Shooter, prefabHasScript: bool): (shot: Option<Shot>)
    ensures shot.Some? <==> s.hasPrefab && s.hasShootPoint
    ensures shot.Some? ==> (shot.value.aimed <==> prefabHasScript && s.hasTarget)
  {
    if !s.hasPrefab || !s.hasShootPoint then None
    else Some(Shot(prefabHasScript && s.hasTarget))
  }

  /** The automatic firing rule of a frame: an enabled shooter with a
      target and a prefab fires when the target is within range and the
      timer has expired. */
  predicate Fires(s: Shooter, now: real, distance: real) {
    s.enabled && s.hasTarget && s.hasPrefab && distance <= s.detectionRange && now >= s.nextShootTime
  }

  /** One frame: when the rule fires a missile is spawned and the next
      shot is pushed `shootInterval` past now; otherwise nothing changes. */
  function Update(s: Shooter, now: real, distance: real, prefabHasScript: bool): (r: (Shooter, Option<Shot>))
    ensures Fires(s, now, distance) ==> r.0 == s.(nextShootTime := now + s.shootInterval)
    ensures !Fires(s, now, distance) ==> r == (s, None)
    ensures r.1.Some? <==> Fires(s, now, distance) && s.hasShootPoint
  {
    if Fires(s, now, distance) then
      (s.(nextShootTime := now + s.shootInterval), ShootMissile(s, prefabHasScript))
    else (s, None)
  }

  /** The manual trigger: fires regardless of range and timer (still
      needing prefab and shoot point) and restarts the timer. */
  function ShootNow(s: Shooter, now: real, prefabHasScript: bool): (r: (Shooter, Option<Shot>))
    ensures r.0 == s.(nextShootTime := now + s.shootInterval)
    ensures r.1.Some? <==> s.hasPrefab && s.hasShootPoint
  {
    (s.(nextShootTime := now + s.shootInterval), ShootMissile(s, prefabHasScript))
  }

  /** The remaining public controls. */
  function SetEnabled(s: Shooter, on: bool): (r: Shooter)
    ensures r.enabled == on && r == s.(enabled := on)
  {
    s.(enabled := on)
  }

  function SetTarget(s: Shooter, present: bool): (r: Shooter)
    ensures r.hasTarget == present && r == s.(hasTarget := present)
  {
    s.(hasTarget := present)
  }

  /** One frame as the engine sees it: the time and the distance to the
      target. */
  datatype Tick = Tick(now: real, distance: real)

  /** The times at which the automatic rule fired over a run of frames. */
  function FireTimes(s: Shooter, ticks: seq<Tick>): seq<real>
    decreases |ticks|
  {
    if |ticks| == 0 then []
    else
      var t := ticks[0];
      var next := Update(s, t.now, t.distance, true).0;
      (if Fires(s, t.now, t.distance) then [t.now] else []) + FireTimes(next, ticks[1..])
  }

  /** The engine's clock never goes back: frame times are non-decreasing. */
  predicate Monotone(ticks: seq<Tick>) {
    forall i, j :: 0 <= i <= j < |ticks| ==> ticks[i].now <= ticks[j].now
  }

  /** Every automatic shot happens at the time of some frame, so frames
      that all come at or after `lo` give shots at or after `lo`. */
  lemma {:induction false} ShotsNotBefore(s: Shooter, ticks: seq<Tick>, lo: real)
    requires forall k :: 0 <= k < |ticks| ==> lo <= ticks[k].now
    ensures forall i :: 0 <= i < |FireTimes(s, ticks)| ==> FireTimes(s, ticks)[i] >= lo
    decreases |ticks|
  {
    if |ticks| > 0 {
      var t := ticks[0];
      var next := Update(s, t.now, t.distance, true).0;
      ShotsNotBefore(next, ticks[1..], lo);
      var rest := FireTimes(next, ticks[1..]);
      if Fires(s, t.now, t.distance) {
        assert FireTimes(s, ticks) == [t.now] + rest;
      } else {
        assert FireTimes(s, ticks) == rest;
      }
    }
  }

  /** With the clock running forward no automatic shot comes before the
      pending timer, whatever the interval: the first shot is due, and
      every later one happens at a later frame. */
  lemma {:induction false} ForwardClockShotsAfterTimer(s: Shooter, ticks: seq<Tick>)
    requires Monotone(ticks)
    ensures forall i :: 0 <= i < |FireTimes(s, ticks)| ==> FireTimes(s, ticks)[i] >= s.nextShootTime
    decreases |ticks|
  {
    if |ticks| > 0 {
      var t := ticks[0];
      var next := Update(s, t.now, t.distance, true).0;
      var rest := FireTimes(next, ticks[1..]);
      if Fires(s, t.now, t.distance) {
        ShotsNotBefore(next, ticks[1..], t.now);
        assert FireTimes(s, ticks) == [t.now] + rest;
      } else {
        ForwardClockShotsAfterTimer(next, ticks[1..]);
        assert FireTimes(s, ticks) == rest;
      }
    }
  }

  /** Over arbitrary frame times: the first automatic shot never comes
      before the pending timer, consecutive shots are at least
      `shootInterval` apart, and with a non-negative interval no shot comes
      before the timer. (With the clock running forward the last holds for
      any interval: `ForwardClockShotsAfterTimer`.) */
  lemma {:induction false} ShotsAreSpaced(s: Shooter, ticks: seq<Tick>)
    ensures var times := FireTimes(s, ticks);
      && (|times| > 0 ==> times[0] >= s.nextShootTime)
      && (s.shootInterval >= 0.0 ==> forall i :: 0 <= i < |times| ==> times[i] >= s.nextShootTime)
      && (forall i :: 0 <= i < |times| - 1 ==> times[i + 1] >= times[i] + s.shootInterval)
    decreases |ticks|
  {
    if |ticks| > 0 {
      var t := ticks[0];
      var next := Update(s, t.now, t.distance, true).0;
      ShotsAreSpaced(next, ticks[1..]);
      var rest := FireTimes(next, ticks[1..]);
      if Fires(s, t.now, t.distance) {
        assert FireTimes(s, ticks) == [t.now] + rest;
        assert next.nextShootTime == t.now + s.shootInterval;
      } else {
        assert next == s;
        assert FireTimes(s, ticks) == rest;
      }
    }
  }

  /** After a successful start at `now`, no automatic shot comes earlier
      than `now + shootDelay` when the clock runs forward; over arbitrary
      frame times this still holds of the first shot, and of all of them
      when the interval is non-negative. */
  lemma NoShotBeforeDelay(s: Shooter, now: real, playerFound: bool, editorPrefab: bool, ticks: seq<Tick>)
    requires s.hasPrefab || editorPrefab
    ensures var times := FireTimes(Start(s, now, playerFound, editorPrefab), ticks);
      && (|times| > 0 ==> times[0] >= now + s.shootDelay)
      && (Monotone(ticks) ==> forall i :: 0 <= i < |times| ==> times[i] >= now + s.shootDelay)
      && (s.shootInterval >= 0.0 ==> forall i :: 0 <= i < |times| ==> times[i] >= now + s.shootDelay)
  {
    ShotsAreSpaced(Start(s, now, playerFound, editorPrefab), ticks);
    if Monotone(ticks) {
      ForwardClockShotsAfterTimer(Start(s, now, playerFound, editorPrefab), ticks);
    }
  }

  /** A shooter that disabled itself at start never fires automatically. */
  lemma {:induction false} DisabledNeverFires(s: Shooter, ticks: seq<Tick>)
    requires !s.enabled
    ensures FireTimes(s, ticks) == []
    decreases |ticks|
  {
    if |ticks| > 0 {
      DisabledNeverFires(s, ticks[1..]);
    }
  }
}
