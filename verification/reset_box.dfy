/** A one-shot reset box: while the player stands in its trigger, pressing
    the interact key resets the player's copy/cut/paste counters, once for
    the lifetime of the box. The box's renderer and prompt are optional
    references; whether they exist is fixed when the box starts. */
module ResetBox {
  import PI = PlatformInteractor

  datatype BoxColour = OriginalColour | HighlightColour | UsedColour

  /** `linked` records whether the player that entered carried an
      interactor component; `promptShown` and `colour` are the visible
      feedback. */
  datatype Box = Box(
    hasRenderer: bool,
    hasPrompt: bool,
    inRange: bool,
    linked: bool,
    used: bool,
    promptShown: bool,
    colour: BoxColour)

  /** What the box can observe: a collider entering or leaving its trigger
      (with the player tag or not), or a frame in which the interact key
      was pressed or not. */
  datatype Event =
    | Enter(isPlayer: bool, hasInteractor: bool)
    | Leave(isPlayer: bool)
    | Frame(keyDown: bool)

  /** The box after an event, the player's interactor after it, and how
      many times the interactor's reset was called. */
  datatype Outcome = Outcome(box: Box, player: PI.Interactor, resets: nat)

  /** The visible feedback agrees with the state: the prompt is up only
      while an unused box has the player in range, the used colour marks
      exactly a used box, and the box is linked only while in range. */
  predicate Consistent(b: Box) {
    && (b.promptShown ==> b.hasPrompt && b.inRange && !b.used)
    && (b.hasRenderer ==> (b.used <==> b.colour == UsedColour))
    && (b.linked ==> b.inRange)
  }

  /** A box as it starts: nobody in range, unused, prompt hidden. */
  function Start(hasRenderer: bool, hasPrompt: bool): (b: Box)
    ensures Consistent(b) && !b.used && !b.inRange && !b.promptShown
    ensures !b.linked && b.colour == OriginalColour
    ensures b.hasRenderer == hasRenderer && b.hasPrompt == hasPrompt
  {
    Box(hasRenderer, hasPrompt, false, false, false, false, OriginalColour)
  }

  /** A player entering puts the box in range and records whether it has
      an interactor; an unused box lights up and shows its prompt. Other
      colliders change nothing. */
  function OnEnter(b: Box, isPlayer: bool, hasInteractor: bool): (r: Box)
    ensures !isPlayer ==> r == b
    ensures isPlayer ==> r.inRange && r.linked == hasInteractor && r.used == b.used
    ensures isPlayer && !b.used ==> r.promptShown == (b.hasPrompt || b.promptShown) && (b.hasRenderer ==> r.colour == HighlightColour)
    ensures isPlayer && b.used ==> r.promptShown == b.promptShown && r.colour == b.colour
    ensures Consistent(b) ==> Consistent(r)
  {
    if !isPlayer then b
    else
      var entered := b.(inRange := true, linked := hasInteractor);
      if b.used then entered
      else entered.(colour := if b.hasRenderer then HighlightColour else b.colour,
                    promptShown := b.hasPrompt || b.promptShown)
  }

  /** A player leaving takes the box out of range, unlinks it and always
      hides the prompt; the original colour comes back only on an unused
      box. Other colliders change nothing. */
  function OnLeave(b: Box, isPlayer: bool): (r: Box)
    ensures !isPlayer ==> r == b
    ensures isPlayer ==> !r.inRange && !r.linked && !r.promptShown && r.used == b.used
    ensures isPlayer && b.hasRenderer && !b.used ==> r.colour == OriginalColour
    ensures isPlayer && (b.used || !b.hasRenderer) ==> r.colour == b.colour
    ensures Consistent(b) ==> Consistent(r)
  {
    if !isPlayer then b
    else
      b.(inRange := false, linked := false, promptShown := false,
         colour := if b.hasRenderer && !b.used then OriginalColour else b.colour)
  }

  /** The reset itself: only for a linked, unused box; it resets the
      player's counters once, marks the box used, hides the prompt and
      greys the box. */
  function ResetPlayerActions(b: Box, player: PI.Interactor): (r: Outcome)
    ensures !(b.linked && !b.used) ==> r == Outcome(b, player, 0)
    ensures b.linked && !b.used ==>
      && r.resets == 1
      && r.player == PI.ResetLimits(player)
      && r.box.used && !r.box.promptShown
      && (b.hasRenderer ==> r.box.colour == UsedColour)
      && r.box.inRange == b.inRange && r.box.linked == b.linked
    ensures Consistent(b) ==> Consistent(r.box)
  {
    if b.linked && !b.used then
      Outcome(b.(used := true, promptShown := false,
                 colour := if b.hasRenderer then UsedColour else b.colour),
              PI.ResetLimits(player), 1)
    else Outcome(b, player, 0)
  }

  /** A frame resets exactly when the player is in range with an
      interactor, the box is unused and the key went down. */
  function OnFrame(b: Box, player: PI.Interactor, keyDown: bool): (r: Outcome)
    ensures r.resets == 1 <==> b.inRange && b.linked && !b.used && keyDown
    ensures r.resets != 1 ==> r == Outcome(b, player, 0)
    ensures r.resets == 1 ==> r == ResetPlayerActions(b, player)
    ensures Consistent(b) ==> Consistent(r.box)
  {
    if b.inRange && b.linked && !b.used && keyDown then ResetPlayerActions(b, player)
    else Outcome(b, player, 0)
  }

  function Step(b: Box, player: PI.Interactor, e: Event): Outcome {
    match e
    case Enter(isPlayer, hasInteractor) => Outcome(OnEnter(b, isPlayer, hasInteractor), player, 0)
    case Leave(isPlayer) => Outcome(OnLeave(b, isPlayer), player, 0)
    case Frame(keyDown) => OnFrame(b, player, keyDown)
  }

  /** A sequence of events, counting the resets along the way. */
  function Run(b: Box, player: PI.Interactor, events: seq<Event>): Outcome
    decreases |events|
  {
    if |events| == 0 then Outcome(b, player, 0)
    else
      var first := Step(b, player, events[0]);
      var rest := Run(first.box, first.player, events[1..]);
      Outcome(rest.box, rest.player, first.resets + rest.resets)
  }

  /** The box is one-shot: over any sequence of enters, leaves and key
      presses the player is reset at most once, a used box never resets
      again (the player's counters are untouched), and a box that reset
      ends up used. */
  lemma {:induction false} OneShot(b: Box, player: PI.Interactor, events: seq<Event>)
    ensures Run(b, player, events).resets <= (if b.used then 0 else 1)
    ensures b.used ==> Run(b, player, events).player == player
    ensures b.used || Run(b, player, events).resets == 1 ==> Run(b, player, events).box.used
    decreases |events|
  {
    if |events| > 0 {
      var first := Step(b, player, events[0]);
      assert b.used ==> first.box.used && first.resets == 0 && first.player == player;
      assert first.resets == 1 ==> first.box.used;
      OneShot(first.box, first.player, events[1..]);
    }
  }

  /** The visible feedback stays consistent with the state whatever
      happens. */
  lemma {:induction false} RunKeepsConsistent(b: Box, player: PI.Interactor, events: seq<Event>)
    requires Consistent(b)
    ensures Consistent(Run(b, player, events).box)
    decreases |events|
  {
    if |events| > 0 {
      var first := Step(b, player, events[0]);
      assert Consistent(first.box);
      RunKeepsConsistent(first.box, first.player, events[1..]);
    }
  }
}
