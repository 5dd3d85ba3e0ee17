/** The player's copy/cut/paste platform mechanic: three usage counters
    bounded by configurable limits, a one-slot clipboard that remembers
    whether it holds a cut, and the facing direction the raycast and the
    paste position depend on.

    The engine is outside the model: the raycast's answer is an input
    (`Option<Hit>`), and hiding, destroying and instantiating platforms are
    recorded in a `Level` value. */
module PlatformInteractor {
  import opened Common

  /** Identity of a platform object in the scene. */
  type PlatformId = nat

  datatype Op = CopyOp | CutOp | PasteOp

  /** One integer per operation, like the `(copy, cut, paste)` tuples the
      component hands to its UI. */
  datatype Counts = Counts(copy: int, cut: int, paste: int) {

    function Of(op: Op): int {
      match op
      case CopyOp => copy
      case CutOp => cut
      case PasteOp => paste
    }

    /** The same triple with the `op` component one higher. */
    function Bump(op: Op): (r: Counts)
      ensures r.Of(op) == Of(op) + 1
      ensures forall o :: o != op ==> r.Of(o) == Of(o)
    {
      match op
      case CopyOp => this.(copy := copy + 1)
      case CutOp => this.(cut := cut + 1)
      case PasteOp => this.(paste := paste + 1)
    }
  }

  const Zero := Counts(0, 0, 0)

  /** The serialized defaults: one copy, one cut, three pastes. */
  const DefaultLimits := Counts(1, 1, 3)

  /** What the raycast in front of the player found: the platform, its
      local scale, and whether it carries the cutable marker component. */
  datatype Hit = Hit(platform: PlatformId, scale: Vec3, cutable: bool)

  /** The clipboard's content. */
  datatype Clip = Clip(platform: PlatformId, scale: Vec3, isCut: bool)

  /** A platform instantiated by a paste: a clone of `source` with the
      stored scale, placed on the side the player faced. */
  datatype Spawn = Spawn(source: PlatformId, scale: Vec3, toRight: bool)

  /** The engine-side effects of the mechanic on the scene's platforms. */
  datatype Level = Level(hidden: set<PlatformId>, destroyed: set<PlatformId>, spawned: seq<Spawn>)

  datatype Interactor = Interactor(limits: Counts, used: Counts, clipboard: Option<Clip>, facingRight: bool)

  datatype State = State(me: Interactor, level: Level)

  /** The component as it starts: default limits, nothing used, empty
      clipboard, facing right. */
  function Start(): (r: Interactor)
    ensures Valid(r)
    ensures forall op :: Remaining(r).Of(op) == DefaultLimits.Of(op) > 0
    ensures Usage(r) == Zero && MaxLimits(r) == DefaultLimits
    ensures r.clipboard.None? && r.facingRight
  {
    Interactor(DefaultLimits, Zero, None, true)
  }

  /** The counter of `op` is non-negative and within its limit; a limit
      that is negative keeps its counter at zero, since every attempt is
      refused. */
  predicate CounterOk(me: Interactor, op: Op) {
    0 <= me.used.Of(op) && (me.used.Of(op) <= me.limits.Of(op) || me.used.Of(op) == 0)
  }

  predicate Valid(me: Interactor) {
    CounterOk(me, CopyOp) && CounterOk(me, CutOp) && CounterOk(me, PasteOp)
  }

  /** `op` is refused by its limit check. */
  predicate AtLimit(me: Interactor, op: Op) {
    me.used.Of(op) >= me.limits.Of(op)
  }

  /** The current usage reported to the UI. */
  function Usage(me: Interactor): Counts {
    me.used
  }

  /** The limits reported to the UI. */
  function MaxLimits(me: Interactor): Counts {
    me.limits
  }

  /** The remaining operations reported to the UI. In a valid state each
      component lies between zero and its limit, is zero exactly when the
      operation is refused, and stays a 32-bit value when the limits are. */
  function Remaining(me: Interactor): (r: Counts)
    ensures forall op :: r.Of(op) + Usage(me).Of(op) == MaxLimits(me).Of(op)
    ensures Valid(me) ==> forall op :: me.limits.Of(op) >= 0 ==>
      && 0 <= r.Of(op) <= me.limits.Of(op)
      && (r.Of(op) == 0 <==> AtLimit(me, op))
    ensures Valid(me) && IsInt32(me.limits.copy) && IsInt32(me.limits.cut) && IsInt32(me.limits.paste) ==>
      forall op :: IsInt32(r.Of(op)) && IsInt32(me.used.Of(op))
  {
    Counts(me.limits.copy - me.used.copy, me.limits.cut - me.used.cut, me.limits.paste - me.used.paste)
  }

  /** Facing follows the sign of the horizontal axis and is kept at zero. */
  function UpdateFacing(me: Interactor, horizontal: real): (r: Interactor)
    ensures horizontal > 0.0 ==> r.facingRight
    ensures horizontal < 0.0 ==> !r.facingRight
    ensures horizontal == 0.0 ==> r == me
    ensures r == me.(facingRight := r.facingRight)
  {
    if horizontal > 0.0 then me.(facingRight := true)
    else if horizontal < 0.0 then me.(facingRight := false)
    else me
  }

  /** Copy: refused at the copy limit or when the raycast found nothing;
      otherwise the clipboard holds the platform as a copy and only the
      copy counter moves, by one. */
  function Copy(s: State, hit: Option<Hit>): (r: State)
    ensures AtLimit(s.me, CopyOp) || hit.None? ==> r == s
    ensures !AtLimit(s.me, CopyOp) && hit.Some? ==>
      && r.me.clipboard == Some(Clip(hit.value.platform, hit.value.scale, false))
      && Remaining(r.me).Of(CopyOp) == Remaining(s.me).Of(CopyOp) - 1
      && Remaining(r.me).Of(CutOp) == Remaining(s.me).Of(CutOp)
      && Remaining(r.me).Of(PasteOp) == Remaining(s.me).Of(PasteOp)
      && r.me.limits == s.me.limits
      && r.me.facingRight == s.me.facingRight
      && r.level == s.level
    ensures Valid(s.me) ==> Valid(r.me)
  {
    if AtLimit(s.me, CopyOp) then s
    else match hit
      case None => s
      case Some(h) =>
        s.(me := s.me.(clipboard := Some(Clip(h.platform, h.scale, false)), used := s.me.used.Bump(CopyOp)))
  }

  predicate CanCut(me: Interactor, hit: Option<Hit>) {
    !AtLimit(me, CutOp) && hit.Some? && hit.value.cutable
  }

  /** Cut: succeeds only under the cut limit on a cutable platform; then
      the clipboard holds it as a cut, the platform is hidden (not yet
      destroyed) and only the cut counter moves, by one. */
  function Cut(s: State, hit: Option<Hit>): (r: State)
    ensures !CanCut(s.me, hit) ==> r == s
    ensures CanCut(s.me, hit) ==>
      && r.me.clipboard == Some(Clip(hit.value.platform, hit.value.scale, true))
      && r.level.hidden == s.level.hidden + {hit.value.platform}
      && r.level.destroyed == s.level.destroyed
      && r.level.spawned == s.level.spawned
      && Remaining(r.me).Of(CutOp) == Remaining(s.me).Of(CutOp) - 1
      && Remaining(r.me).Of(CopyOp) == Remaining(s.me).Of(CopyOp)
      && Remaining(r.me).Of(PasteOp) == Remaining(s.me).Of(PasteOp)
      && r.me.limits == s.me.limits
      && r.me.facingRight == s.me.facingRight
    ensures Valid(s.me) ==> Valid(r.me)
  {
    if CanCut(s.me, hit) then
      var h := hit.value;
      State(s.me.(clipboard := Some(Clip(h.platform, h.scale, true)), used := s.me.used.Bump(CutOp)),
            s.level.(hidden := s.level.hidden + {h.platform}))
    else s
  }

  /** A paste is possible under the paste limit with a clipboard whose
      platform has not been destroyed. */
  predicate CanPaste(s: State) {
    && !AtLimit(s.me, PasteOp)
    && s.me.clipboard.Some?
    && s.me.clipboard.value.platform !in s.level.destroyed
  }

  /** Paste: instantiates the clipboard's platform on the facing side and
      moves only the paste counter. A cut clipboard is consumed (the
      original is destroyed and the clipboard emptied); a copy clipboard
      stays for further pastes. */
  function Paste(s: State): (r: State)
    ensures !CanPaste(s) ==> r == s
    ensures CanPaste(s) ==>
      var c := s.me.clipboard.value;
      && r.level.spawned == s.level.spawned + [Spawn(c.platform, c.scale, s.me.facingRight)]
      && r.level.hidden == s.level.hidden
      && (c.isCut ==> r.me.clipboard.None? && r.level.destroyed == s.level.destroyed + {c.platform})
      && (!c.isCut ==> r.me.clipboard == s.me.clipboard && r.level.destroyed == s.level.destroyed)
      && Remaining(r.me).Of(PasteOp) == Remaining(s.me).Of(PasteOp) - 1
      && Remaining(r.me).Of(CopyOp) == Remaining(s.me).Of(CopyOp)
      && Remaining(r.me).Of(CutOp) == Remaining(s.me).Of(CutOp)
      && r.me.limits == s.me.limits
      && r.me.facingRight == s.me.facingRight
    ensures Valid(s.me) ==> Valid(r.me)
  {
    if !CanPaste(s) then s
    else
      var c := s.me.clipboard.value;
      var spawned := s.level.spawned + [Spawn(c.platform, c.scale, s.me.facingRight)];
      var me := s.me.(used := s.me.used.Bump(PasteOp));
      if c.isCut then
        State(me.(clipboard := None), s.level.(spawned := spawned, destroyed := s.level.destroyed + {c.platform}))
      else
        State(me, s.level.(spawned := spawned))
  }

  /** Reset: every counter back to zero and the clipboard emptied; the
      limits stay, so every operation has its full limit available again. */
  function ResetLimits(me: Interactor): (r: Interactor)
    ensures Usage(r) == Zero && r.clipboard.None?
    ensures MaxLimits(r) == MaxLimits(me) && Remaining(r) == MaxLimits(me)
    ensures r.facingRight == me.facingRight
    ensures Valid(r)
  {
    me.(used := Zero, clipboard := None)
  }

  /** New limits for a level, followed by a reset. */
  function SetLimits(me: Interactor, copy: int, cut: int, paste: int): (r: Interactor)
    ensures MaxLimits(r) == Counts(copy, cut, paste)
    ensures Usage(r) == Zero && r.clipboard.None?
    ensures Remaining(r) == Counts(copy, cut, paste)
    ensures r.facingRight == me.facingRight
    ensures Valid(r)
  {
    ResetLimits(me.(limits := Counts(copy, cut, paste)))
  }

  /** The keys read in one frame: either Ctrl key, and C, X, V pressed
      this frame. */
  datatype Keys = Keys(ctrl: bool, c: bool, x: bool, v: bool)

  /** One frame: the facing direction is updated first, then with Ctrl
      held C wins over X and X over V. `hit` is what the raycast in the
      updated facing direction returns. */
  function Update(s: State, horizontal: real, keys: Keys, hit: Option<Hit>): (r: State)
    ensures var t := s.(me := UpdateFacing(s.me, horizontal));
      && (keys.ctrl && keys.c ==> r == Copy(t, hit))
      && (keys.ctrl && !keys.c && keys.x ==> r == Cut(t, hit))
      && (keys.ctrl && !keys.c && !keys.x && keys.v ==> r == Paste(t))
      && (!keys.ctrl || (!keys.c && !keys.x && !keys.v) ==> r == t)
    ensures Valid(s.me) ==> Valid(r.me)
  {
    var t := s.(me := UpdateFacing(s.me, horizontal));
    if keys.ctrl then
      if keys.c then Copy(t, hit)
      else if keys.x then Cut(t, hit)
      else if keys.v then Paste(t)
      else t
    else t
  }

  /** Everything that can happen to the component: a frame, or a call of
      one of its public operations from another component. */
  datatype Event =
    | Frame(horizontal: real, keys: Keys, hit: Option<Hit>)
    | Reset
    | NewLimits(copy: int, cut: int, paste: int)

  function Step(s: State, e: Event): State {
    match e
    case Frame(h, k, hit) => Update(s, h, k, hit)
    case Reset => s.(me := ResetLimits(s.me))
    case NewLimits(a, b, c) => s.(me := SetLimits(s.me, a, b, c))
  }

  function Run(s: State, events: seq<Event>): State
    decreases |events|
  {
    if |events| == 0 then s else Run(Step(s, events[0]), events[1..])
  }

  /** Whatever happens, no counter goes negative or past a non-negative
      limit. */
  lemma {:induction false} RunKeepsValid(s: State, events: seq<Event>)
    requires Valid(s.me)
    ensures Valid(Run(s, events).me)
    ensures forall op :: Run(s, events).me.limits.Of(op) >= 0 ==>
      0 <= Remaining(Run(s, events).me).Of(op) <= Run(s, events).me.limits.Of(op)
    decreases |events|
  {
    if |events| > 0 {
      var t := Step(s, events[0]);
      assert Valid(t.me);
      RunKeepsValid(t, events[1..]);
    }
  }

  function PasteTimes(s: State, n: nat): State
    decreases n
  {
    if n == 0 then s else PasteTimes(Paste(s), n - 1)
  }

  /** A copy clipboard survives pastes: as long as the paste limit allows,
      `n` pastes in a row all succeed, each spawning one platform, and the
      clipboard is the same afterwards. */
  lemma {:induction false} CopyClipboardPastesRepeatedly(s: State, n: nat)
    requires s.me.clipboard.Some? && !s.me.clipboard.value.isCut
    requires s.me.clipboard.value.platform !in s.level.destroyed
    requires s.me.used.paste + n <= s.me.limits.paste
    ensures PasteTimes(s, n).me.clipboard == s.me.clipboard
    ensures PasteTimes(s, n).me.used.paste == s.me.used.paste + n
    ensures |PasteTimes(s, n).level.spawned| == |s.level.spawned| + n
    ensures PasteTimes(s, n).level.destroyed == s.level.destroyed
    decreases n
  {
    if n > 0 {
      assert CanPaste(s);
      CopyClipboardPastesRepeatedly(Paste(s), n - 1);
    }
  }

  /** Cut followed by paste moves a platform: the clone is spawned, the
      original destroyed, the clipboard emptied, and a further paste does
      nothing. */
  lemma CutThenPasteMovesPlatform(s: State, hit: Option<Hit>)
    requires CanCut(s.me, hit) && !AtLimit(s.me, PasteOp)
    requires hit.value.platform !in s.level.destroyed
    ensures var r := Paste(Cut(s, hit));
      && r.me.clipboard.None?
      && r.level.destroyed == s.level.destroyed + {hit.value.platform}
      && r.level.spawned == s.level.spawned + [Spawn(hit.value.platform, hit.value.scale, s.me.facingRight)]
      && Paste(r) == r
  {
    var c := Cut(s, hit);
    assert c.me.used.paste == s.me.used.paste;
    assert CanPaste(c);
  }
}
