/** The on-screen operation-limit panel: one line per operation reading
    "Name: used/max", coloured by how much of the limit is left. The text
    is given a parser so that the format can be stated as a round trip. */
module LimitDisplay {
  import opened Common
  import opened PlatformInteractor

  /** The three colour settings of the panel. */
  datatype Shade = AvailableShade | UsedShade | LimitReachedShade

  /** Colour choice: limit reached whenever nothing remains, whatever the
      usage; otherwise used once something was used, else available. */
  function ShadeFor(remaining: int, used: int): (c: Shade)
    ensures c == LimitReachedShade <==> remaining == 0
    ensures c == UsedShade <==> remaining != 0 && used > 0
    ensures c == AvailableShade <==> remaining != 0 && used <= 0
  {
    if remaining == 0 then LimitReachedShade
    else if used > 0 then UsedShade
    else AvailableShade
  }

  predicate IsDigit(c: char) {
    '0' <= c <= '9'
  }

  predicate AllDigits(s: string) {
    forall i :: 0 <= i < |s| ==> IsDigit(s[i])
  }

  function DigitChar(d: nat): (c: char)
    requires d < 10
    ensures IsDigit(c) && c as int - '0' as int == d
  {
    (('0' as int) + d) as char
  }

  /** Decimal digits of a natural number, most significant first, without
      leading zeros. */
  function NatText(n: nat): (s: string)
    ensures 1 <= |s| && AllDigits(s)
    decreases n
  {
    if n < 10 then [DigitChar(n)] else NatText(n / 10) + [DigitChar(n % 10)]
  }

  /** How C# formats an `int` in an interpolated string under the
      invariant culture: a minus sign for negatives, then the decimal
      digits. */
  function IntText(n: int): (s: string)
    ensures 1 <= |s|
    ensures forall i :: 0 <= i < |s| ==> s[i] != ':' && s[i] != '/'
  {
    if n < 0 then "-" + NatText(-n) else NatText(n)
  }

  /** The value of a string of decimal digits. */
  function DigitsValue(s: string): nat
    requires AllDigits(s)
    decreases |s|
  {
    if |s| == 0 then 0 else DigitsValue(s[..|s| - 1]) * 10 + (s[|s| - 1] as int - '0' as int)
  }

  lemma {:induction false} NatTextRoundTrip(n: nat)
    ensures DigitsValue(NatText(n)) == n
    decreases n
  {
    if n >= 10 {
      var s := NatText(n);
      NatTextRoundTrip(n / 10);
      assert s[..|s| - 1] == NatText(n / 10);
    }
  }

  /** Reads an optionally negative decimal integer. */
  function ParseInt(s: string): Option<int> {
    if 2 <= |s| && s[0] == '-' && AllDigits(s[1..]) then Some(-(DigitsValue(s[1..]) as int))
    else if 1 <= |s| && AllDigits(s) then Some(DigitsValue(s))
    else None
  }

  /** Formatting an integer and reading it back gives the integer. */
  lemma IntTextRoundTrip(n: int)
    ensures ParseInt(IntText(n)) == Some(n)
  {
    if n < 0 {
      NatTextRoundTrip(-n);
      assert IntText(n)[1..] == NatText(-n);
    } else {
      NatTextRoundTrip(n);
      assert IsDigit(IntText(n)[0]);
    }
  }

  /** Position of the first `c` in `s`, or `|s|` when there is none. */
  function FirstIndex(s: string, c: char): (i: nat)
    ensures i <= |s|
    ensures i < |s| ==> s[i] == c
    ensures forall k :: 0 <= k < i ==> s[k] != c
    decreases |s|
  {
    if |s| == 0 then 0 else if s[0] == c then 0 else 1 + FirstIndex(s[1..], c)
  }

  /** What one panel line says. */
  datatype Reading = Reading(name: string, used: int, max: int)

  /** The text of one panel line. */
  function Label(name: string, used: int, max: int): string {
    name + ": " + IntText(used) + "/" + IntText(max)
  }

  /** Reads "used/max": two integers around the first slash. */
  function ParsePair(rest: string): Option<(int, int)> {
    var j := FirstIndex(rest, '/');
    if j < |rest| then
      match (ParseInt(rest[..j]), ParseInt(rest[j + 1..]))
      case (Some(u), Some(m)) => Some((u, m))
      case _ => None
    else None
  }

  /** Reads a panel line back: the name up to the first colon, a space,
      then the usage and the limit. */
  function ParseLabel(t: string): Option<Reading> {
    var i := FirstIndex(t, ':');
    if i + 1 < |t| && t[i + 1] == ' ' then
      match ParsePair(t[i + 2..])
      case Some((u, m)) => Some(Reading(t[..i], u, m))
      case None => None
    else None
  }

  predicate NoColon(name: string) {
    forall k :: 0 <= k < |name| ==> name[k] != ':'
  }

  /** The first `c` in `a + b` is the head of `b` when `a` holds none. */
  lemma FirstIndexAtJoin(a: string, b: string, c: char)
    requires forall k :: 0 <= k < |a| ==> a[k] != c
    requires 0 < |b| && b[0] == c
    ensures FirstIndex(a + b, c) == |a|
  {
    var i := FirstIndex(a + b, c);
    assert (a + b)[|a|] == c;
  }

  /** The "used/max" part reads back as the two integers. */
  lemma PairRoundTrip(used: int, max: int)
    ensures ParsePair(IntText(used) + "/" + IntText(max)) == Some((used, max))
  {
    var u := IntText(used);
    var m := IntText(max);
    var tail := u + ("/" + m);
    assert u + "/" + m == tail;
    FirstIndexAtJoin(u, "/" + m, '/');
    assert tail[..|u|] == u;
    assert tail[|u| + 1..] == m;
    IntTextRoundTrip(used);
    IntTextRoundTrip(max);
  }

  /** Every panel line reads back as the name, usage and limit it was made
      from. */
  lemma LabelRoundTrip(name: string, used: int, max: int)
    requires NoColon(name)
    ensures ParseLabel(Label(name, used, max)) == Some(Reading(name, used, max))
  {
    var tail := IntText(used) + "/" + IntText(max);
    var t := name + (": " + tail);
    assert Label(name, used, max) == t;
    FirstIndexAtJoin(name, ": " + tail, ':');
    assert t[|name| + 1] == ' ';
    assert t[|name| + 2..] == tail;
    assert t[..|name|] == name;
    PairRoundTrip(used, max);
  }

  /** A text element of the panel; `Missing` is an unassigned reference. */
  datatype TextElement = Missing | Shown(text: string, shade: Shade)

  /** One line update: an unassigned element is left alone; otherwise it
      shows the operation's usage and limit, coloured by `ShadeFor` from
      what remains and what was used. */
  function UpdateTextElement(e: TextElement, name: string, remaining: int, used: int, max: int): (r: TextElement)
    ensures e.Missing? <==> r.Missing?
    ensures r.Shown? && NoColon(name) ==> ParseLabel(r.text) == Some(Reading(name, used, max))
    ensures r.Shown? ==> (r.shade == LimitReachedShade <==> remaining == 0)
    ensures r.Shown? ==> r.shade == ShadeFor(remaining, used)
  {
    if e.Missing? then Missing
    else if NoColon(name) then
      LabelRoundTrip(name, used, max);
      Shown(Label(name, used, max), ShadeFor(remaining, used))
    else Shown(Label(name, used, max), ShadeFor(remaining, used))
  }

  datatype Panel = Panel(copy: TextElement, cut: TextElement, paste: TextElement)

  function ElementOf(p: Panel, op: Op): TextElement {
    match op
    case CopyOp => p.copy
    case CutOp => p.cut
    case PasteOp => p.paste
  }

  function OpName(op: Op): (name: string)
    ensures NoColon(name)
  {
    match op
    case CopyOp => "Copy"
    case CutOp => "Cut"
    case PasteOp => "Paste"
  }

  /** The refresh of the line of `op`: an unassigned line stays
      unassigned; an assigned one reads back as the operation's name, usage
      and limit, and shows the limit colour exactly when nothing remains. */
  function RefreshLine(e: TextElement, op: Op, me: Interactor): (r: TextElement)
    ensures e.Missing? <==> r.Missing?
    ensures r.Shown? ==> ParseLabel(r.text) == Some(Reading(OpName(op), Usage(me).Of(op), MaxLimits(me).Of(op)))
    ensures r.Shown? ==> (r.shade == LimitReachedShade <==> Remaining(me).Of(op) == 0)
    ensures r.Shown? ==> r.shade == ShadeFor(Remaining(me).Of(op), Usage(me).Of(op))
  {
    UpdateTextElement(e, OpName(op), Remaining(me).Of(op), Usage(me).Of(op), MaxLimits(me).Of(op))
  }

  /** The per-frame refresh: without an interactor nothing changes;
      otherwise each line is refreshed from the interactor. */
  function UpdateUI(player: Option<Interactor>, p: Panel): (r: Panel)
    ensures player.None? ==> r == p
    ensures player.Some? ==>
      && r.copy == RefreshLine(p.copy, CopyOp, player.value)
      && r.cut == RefreshLine(p.cut, CutOp, player.value)
      && r.paste == RefreshLine(p.paste, PasteOp, player.value)
  {
    match player
    case None => p
    case Some(me) =>
      Panel(RefreshLine(p.copy, CopyOp, me), RefreshLine(p.cut, CutOp, me), RefreshLine(p.paste, PasteOp, me))
  }

  /** After a refresh every assigned line of the panel reads back as its
      operation's name, usage and limit, and unassigned lines stay
      unassigned. */
  lemma PanelReadsBack(me: Interactor, p: Panel, op: Op)
    ensures var e := ElementOf(UpdateUI(Some(me), p), op);
      && (e.Missing? <==> ElementOf(p, op).Missing?)
      && (e.Shown? ==> ParseLabel(e.text) == Some(Reading(OpName(op), Usage(me).Of(op), MaxLimits(me).Of(op))))
  {
  }

  /** With a non-negative limit the colour tells the player the truth: the
      limit colour exactly when the operation will be refused, the used
      colour when some but not all of it is spent, and the available colour
      when none of it is. */
  lemma ShadeTracksLimit(me: Interactor, p: Panel, op: Op)
    requires Valid(me) && me.limits.Of(op) >= 0
    requires ElementOf(p, op).Shown?
    ensures var e := ElementOf(UpdateUI(Some(me), p), op);
      && (e.shade == LimitReachedShade <==> AtLimit(me, op))
      && (e.shade == UsedShade <==> !AtLimit(me, op) && me.used.Of(op) > 0)
      && (e.shade == AvailableShade <==> !AtLimit(me, op) && me.used.Of(op) == 0)
  {
    var e := ElementOf(UpdateUI(Some(me), p), op);
    assert e == UpdateTextElement(ElementOf(p, op), OpName(op), Remaining(me).Of(op), Usage(me).Of(op), MaxLimits(me).Of(op));
    assert e.shade == ShadeFor(Remaining(me).Of(op), me.used.Of(op));
  }
}
