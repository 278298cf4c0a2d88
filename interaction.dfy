/** The keyboard state machine of `doKeypress`: the P and V mode toggles, the
    monitor key, the shadow and tweak toggles, Esc, and forwarding of every key
    to the variable-inspection subsystem while a mode is on. */
module Interaction {
  import opened Types
  import Monitors

  /** `switchMonitor` on the state: with two or more monitors the window
      origin moves to the next monitor and the window is moved there. */
  function MonitorSwitch(g: Globals, monitors: seq<Origin>): (t: Transition)
    ensures |monitors| <= 1 ==> t == Transition(g, [])
    ensures |monitors| > 1 ==> t.effects == [MoveWindow(Origin(t.g.displayX, t.g.displayY))]
    ensures t.g == g.(displayX := t.g.displayX, displayY := t.g.displayY)
    ensures Origin(t.g.displayX, t.g.displayY)
            == Monitors.NextOrigin(monitors, Origin(g.displayX, g.displayY))
  {
    if |monitors| <= 1 then Transition(g, [])
    else
      var o := Monitors.NextOrigin(monitors, Origin(g.displayX, g.displayY));
      Transition(g.(displayX := o.x, displayY := o.y), [MoveWindow(o)])
  }

  /** The globals, the global `finish` flag and the effects after a key press. */
  datatype KeyOutcome = KeyOutcome(g: Globals, finish: bool, effects: seq<Effect>)

  /** The `switch` on the key code. */
  function Toggle(g: Globals, finish: bool, key: Key, monitors: seq<Origin>): (t: KeyOutcome)
    ensures key in {KeyP, KeyV} ==> Exclusive(t.g)
    ensures key !in {KeyP, KeyV} ==> t.g.arranging == g.arranging && t.g.simulating == g.simulating
    ensures (ViewClear in t.effects) <==> (key == KeyP && g.arranging) || (key == KeyV && g.simulating)
    ensures forall e :: e in t.effects ==> e.ViewClear? || e.MoveWindow?
    ensures |t.effects| <= 1
    ensures t.finish == (finish || key == KeyEscape)
  {
    match key
    case KeyP =>
      if !g.arranging then KeyOutcome(g.(arranging := true, simulating := false), finish, [])
      else KeyOutcome(g.(arranging := false), finish, [ViewClear])
    case KeyV =>
      if !g.simulating then KeyOutcome(g.(simulating := true, arranging := false), finish, [])
      else KeyOutcome(g.(simulating := false), finish, [ViewClear])
    case KeyM =>
      var t := MonitorSwitch(g, monitors);
      KeyOutcome(t.g, finish, t.effects)
    case KeyS => KeyOutcome(g.(enableShadows := !g.enableShadows), finish, [])
    case KeyT => KeyOutcome(g.(tweak := !g.tweak), finish, [])
    case KeyEscape => KeyOutcome(g, true, [])
    case OtherKey(_) => KeyOutcome(g, finish, [])
  }

  /** One key press: the switch, then forwarding of the key while a mode is on. */
  function KeyStep(g: Globals, finish: bool, key: Key, monitors: seq<Origin>): (t: KeyOutcome)
    ensures Exclusive(g) ==> Exclusive(t.g)
    ensures key in {KeyP, KeyV} ==> Exclusive(t.g)
    ensures (ViewClear in t.effects) <==> (key == KeyP && g.arranging) || (key == KeyV && g.simulating)
    ensures (ForwardKey(key) in t.effects) <==> t.g.arranging || t.g.simulating
    ensures forall e :: e in t.effects ==> e.ViewClear? || e.MoveWindow? || e.ForwardKey?
    ensures |t.effects| <= 2
    ensures ForwardKey(key) in t.effects ==>
      t.effects[|t.effects| - 1] == ForwardKey(key)
      && forall i :: 0 <= i < |t.effects| - 1 ==> !t.effects[i].ForwardKey?
    ensures t.finish == (finish || key == KeyEscape)
  {
    var s := Toggle(g, finish, key, monitors);
    KeyOutcome(s.g, s.finish, s.effects + if s.g.arranging || s.g.simulating then [ForwardKey(key)] else [])
  }

  /** P flips `arranging`; switching it on switches simulating off, switching it
      off leaves simulating alone. V is the mirror image. */
  lemma ModeToggles(g: Globals, finish: bool, monitors: seq<Origin>)
    ensures KeyStep(g, finish, KeyP, monitors).g
            == g.(arranging := !g.arranging, simulating := g.simulating && g.arranging)
    ensures KeyStep(g, finish, KeyV, monitors).g
            == g.(simulating := !g.simulating, arranging := g.arranging && g.simulating)
  {
  }

  /** Entering arranging while simulating: arranging on, simulating off, and no
      view clear, because the toggle entered a mode rather than leaving one. */
  lemma EnterArrangingWhileSimulating(g: Globals, finish: bool, monitors: seq<Origin>)
    requires g.simulating && !g.arranging
    ensures KeyStep(g, finish, KeyP, monitors).g.arranging
    ensures !KeyStep(g, finish, KeyP, monitors).g.simulating
    ensures ViewClear !in KeyStep(g, finish, KeyP, monitors).effects
  {
  }

  /** S, T, Esc and the monitor key change only their own part of the state;
      any other key changes nothing. */
  lemma KeyFrames(g: Globals, finish: bool, code: int, monitors: seq<Origin>)
    ensures KeyStep(g, finish, KeyS, monitors).g == g.(enableShadows := !g.enableShadows)
    ensures KeyStep(g, finish, KeyS, monitors).finish == finish
    ensures KeyStep(g, finish, KeyT, monitors).g == g.(tweak := !g.tweak)
    ensures KeyStep(g, finish, KeyT, monitors).finish == finish
    ensures KeyStep(g, finish, KeyEscape, monitors).g == g
    ensures KeyStep(g, finish, KeyEscape, monitors).finish
    ensures KeyStep(g, finish, OtherKey(code), monitors).g == g
    ensures KeyStep(g, finish, OtherKey(code), monitors).finish == finish
    ensures KeyStep(g, finish, KeyM, monitors).g == MonitorSwitch(g, monitors).g
    ensures KeyStep(g, finish, KeyM, monitors).finish == finish
  {
  }

  /** With both modes off, a key other than P and V is not forwarded and
      causes no effect besides a possible window move. */
  lemma IdleKeysNotForwarded(g: Globals, finish: bool, key: Key, monitors: seq<Origin>)
    requires !g.arranging && !g.simulating && key !in {KeyP, KeyV}
    ensures forall e :: e in KeyStep(g, finish, key, monitors).effects ==> e.MoveWindow?
  {
  }
}
