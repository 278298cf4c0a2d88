/** The panel program itself: the global state, the instrument list and the
    functions of the main program, each proved to do what the corresponding
    function of modules CommonState, Interaction and Scheduler describes. */
module Panel {
  import opened Types
  import CommonState
  import Monitors
  import Interaction
  import Scheduler

  /** The fixed instrument list that `addInstruments` builds. */
  function PanelInstruments(): seq<Instrument> {
    [ Instrument(AirspeedIndicator, 100, 100, 350),
      Instrument(AttitudeIndicator, 500, 100, 350),
      Instrument(Altimeter, 900, 100, 350) ]
  }

  /** One `delete` per element of the list, front first. */
  function Destroyed(list: seq<Instrument>): seq<Effect>
    decreases |list|
  {
    if list == [] then [] else [DestroyInstrument(list[0])] + Destroyed(list[1..])
  }

  /** Every element of the list is deleted exactly once, in list order. */
  lemma {:induction false} DestroyedEach(list: seq<Instrument>)
    ensures |Destroyed(list)| == |list|
    ensures forall i :: 0 <= i < |list| ==> Destroyed(list)[i] == DestroyInstrument(list[i])
    decreases |list|
  {
    if list != [] {
      DestroyedEach(list[1..]);
      assert forall i :: 1 <= i < |list| ==> list[1..][i - 1] == list[i];
    }
  }

  /** Every key event for the monitor key sees at most 16 monitors, the size
      of the arrays `switchMonitor` fills. */
  predicate MonitorsFit(trace: seq<Step>) {
    forall i :: 0 <= i < |trace| && trace[i].event.KeyChar? && trace[i].event.key == KeyM ==>
      |trace[i].event.monitors| <= 16
  }

  class InstrumentPanel {
    var globals: Globals
    var finish: bool
    var instruments: seq<Instrument>
    // what the panel has done to its collaborators so far
    var log: seq<Effect>

    /** The zero-initialised globals of a fresh process. */
    constructor ()
      ensures globals == Globals(0, 0, false, false, false, false, false, false, false, "")
      ensures !finish && instruments == [] && log == []
    {
      globals := Globals(0, 0, false, false, false, false, false, false, false, "");
      finish := false;
      instruments := [];
      log := [];
    }

    /** `addInstruments`: the three instruments, appended in order. */
    method AddInstruments()
      modifies this`instruments
      ensures instruments == old(instruments) + PanelInstruments()
    {
      instruments := instruments + [Instrument(AirspeedIndicator, 100, 100, 350)];
      instruments := instruments + [Instrument(AttitudeIndicator, 500, 100, 350)];
      instruments := instruments + [Instrument(Altimeter, 900, 100, 350)];
    }

    /** `updateCommon`: the reads, in the order and with the fallbacks of the
        program, produce the closed-form flags; success is the connected flag. */
    method UpdateCommon(inp: CommonInputs) returns (success: bool)
      modifies this`globals
      ensures success == CommonState.Common(inp).connected
      ensures globals == old(globals).(electrics := CommonState.Common(inp).electrics,
                                       externalControls := CommonState.Common(inp).externalControls)
    {
      success := true;
      // electrics check
      match inp.electrics {
        case Failed =>
          globals := globals.(electrics := false);
          success := false;
        case Got(charVal) =>
          globals := globals.(electrics := charVal != 1);
      }
      // APU status check
      match inp.apuStatus {
        case Failed =>
          success := false;
        case Got(charVal) =>
          if charVal == 1 {
            globals := globals.(electrics := true);
          }
      }
      // simulator or external controls
      match inp.controls {
        case Failed =>
          globals := globals.(externalControls := true);
          success := false;
        case Got(fsExt) =>
          globals := globals.(externalControls := fsExt == 1);
      }
      if !inp.processOk {
        success := false;
      }
    }

    /** `doUpdate`: refresh the common flags into `connected` and friends, then
        update every instrument in list order. */
    method DoUpdate(inp: CommonInputs)
      modifies this`globals, this`log
      ensures globals == Scheduler.AfterUpdate(old(globals), |instruments|, inp).g
      ensures log == old(log) + Scheduler.AfterUpdate(old(globals), |instruments|, inp).effects
    {
      var ok := UpdateCommon(inp);
      globals := globals.(connected := ok);
      log := log + [CommonRefresh(ok)];
      ghost var start := log;
      var i := 0;
      while i < |instruments|
        invariant 0 <= i <= |instruments|
        invariant log == start + Scheduler.UpdatePass(i, globals.simulating)
        modifies this`log
        decreases |instruments| - i
      {
        log := log + [InstrumentUpdate(i, globals.simulating)];
        i := i + 1;
      }
      assert log == old(log) + ([CommonRefresh(ok)] + Scheduler.UpdatePass(|instruments|, globals.simulating));
    }

    /** `doRender`: clear, render every instrument in list order, the variable
        view while a mode is on, and the error message if there is one. */
    method DoRender()
      modifies this`log
      ensures log == old(log) + Scheduler.RenderEffects(globals, |instruments|)
    {
      log := log + [ClearScreen];
      ghost var start := log;
      var i := 0;
      while i < |instruments|
        invariant 0 <= i <= |instruments|
        invariant log == start + Scheduler.RenderPass(i)
        decreases |instruments| - i
      {
        log := log + [InstrumentRender(i)];
        i := i + 1;
      }
      assert log == old(log) + ([ClearScreen] + Scheduler.RenderPass(i));
      if globals.arranging || globals.simulating {
        log := log + [ViewVariables];
      }
      assert log == old(log) + ([ClearScreen] + Scheduler.RenderPass(i)
                                + (if globals.arranging || globals.simulating then [ViewVariables] else []));
      if globals.error != [] {
        log := log + [DrawError(globals.error)];
      }
    }

    /** `switchMonitor`: record every monitor origin, find the last one equal to
        the window's, and move the window to the next monitor. */
    method SwitchMonitor(monitors: seq<Origin>)
      requires |monitors| <= 16
      modifies this`globals, this`log
      ensures var t := Interaction.MonitorSwitch(old(globals), monitors);
        globals == t.g && log == old(log) + t.effects
    {
      var monCount := |monitors|;
      if monCount <= 1 {
        return;
      }
      var monX := new int[16];
      var monY := new int[16];
      var cur := Origin(globals.displayX, globals.displayY);
      var monNum := 0;
      for i := 0 to monCount
        invariant forall j :: 0 <= j < i ==> monX[j] == monitors[j].x && monY[j] == monitors[j].y
        invariant monNum == Monitors.LastMatch(monitors[..i], cur)
        modifies monX, monY
      {
        monX[i] := monitors[i].x;
        monY[i] := monitors[i].y;
        if monX[i] == globals.displayX && monY[i] == globals.displayY {
          monNum := i;
        }
        assert monitors[..i + 1][..i] == monitors[..i];
      }
      assert monitors[..monCount] == monitors;
      monNum := monNum + 1;
      if monNum == monCount {
        monNum := 0;
      }
      globals := globals.(displayX := monX[monNum], displayY := monY[monNum]);
      log := log + [MoveWindow(Origin(globals.displayX, globals.displayY))];
    }

    /** The `switch` on the key code inside `doKeypress`. */
    method ToggleKey(key: Key, monitors: seq<Origin>)
      requires key == KeyM ==> |monitors| <= 16
      modifies this`globals, this`finish, this`log
      ensures var t := Interaction.Toggle(old(globals), old(finish), key, monitors);
        globals == t.g && finish == t.finish && log == old(log) + t.effects
    {
      match key {
        case KeyP =>
          globals := globals.(arranging := !globals.arranging);
          if globals.arranging {
            globals := globals.(simulating := false);
          } else {
            log := log + [ViewClear];
          }
        case KeyV =>
          globals := globals.(simulating := !globals.simulating);
          if globals.simulating {
            globals := globals.(arranging := false);
          } else {
            log := log + [ViewClear];
          }
        case KeyM =>
          SwitchMonitor(monitors);
        case KeyS =>
          globals := globals.(enableShadows := !globals.enableShadows);
        case KeyT =>
          globals := globals.(tweak := !globals.tweak);
        case KeyEscape =>
          finish := true;
        case OtherKey(_) =>
      }
    }

    /** `doKeypress`: the switch on the key, then forwarding while a mode is on. */
    method DoKeypress(key: Key, monitors: seq<Origin>)
      requires key == KeyM ==> |monitors| <= 16
      modifies this`globals, this`finish, this`log
      ensures var t := Interaction.KeyStep(old(globals), old(finish), key, monitors);
        globals == t.g && finish == t.finish && log == old(log) + t.effects
    {
      ToggleKey(key, monitors);
      if globals.arranging || globals.simulating {
        log := log + [ForwardKey(key)];
      }
    }

    /** The instrument-list drain of `cleanup`: delete the front element until
        the list is empty. */
    method Cleanup()
      modifies this`instruments, this`log
      ensures instruments == []
      ensures log == old(log) + Destroyed(old(instruments))
    {
      while instruments != []
        invariant log + Destroyed(instruments) == old(log) + Destroyed(old(instruments))
        decreases |instruments|
      {
        log := log + [DestroyInstrument(instruments[0])];
        instruments := instruments[1..];
      }
    }

    /** The `switch` on the event type inside the loop of `main`: a timer
        tick updates and asks for a redraw, a key goes to `doKeypress`, closing
        the display sets `finish`, anything else is ignored. */
    method DispatchEvent(ev: Event, redraw0: bool, ghost count: nat) returns (redraw: bool)
      requires ev.KeyChar? && ev.key == KeyM ==> |ev.monitors| <= 16
      modifies this`globals, this`finish, this`log
      ensures Scheduler.Machine(globals, finish, redraw, log, count)
           == Scheduler.Dispatch(Scheduler.Machine(old(globals), old(finish), redraw0, old(log), count), |instruments|, ev)
    {
      redraw := redraw0;
      match ev {
        case Timer(inputs) =>
          DoUpdate(inputs);
          redraw := true;
        case KeyChar(key, monitors) =>
          DoKeypress(key, monitors);
        case DisplayClose =>
          finish := true;
        case OtherEvent =>
      }
    }

    /** One pass of the `while (true)` loop of `main` after the event has been
        taken: dispatch it, and unless `finish` is now set, render and flip
        when a redraw is pending and the queue is empty. */
    method HandleStep(step: Step, redraw0: bool, ghost count: nat) returns (redraw: bool)
      requires step.event.KeyChar? && step.event.key == KeyM ==> |step.event.monitors| <= 16
      modifies this`globals, this`finish, this`log
      ensures Scheduler.Machine(globals, finish, redraw, log, count + 1)
           == Scheduler.Iterate(Scheduler.Machine(old(globals), old(finish), redraw0, old(log), count), |instruments|, step)
    {
      redraw := DispatchEvent(step.event, redraw0, count);
      if finish {
        return;
      }
      if redraw && step.queueEmpty {
        DoRender();
        log := log + [Flip];
        redraw := false;
      }
    }

    /** The `while (true)` loop of `main`: take an event, handle it, and leave
        once `finish` is set. */
    method EventLoop(trace: seq<Step>, redraw0: bool) returns (handled: nat, redraw: bool)
      requires !finish && MonitorsFit(trace)
      modifies this`globals, this`finish, this`log
      ensures Scheduler.Machine(globals, finish, redraw, log, handled)
           == Scheduler.RunTrace(Scheduler.Machine(old(globals), old(finish), redraw0, old(log), 0), |instruments|, trace)
    {
      var n := |instruments|;
      ghost var m0 := Scheduler.Machine(globals, finish, redraw0, log, 0);
      redraw := redraw0;
      handled := 0;
      var i := 0;
      while i < |trace|
        invariant 0 <= i <= |trace| && !finish
        invariant Scheduler.Machine(globals, finish, redraw, log, handled) == Scheduler.RunTrace(m0, n, trace[..i])
        decreases |trace| - i
      {
        ghost var before := Scheduler.Machine(globals, finish, redraw, log, handled);
        var step := trace[i];
        redraw := HandleStep(step, redraw, handled);
        handled := handled + 1;
        assert trace[..i + 1][..i] == trace[..i];
        i := i + 1;
        if finish {
          Scheduler.FinishStops(m0, n, trace, i);
          break;
        }
      }
      if i == |trace| {
        assert trace[..i] == trace;
      }
    }

    /** `main` after initialisation: build the instrument list, run the
        synthetic startup update with `simulating` on, run the event loop with
        a redraw pending, and drain the instrument list. */
    method Run(startup: CommonInputs, trace: seq<Step>) returns (handled: nat)
      requires !finish && instruments == []
      requires MonitorsFit(trace)
      modifies this
      ensures var r := Scheduler.RunTrace(
                Scheduler.Startup(old(globals), old(finish), |PanelInstruments()|, startup, old(log)),
                |PanelInstruments()|, trace);
        globals == r.g && finish == r.finish && handled == r.handled
        && log == r.log + Destroyed(PanelInstruments())
      ensures instruments == []
    {
      AddInstruments();
      assert instruments == PanelInstruments();
      globals := globals.(simulating := true);
      DoUpdate(startup);
      globals := globals.(simulating := false);
      assert Scheduler.Machine(globals, finish, true, log, 0)
          == Scheduler.Startup(old(globals), old(finish), |PanelInstruments()|, startup, old(log));
      var redraw := true;
      handled, redraw := EventLoop(trace, redraw);
      Cleanup();
    }
  }
}
