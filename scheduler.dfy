/** The update pass, the render pass and the main event loop of the panel,
    as functions over the global state and an effect log. */
module Scheduler {
  import opened Types
  import CommonState
  import Interaction

  /** `update()` of every instrument, in list order. */
  function UpdatePass(n: nat, simulating: bool): (fx: seq<Effect>)
    ensures |fx| == n
    ensures forall i :: 0 <= i < n ==> fx[i] == InstrumentUpdate(i, simulating)
    decreases n
  {
    if n == 0 then [] else UpdatePass(n - 1, simulating) + [InstrumentUpdate(n - 1, simulating)]
  }

  /** `render()` of every instrument, in list order. */
  function RenderPass(n: nat): (fx: seq<Effect>)
    ensures |fx| == n
    ensures forall i :: 0 <= i < n ==> fx[i] == InstrumentRender(i)
    decreases n
  {
    if n == 0 then [] else RenderPass(n - 1) + [InstrumentRender(n - 1)]
  }

  /** `doUpdate` over a list of `n` instruments: the common flags are
      recomputed, then every instrument is updated. */
  function AfterUpdate(g: Globals, n: nat, inp: CommonInputs): Transition {
    var f := CommonState.Common(inp);
    Transition(
      g.(connected := f.connected, electrics := f.electrics, externalControls := f.externalControls),
      [CommonRefresh(f.connected)] + UpdatePass(n, g.simulating))
  }

  /** `doRender`: clear, render every instrument, the variable view while a
      mode is on, the error message when there is one. */
  function RenderEffects(g: Globals, n: nat): seq<Effect> {
    [ClearScreen] + RenderPass(n)
    + (if g.arranging || g.simulating then [ViewVariables] else [])
    + (if g.error != [] then [DrawError(g.error)] else [])
  }

  /** The loop's state: the globals, the global `finish` flag, the local
      `redraw` flag, the effect log and the number of events taken from the queue. */
  datatype Machine = Machine(g: Globals, finish: bool, redraw: bool, log: seq<Effect>, handled: nat)

  /** The `switch` on the event type. */
  function Dispatch(m: Machine, n: nat, ev: Event): Machine {
    match ev
    case Timer(inp) =>
      var t := AfterUpdate(m.g, n, inp);
      m.(g := t.g, redraw := true, log := m.log + t.effects)
    case KeyChar(key, monitors) =>
      var t := Interaction.KeyStep(m.g, m.finish, key, monitors);
      m.(g := t.g, finish := t.finish, log := m.log + t.effects)
    case DisplayClose => m.(finish := true)
    case OtherEvent => m
  }

  /** One iteration of the loop: dispatch, leave on `finish`, otherwise render
      and flip if a redraw is pending and the queue is empty. */
  function Iterate(m: Machine, n: nat, s: Step): Machine {
    var d := Dispatch(m, n, s.event).(handled := m.handled + 1);
    if d.finish then d
    else if d.redraw && s.queueEmpty then
      d.(redraw := false, log := d.log + RenderEffects(d.g, n) + [Flip])
    else d
  }

  /** The loop run over the events of `trace` until one of them sets `finish`. */
  function RunTrace(m: Machine, n: nat, trace: seq<Step>): Machine
    decreases |trace|
  {
    if trace == [] then m
    else
      var p := RunTrace(m, n, trace[..|trace| - 1]);
      if p.finish then p else Iterate(p, n, trace[|trace| - 1])
  }

  /** The synthetic update before the loop: one update with `simulating`
      on, after which `simulating` is off and a redraw is pending. */
  function Startup(g: Globals, finish: bool, n: nat, inp: CommonInputs, log: seq<Effect>): Machine {
    var t := AfterUpdate(g.(simulating := true), n, inp);
    Machine(t.g.(simulating := false), finish, true, log + t.effects, 0)
  }

  // ---------------------------------------------------------------------------
  // Counting update passes

  function CountRefresh(log: seq<Effect>): nat
    decreases |log|
  {
    if log == [] then 0
    else CountRefresh(log[..|log| - 1]) + (if log[|log| - 1].CommonRefresh? then 1 else 0)
  }

  function CountTimers(trace: seq<Step>): nat
    decreases |trace|
  {
    if trace == [] then 0
    else CountTimers(trace[..|trace| - 1]) + (if trace[|trace| - 1].event.Timer? then 1 else 0)
  }

  lemma {:induction false} CountRefreshAppend(a: seq<Effect>, b: seq<Effect>)
    ensures CountRefresh(a + b) == CountRefresh(a) + CountRefresh(b)
    decreases |b|
  {
    if b == [] {
      assert a + b == a;
    } else {
      var b' := b[..|b| - 1];
      assert (a + b)[..|a + b| - 1] == a + b';
      assert (a + b)[|a + b| - 1] == b[|b| - 1];
      CountRefreshAppend(a, b');
    }
  }

  lemma {:induction false} CountRefreshNone(fx: seq<Effect>)
    requires forall i :: 0 <= i < |fx| ==> !fx[i].CommonRefresh?
    ensures CountRefresh(fx) == 0
    decreases |fx|
  {
    if fx != [] {
      CountRefreshNone(fx[..|fx| - 1]);
    }
  }

  /** What the dispatch of one event appends to the log: a timer event one
      common refresh followed by the update pass, a key event only view
      clears, window moves and forwarded keys, any other event nothing. */
  lemma DispatchEffects(m: Machine, n: nat, ev: Event)
    ensures var d := Dispatch(m, n, ev);
      |m.log| <= |d.log| && d.log[..|m.log|] == m.log
      && d.redraw == (m.redraw || ev.Timer?) && d.handled == m.handled
      && (forall i :: |m.log| <= i < |d.log| ==>
            (d.log[i].CommonRefresh? <==> ev.Timer? && i == |m.log|))
      && (forall i :: |m.log| <= i < |d.log| ==>
            d.log[i].CommonRefresh? || d.log[i].InstrumentUpdate? || d.log[i].ViewClear?
            || d.log[i].MoveWindow? || d.log[i].ForwardKey?)
  {
    match ev
    case Timer(inp) =>
      UpdateKinds(m.g, n, inp);
      DispatchKinds(m.log, AfterUpdate(m.g, n, inp).effects, true);
    case KeyChar(key, monitors) =>
      var fx := Interaction.KeyStep(m.g, m.finish, key, monitors).effects;
      assert forall i :: 0 <= i < |fx| ==> fx[i] in fx;
      DispatchKinds(m.log, fx, false);
    case DisplayClose =>
      DispatchKinds(m.log, [], false);
      assert m.log + [] == m.log;
    case OtherEvent =>
      DispatchKinds(m.log, [], false);
      assert m.log + [] == m.log;
  }

  /** An update appends one refresh, first, and then only instrument updates. */
  lemma UpdateKinds(g: Globals, n: nat, inp: CommonInputs)
    ensures var fx := AfterUpdate(g, n, inp).effects;
      |fx| == n + 1 && fx[0].CommonRefresh?
      && (forall i :: 0 <= i < |fx| ==> (fx[i].CommonRefresh? <==> i == 0))
      && (forall i :: 1 <= i < |fx| ==> fx[i].InstrumentUpdate?)
  {
    var fx := AfterUpdate(g, n, inp).effects;
    assert forall i :: 1 <= i < |fx| ==> fx[i] == UpdatePass(n, g.simulating)[i - 1];
  }

  /** The kinds of the appended effects, read off the whole log. */
  lemma DispatchKinds(log: seq<Effect>, fx: seq<Effect>, timer: bool)
    requires forall i :: 0 <= i < |fx| ==> (fx[i].CommonRefresh? <==> timer && i == 0)
    requires forall i :: 0 <= i < |fx| ==>
               fx[i].CommonRefresh? || fx[i].InstrumentUpdate? || fx[i].ViewClear?
               || fx[i].MoveWindow? || fx[i].ForwardKey?
    ensures var d := log + fx;
      |log| <= |d| && d[..|log|] == log
      && (forall i :: |log| <= i < |d| ==> (d[i].CommonRefresh? <==> timer && i == |log|))
      && (forall i :: |log| <= i < |d| ==>
            d[i].CommonRefresh? || d[i].InstrumentUpdate? || d[i].ViewClear?
            || d[i].MoveWindow? || d[i].ForwardKey?)
  {
    assert forall i :: |log| <= i < |log + fx| ==> (log + fx)[i] == fx[i - |log|];
  }

  /** A render pass holds no update and no refresh, and ends with the flip. */
  lemma RenderKinds(g: Globals, n: nat)
    ensures var r := RenderEffects(g, n) + [Flip];
      r[|r| - 1] == Flip
      && forall i :: 0 <= i < |r| ==> !r[i].CommonRefresh? && !r[i].InstrumentUpdate?
  {
    var r := RenderEffects(g, n) + [Flip];
    assert forall i :: 1 <= i < n + 1 ==> r[i] == RenderPass(n)[i - 1];
  }

  /** A timer event adds exactly one common refresh to the log, any other
      event none. */
  lemma DispatchRefreshes(m: Machine, n: nat, ev: Event)
    ensures CountRefresh(Dispatch(m, n, ev).log) == CountRefresh(m.log) + (if ev.Timer? then 1 else 0)
  {
    var d := Dispatch(m, n, ev);
    DispatchEffects(m, n, ev);
    var fx := d.log[|m.log|..];
    assert d.log == m.log + fx;
    CountRefreshAppend(m.log, fx);
    if ev.Timer? {
      assert fx == [fx[0]] + fx[1..];
      CountRefreshAppend([fx[0]], fx[1..]);
      CountRefreshNone(fx[1..]);
      assert CountRefresh([fx[0]]) == 1 by { assert [fx[0]][..0] == []; }
    } else {
      CountRefreshNone(fx);
    }
  }

  /** A whole iteration: the dispatch's refreshes, and none from rendering. */
  lemma IterateRefreshes(m: Machine, n: nat, s: Step)
    ensures CountRefresh(Iterate(m, n, s).log) == CountRefresh(m.log) + (if s.event.Timer? then 1 else 0)
    ensures Iterate(m, n, s).handled == m.handled + 1
  {
    var d := Dispatch(m, n, s.event);
    DispatchRefreshes(m, n, s.event);
    if !d.finish && d.redraw && s.queueEmpty {
      var r := RenderEffects(d.g, n) + [Flip];
      assert CountRefresh(r) == 0 by {
        RenderKinds(d.g, n);
        CountRefreshNone(r);
      }
      CountRefreshAppend(d.log, r);
      assert Iterate(m, n, s).log == d.log + r;
    }
  }

  /** Every timer event taken from the queue runs exactly one update pass, and
      the loop takes every event of the trace unless `finish` stops it early. */
  lemma {:induction false} TimersDriveUpdates(m: Machine, n: nat, trace: seq<Step>)
    ensures var r := RunTrace(m, n, trace);
      m.handled <= r.handled <= m.handled + |trace|
      && (!r.finish ==> r.handled == m.handled + |trace|)
      && CountRefresh(r.log) == CountRefresh(m.log) + CountTimers(trace[..r.handled - m.handled])
    decreases |trace|
  {
    if trace == [] {
      assert trace[..0] == [];
    } else {
      var front := trace[..|trace| - 1];
      TimersDriveUpdates(m, n, front);
      var p := RunTrace(m, n, front);
      var k := p.handled - m.handled;
      assert trace[..k] == front[..k];
      if !p.finish {
        IterateRefreshes(p, n, trace[|trace| - 1]);
        assert front[..k] == front;
        assert trace[..k + 1][..k] == front;
        assert trace[..k + 1] == trace;
      }
    }
  }

  // ---------------------------------------------------------------------------
  // Termination

  /** Once an event has set `finish`, no later event is taken from the queue. */
  lemma {:induction false} FinishIsFinal(m: Machine, n: nat, trace: seq<Step>, rest: seq<Step>)
    requires RunTrace(m, n, trace).finish
    ensures RunTrace(m, n, trace + rest) == RunTrace(m, n, trace)
    decreases |rest|
  {
    if rest != [] {
      var rest' := rest[..|rest| - 1];
      assert (trace + rest)[..|trace + rest| - 1] == trace + rest';
      FinishIsFinal(m, n, trace, rest');
    } else {
      assert trace + rest == trace;
    }
  }

  /** A run that has finished after the first `i` events ends there. */
  lemma FinishStops(m: Machine, n: nat, trace: seq<Step>, i: nat)
    requires i <= |trace| && RunTrace(m, n, trace[..i]).finish
    ensures RunTrace(m, n, trace) == RunTrace(m, n, trace[..i])
  {
    FinishIsFinal(m, n, trace[..i], trace[i..]);
    assert trace[..i] + trace[i..] == trace;
  }

  // ---------------------------------------------------------------------------
  // Rendering and ordering within one iteration

  /** The log after one iteration: what the dispatch appended, then the render
      pass and the flip when the iteration renders. */
  lemma IterateLog(m: Machine, n: nat, s: Step)
    ensures var d := Dispatch(m, n, s.event);
      var render := !d.finish && d.redraw && s.queueEmpty;
      var r := Iterate(m, n, s);
      r.log == d.log + (if render then RenderEffects(d.g, n) + [Flip] else [])
      && r.finish == d.finish && r.redraw == (d.redraw && !render)
  {
    var d := Dispatch(m, n, s.event);
    if !(!d.finish && d.redraw && s.queueEmpty) {
      assert d.log + [] == d.log;
    }
  }

  /** Only an iteration that ends with nothing queued, a redraw pending and
      no `finish` renders and flips; afterwards no redraw is pending. */
  lemma RenderOnlyWhenSettled(m: Machine, n: nat, s: Step)
    ensures var r := Iterate(m, n, s);
      |m.log| <= |r.log| && r.log[..|m.log|] == m.log
      && ((Flip in r.log[|m.log|..]) <==> !r.finish && (m.redraw || s.event.Timer?) && s.queueEmpty)
      && ((Flip in r.log[|m.log|..]) ==> r.log[|r.log| - 1] == Flip && !r.redraw)
      && (!r.finish && s.queueEmpty ==> !r.redraw)
  {
    var d := Dispatch(m, n, s.event);
    var render := !d.finish && d.redraw && s.queueEmpty;
    IterateLog(m, n, s);
    DispatchEffects(m, n, s.event);
    FlipLast(m.log, d.log, Iterate(m, n, s).log, RenderEffects(d.g, n), render);
  }

  /** The flip lands in the log exactly when the render part is there, and
      then it is the last entry. */
  lemma FlipLast(mlog: seq<Effect>, dlog: seq<Effect>, rlog: seq<Effect>, body: seq<Effect>, render: bool)
    requires |mlog| <= |dlog| && dlog[..|mlog|] == mlog
    requires forall i :: |mlog| <= i < |dlog| ==> !dlog[i].Flip?
    requires rlog == dlog + (if render then body + [Flip] else [])
    ensures |mlog| <= |rlog| && rlog[..|mlog|] == mlog
    ensures (Flip in rlog[|mlog|..]) <==> render
    ensures render ==> rlog[|rlog| - 1] == Flip
  {
    var fx := rlog[|mlog|..];
    assert forall i :: 0 <= i < |dlog| - |mlog| ==> fx[i] == dlog[|mlog| + i];
    if render {
      assert fx[|fx| - 1] == Flip;
    } else {
      assert forall i :: 0 <= i < |fx| ==> !fx[i].Flip?;
    }
  }

  /** Within one iteration the common refresh comes before every instrument
      update, and every instrument update before every instrument render. */
  lemma UpdatesBeforeRenders(m: Machine, n: nat, s: Step)
    ensures var r := Iterate(m, n, s);
      |m.log| <= |r.log| &&
      var fx := r.log[|m.log|..];
      (forall i, j :: 0 <= i < |fx| && 0 <= j < |fx| && fx[i].InstrumentUpdate? && fx[j].InstrumentRender? ==> i < j)
      && (forall i, j :: 0 <= i < |fx| && 0 <= j < |fx| && fx[i].CommonRefresh? && fx[j].InstrumentUpdate? ==> i < j)
  {
    var d := Dispatch(m, n, s.event);
    var render := !d.finish && d.redraw && s.queueEmpty;
    IterateLog(m, n, s);
    DispatchEffects(m, n, s.event);
    RenderKinds(d.g, n);
    OrderedLog(m.log, d.log, Iterate(m, n, s).log, if render then RenderEffects(d.g, n) + [Flip] else []);
  }

  /** A dispatch part that holds no render and has its refresh, if any, first,
      followed by a part that holds no refresh and no update, is ordered:
      refresh before updates before renders. */
  lemma OrderedLog(mlog: seq<Effect>, dlog: seq<Effect>, rlog: seq<Effect>, tail: seq<Effect>)
    requires |mlog| <= |dlog| && dlog[..|mlog|] == mlog
    requires forall i :: |mlog| <= i < |dlog| ==>
               (dlog[i].CommonRefresh? ==> i == |mlog|) && !dlog[i].InstrumentRender?
    requires forall i :: 0 <= i < |tail| ==> !tail[i].CommonRefresh? && !tail[i].InstrumentUpdate?
    requires rlog == dlog + tail
    ensures |mlog| <= |rlog|
    ensures var fx := rlog[|mlog|..];
      (forall i, j :: 0 <= i < |fx| && 0 <= j < |fx| && fx[i].InstrumentUpdate? && fx[j].InstrumentRender? ==> i < j)
      && (forall i, j :: 0 <= i < |fx| && 0 <= j < |fx| && fx[i].CommonRefresh? && fx[j].InstrumentUpdate? ==> i < j)
  {
    var fx := rlog[|mlog|..];
    var k := |dlog| - |mlog|;
    assert forall i :: 0 <= i < k ==> fx[i] == dlog[|mlog| + i];
    assert forall i :: k <= i < |fx| ==> fx[i] == tail[i - k];
  }

  // ---------------------------------------------------------------------------
  // Mode exclusion over a whole run

  lemma DispatchKeepsExclusive(m: Machine, n: nat, ev: Event)
    requires Exclusive(m.g)
    ensures Exclusive(Dispatch(m, n, ev).g)
  {
  }

  /** Arranging and simulating are never both on after any number of events. */
  lemma {:induction false} RunKeepsExclusive(m: Machine, n: nat, trace: seq<Step>)
    requires Exclusive(m.g)
    ensures Exclusive(RunTrace(m, n, trace).g)
    decreases |trace|
  {
    if trace != [] {
      var p := RunTrace(m, n, trace[..|trace| - 1]);
      RunKeepsExclusive(m, n, trace[..|trace| - 1]);
      DispatchKeepsExclusive(p, n, trace[|trace| - 1].event);
    }
  }

  /** The startup update runs every instrument update with `simulating` on;
      afterwards `simulating` is off, so the modes are exclusive, and a
      redraw is pending. */
  lemma StartupSimulates(g: Globals, finish: bool, n: nat, inp: CommonInputs, log: seq<Effect>)
    ensures var m := Startup(g, finish, n, inp, log);
      |m.log| == |log| + 1 + n && m.log[..|log|] == log
      && m.log[|log|] == CommonRefresh(m.g.connected)
      && (forall i :: 0 <= i < n ==> m.log[|log| + 1 + i] == InstrumentUpdate(i, true))
      && !m.g.simulating && Exclusive(m.g) && m.redraw && m.finish == finish
  {
    var t := AfterUpdate(g.(simulating := true), n, inp);
    assert t.effects == [CommonRefresh(t.g.connected)] + UpdatePass(n, true);
    RefreshThenUpdates(log, CommonRefresh(t.g.connected), UpdatePass(n, true));
  }

  lemma RefreshThenUpdates(log: seq<Effect>, refresh: Effect, fx: seq<Effect>)
    ensures var l := log + ([refresh] + fx);
      |l| == |log| + 1 + |fx| && l[..|log|] == log && l[|log|] == refresh
      && forall i :: 0 <= i < |fx| ==> l[|log| + 1 + i] == fx[i]
  {
  }


  /** A whole run from startup ends with the modes exclusive, whatever the
      state before startup. */
  lemma RunEndsExclusive(g: Globals, finish: bool, n: nat, inp: CommonInputs, log: seq<Effect>, trace: seq<Step>)
    ensures Exclusive(RunTrace(Startup(g, finish, n, inp, log), n, trace).g)
  {
    RunKeepsExclusive(Startup(g, finish, n, inp, log), n, trace);
  }
}
