/** Values shared by the instrument panel's control layer: the inputs it reads
    from the simulator bridge, the keys and events it reacts to, the global
    application state and the observable effects it has on its collaborators. */
module Types {

  /** An `unsigned char` as read from the bridge. */
  newtype UInt8 = x: int | 0 <= x < 0x100

  /** An `unsigned short` as read from the bridge. */
  newtype UInt16 = x: int | 0 <= x < 0x1_0000

  /** The outcome of one `FSUIPC_Read`: failure, or success with the value read. */
  datatype Read<T> = Failed | Got(value: T)

  /** Everything one call of `updateCommon` learns from the bridge: the
      one-byte electrics read (offset 0x0B6A), the one-byte APU status read
      (offset 0x0B52), the two-byte external-controls read (offset 0x73E0)
      and the success of the final `FSUIPC_Process`. */
  datatype CommonInputs = CommonInputs(
    electrics: Read<UInt8>,
    apuStatus: Read<UInt8>,
    controls: Read<UInt16>,
    processOk: bool)

  /** Keys the panel reacts to. `OtherKey(code)` stands for every key code
      other than those of P, V, M, S, T and Esc; those six keys are always
      written with their own constructor. */
  datatype Key = KeyP | KeyV | KeyM | KeyS | KeyT | KeyEscape | OtherKey(code: int)

  /** The top-left corner of a monitor or of the window. */
  datatype Origin = Origin(x: int, y: int)

  datatype InstrumentKind = AirspeedIndicator | AttitudeIndicator | Altimeter

  /** An instrument is placed at construction and keeps its place and size. */
  datatype Instrument = Instrument(kind: InstrumentKind, xPos: int, yPos: int, size: int)

  /** What the control layer does to the outside world, in the order it does it.
      `index` names an element of the instrument list by its position. */
  datatype Effect =
    | CommonRefresh(connected: bool)                   // updateCommon ran
    | InstrumentUpdate(index: nat, simulating: bool)   // instrument->update()
    | ClearScreen                                      // al_clear_to_color
    | InstrumentRender(index: nat)                     // instrument->render()
    | ViewVariables                                    // simVars->view()
    | DrawError(message: string)                       // al_draw_text of the error
    | Flip                                             // al_flip_display
    | ViewClear                                        // simVars->viewClear()
    | ForwardKey(key: Key)                             // simVars->doKeypress(keycode)
    | MoveWindow(origin: Origin)                       // al_set_window_position
    | DestroyInstrument(instrument: Instrument)        // delete of a list element

  /** The fields of the global `globals` struct that the core reads or writes. */
  datatype Globals = Globals(
    displayX: int,
    displayY: int,
    connected: bool,
    electrics: bool,
    externalControls: bool,
    arranging: bool,
    simulating: bool,
    enableShadows: bool,
    tweak: bool,
    error: string)

  /** Arranging and simulating are never on together. */
  predicate Exclusive(g: Globals) {
    !(g.arranging && g.simulating)
  }

  /** New globals together with the effects that produced them. */
  datatype Transition = Transition(g: Globals, effects: seq<Effect>)

  /** Events delivered by the queue. A key event carries the monitor origins
      that `switchMonitor` would enumerate at that moment; events of any other
      type are `OtherEvent` and are ignored by the dispatch. */
  datatype Event =
    | Timer(inputs: CommonInputs)
    | KeyChar(key: Key, monitors: seq<Origin>)
    | DisplayClose
    | OtherEvent

  /** One wake-up of the main loop: the event taken from the queue and whether
      the queue is empty once that event has been handled. */
  datatype Step = Step(event: Event, queueEmpty: bool)
}
