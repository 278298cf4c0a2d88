/** The aggregation policy of `updateCommon`: three bridge reads and one
    process call become the `electrics`, `externalControls` and `connected`
    flags. The flags are recomputed from the inputs of one call alone. */
module CommonState {
  import opened Types

  datatype CommonFlags = CommonFlags(electrics: bool, externalControls: bool, connected: bool)

  /** Closed form of the flags one call of `updateCommon` produces. */
  function Common(inp: CommonInputs): CommonFlags {
    CommonFlags(
      electrics := inp.apuStatus == Got(1) || (inp.electrics.Got? && inp.electrics.value != 1),
      externalControls := inp.controls.Failed? || inp.controls.value == 1,
      connected := inp.electrics.Got? && inp.apuStatus.Got? && inp.controls.Got? && inp.processOk)
  }

  /** `connected` holds exactly when all three reads and the process call succeed. */
  lemma ConnectedIffAllSucceed(inp: CommonInputs)
    ensures Common(inp).connected <==>
      inp.electrics != Failed && inp.apuStatus != Failed && inp.controls != Failed && inp.processOk
    ensures inp.electrics == Failed ==> !Common(inp).connected
    ensures inp.apuStatus == Failed ==> !Common(inp).connected
    ensures inp.controls == Failed ==> !Common(inp).connected
    ensures !inp.processOk ==> !Common(inp).connected
  {
  }

  /** How `electrics` follows from the primary read, overridden by a running APU. */
  lemma ElectricsRule(inp: CommonInputs)
    ensures inp.apuStatus == Got(1) ==> Common(inp).electrics
    ensures inp.apuStatus != Got(1) && inp.electrics == Failed ==> !Common(inp).electrics
    ensures inp.apuStatus != Got(1) && inp.electrics.Got? ==>
      Common(inp).electrics == (inp.electrics.value != 1)
    ensures inp.apuStatus == Failed ==>
      Common(inp).electrics == Common(inp.(apuStatus := Got(0))).electrics
  {
  }

  /** `externalControls` defaults to true on a failed read, and depends on
      nothing but its own read. */
  lemma ExternalControlsRule(inp: CommonInputs, other: CommonInputs)
    ensures inp.controls == Failed ==> Common(inp).externalControls
    ensures inp.controls.Got? ==> Common(inp).externalControls == (inp.controls.value == 1)
    ensures other.controls == inp.controls ==>
      Common(other).externalControls == Common(inp).externalControls
  {
  }

  /** An "off" primary read with a running APU still yields electrics on;
      with a failed APU read it yields electrics off. */
  lemma ApuOverrideScenarios(process: bool, controls: Read<UInt16>)
    ensures Common(CommonInputs(Got(1), Got(1), controls, process)).electrics
    ensures !Common(CommonInputs(Got(1), Failed, controls, process)).electrics
  {
  }

  /** A failed external-controls read: external control is taken to be on and the
      tick is not connected; all reads and the process succeeding: connected. */
  lemma ConnectionScenarios(e: UInt8, a: UInt8, c: UInt16, inp: CommonInputs)
    ensures inp.controls == Failed ==> Common(inp).externalControls && !Common(inp).connected
    ensures Common(CommonInputs(Got(e), Got(a), Got(c), true)).connected
  {
  }
}
