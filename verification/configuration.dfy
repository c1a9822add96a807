/**
 * Port-count validation and the choice of the number of IR channels
 * (`n_ir`), as `main` does it before any JACK port is registered.
 */
module Configuration {

  datatype PortError =
    | InvalidPortCount        // "Invalid number of i/o ports"
    | TrueStereoNeedsStereo   // "True-Stereo needs stereo I/O"

  datatype Result<T, E> = Ok(value: T) | Err(error: E)

  /** The port-count checks of `main` in their order; on success the number of IR channels. */
  function ValidatePorts(nInputs: nat, nOutputs: nat, trueStereo: bool): (r: Result<nat, PortError>)
    ensures r.Ok? <==> 1 <= nOutputs <= nInputs <= 2 && (trueStereo ==> nInputs == 2 && nOutputs == 2)
    ensures r == Err(InvalidPortCount) <==> !(1 <= nOutputs <= nInputs <= 2)
    ensures r.Ok? ==> 1 <= r.value <= 4 && (trueStereo <==> r.value == 4)
    ensures r.Ok? && !trueStereo ==> r.value == nInputs
  {
    if nOutputs < 1 || nOutputs > 2 || nInputs < 1 || nInputs > 2 || nOutputs > nInputs then
      Err(InvalidPortCount)
    else if (nOutputs != 2 || nInputs != 2) && trueStereo then
      Err(TrueStereoNeedsStereo)
    else if trueStereo then
      Ok(4)
    else
      Ok(nInputs)
  }

  /** The four IR file configurations the tool advertises, as (capture ports, playback ports, true-stereo, channels). */
  datatype Layout = Layout(inputs: nat, outputs: nat, trueStereo: bool, channels: nat)

  const Layouts: seq<Layout> := [
    Layout(1, 1, false, 1),  // mono
    Layout(2, 1, false, 2),  // mono-to-stereo: one playback port, two capture ports
    Layout(2, 2, false, 2),  // stereo
    Layout(2, 2, true, 4)    // true-stereo
  ]

  /** Validation accepts exactly the advertised layouts, and gives each its channel count. */
  lemma AcceptedLayouts(nInputs: nat, nOutputs: nat, trueStereo: bool)
    ensures ValidatePorts(nInputs, nOutputs, trueStereo).Ok? <==>
      exists l :: l in Layouts && l.inputs == nInputs && l.outputs == nOutputs && l.trueStereo == trueStereo
    ensures forall l :: l in Layouts && l.inputs == nInputs && l.outputs == nOutputs && l.trueStereo == trueStereo ==>
      ValidatePorts(nInputs, nOutputs, trueStereo) == Ok(l.channels)
  {
    var r := ValidatePorts(nInputs, nOutputs, trueStereo);
    if r.Ok? {
      var l := Layout(nInputs, nOutputs, trueStereo, r.value);
      if trueStereo {
        assert l == Layouts[3];
      } else if nInputs == 1 {
        assert l == Layouts[0];
      } else if nOutputs == 1 {
        assert l == Layouts[1];
      } else {
        assert l == Layouts[2];
      }
    }
  }
}
