/**
 * The external signal slots of a block (include/signals.h): how many values
 * the block reads from the scheme's input buffer and writes to its output
 * buffer, and where in those buffers its share starts. A pointer into a
 * buffer is modelled by the index of the element it points at.
 */
module SignalPorts {
  import opened Context

  class Signals {
    const numInputs: nat
    const numOutputs: nat
    var inputs: Option<nat>
    var outputs: Option<nat>
    var inputOffset: nat
    var outputOffset: nat

    /** `Signals(num_in, num_out)`: no buffer attached, both offsets 0. */
    constructor(numInputs: nat, numOutputs: nat)
      ensures this.numInputs == numInputs && this.numOutputs == numOutputs
      ensures inputs == None && outputs == None && inputOffset == 0 && outputOffset == 0
    {
      this.numInputs := numInputs;
      this.numOutputs := numOutputs;
      inputs := None;
      outputs := None;
      inputOffset := 0;
      outputOffset := 0;
    }

    /** `setInputPointer` together with `setInputOffset`, which the scheme always calls as a pair. */
    method AttachInputs(at: nat)
      modifies this`inputs, this`inputOffset
      ensures inputs == Some(at) && inputOffset == at
    {
      inputs := Some(at);
      inputOffset := at;
    }

    /** `setOutputPointer` together with `setOutputOffset`. */
    method AttachOutputs(at: nat)
      modifies this`outputs, this`outputOffset
      ensures outputs == Some(at) && outputOffset == at
    {
      outputs := Some(at);
      outputOffset := at;
    }
  }
}
