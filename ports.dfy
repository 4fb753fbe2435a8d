/**
 * The typed port sets of a block (ports.hpp). A `Ports<T>` owns the input
 * slots of one element type, each a pointer to some producer's output, and
 * a view onto that type's output arena where its own outputs live.
 *
 * Raw pointers are modelled as values: an address in an arena is the type's
 * hash and a byte offset into that type's arena, and the value cell that
 * freezing an input allocates is named by the frozen (block, input) key.
 */
module Ports {
  import opened Config

  datatype Addr = Addr(typeHash: TypeId, offset: nat)

  datatype Ptr = Null | At(addr: Addr) | Owned(block: nat, port: nat)

  /** Pointer arithmetic `p + bytes` on an arena address; a null base stays null. */
  function Advance(p: Ptr, bytes: nat): (q: Ptr)
    ensures p.At? <==> q.At?
    ensures p.At? ==> q.addr.typeHash == p.addr.typeHash && q.addr.offset - p.addr.offset == bytes
  {
    match p
    case At(a) => At(Addr(a.typeHash, a.offset + bytes))
    case _ => p
  }

  class PortSet {
    const typeHash: TypeId
    const typeSize: nat
    const inputCount: nat
    const outputCount: nat
    /** The `inputs` vector; it is sized once, by the constructor, and only its elements change. */
    const inputs: array<Ptr>
    var outputs: Ptr

    predicate Valid()
    {
      inputs.Length == inputCount
    }

    /** `Ports(in, out)`: `in` empty input slots and no outputs yet. */
    constructor(typeHash: TypeId, typeSize: nat, inputCount: nat, outputCount: nat)
      ensures Valid() && fresh(inputs)
      ensures this.typeHash == typeHash && this.typeSize == typeSize
      ensures this.inputCount == inputCount && this.outputCount == outputCount
      ensures inputs[..] == seq(inputCount, _ => Null) && outputs == Null
    {
      this.typeHash := typeHash;
      this.typeSize := typeSize;
      this.inputCount := inputCount;
      this.outputCount := outputCount;
      inputs := new Ptr[inputCount](_ => Null);
      outputs := Null;
    }

    /** `isOrigin`: a port set with no inputs, so a source of data. */
    function IsOrigin(): (r: bool)
      reads inputs
      requires Valid()
      ensures r <==> inputs[..] == []
    {
      inputCount == 0
    }

    /** `allocate(data)`: the outputs now start at `data`. */
    method Allocate(data: Ptr)
      modifies this`outputs
      ensures outputs == data
    {
      outputs := data;
    }

    /** `getOutputPort(index)`: the address of output `index`, `index` elements past the start. */
    function GetOutputPort(index: nat): (p: Ptr)
      reads this
    {
      Advance(outputs, index * typeSize)
    }

    /** `setInputPort(index, port)`: rewire one input slot. */
    method SetInputPort(index: nat, port: Ptr)
      requires Valid() && index < inputCount
      modifies inputs
      ensures inputs[..] == old(inputs[..])[index := port]
    {
      inputs[index] := port;
    }

    function GetInputPort(index: nat): Ptr
      reads inputs
      requires Valid() && index < inputCount
    {
      inputs[index]
    }

    /**
     * Once allocated at an arena address, output `i` is `i * size` bytes past
     * the start, the outputs of the set lie in the slice of `count * size`
     * bytes, and two different outputs have different addresses.
     */
    lemma OutputPorts(i: nat, j: nat)
      requires outputs.At? && typeSize > 0
      ensures GetOutputPort(i).At? && GetOutputPort(i).addr.typeHash == outputs.addr.typeHash
      ensures GetOutputPort(i).addr.offset == outputs.addr.offset + i * typeSize
      ensures i < outputCount ==> GetOutputPort(i).addr.offset + typeSize <= outputs.addr.offset + outputCount * typeSize
      ensures i != j ==> GetOutputPort(i) != GetOutputPort(j)
    {
      if i < outputCount {
        assert (i + 1) * typeSize <= outputCount * typeSize by {
          MulMonotone(i + 1, outputCount, typeSize);
        }
      }
      if i < j {
        MulMonotone(i + 1, j, typeSize);
      } else if j < i {
        MulMonotone(j + 1, i, typeSize);
      }
    }
  }

  lemma MulMonotone(a: nat, b: nat, k: nat)
    requires a <= b
    ensures a * k <= b * k
  {
  }
}
