/** Main memory of the simulator: a fixed-size array of integer cells with
    bounds-checked reads and writes. */
module Memory {

  /** The value an out-of-range read returns instead of a cell. */
  const Sentinel: int := -1

  predicate InRange(memory: seq<int>, address: int) {
    0 <= address < |memory|
  }

  /** What a read of `address` returns on the memory image `memory`. */
  function Read(memory: seq<int>, address: int): (v: int)
    ensures InRange(memory, address) ==> v == memory[address]
    ensures !InRange(memory, address) ==> v == Sentinel
  {
    if 0 <= address < |memory| then memory[address] else Sentinel
  }

  /** The memory image after a write of `value` to `address`. */
  function Write(memory: seq<int>, address: int, value: int): (m: seq<int>)
    ensures |m| == |memory|
    ensures InRange(memory, address) ==> m[address] == value
    ensures forall b :: 0 <= b < |m| && b != address ==> m[b] == memory[b]
  {
    if 0 <= address < |memory| then memory[address := value] else memory
  }

  /** A rejected write leaves the whole image as it was. */
  lemma WriteOutOfRange(memory: seq<int>, address: int, value: int)
    requires !InRange(memory, address)
    ensures Write(memory, address, value) == memory
  {
  }

  /** Reading back an address just written yields the written value. */
  lemma ReadAfterWrite(memory: seq<int>, address: int, value: int)
    requires InRange(memory, address)
    ensures Read(Write(memory, address, value), address) == value
  {
  }

  /** A write is invisible to reads of every other address. */
  lemma ReadOtherAfterWrite(memory: seq<int>, address: int, value: int, other: int)
    requires other != address
    ensures Read(Write(memory, address, value), other) == Read(memory, other)
  {
  }

  class RAM {
    /** The cells; the array is never replaced, so the size is fixed. */
    const memory: array<int>

    /** A store of `size` cells, all zero. */
    constructor (size: nat)
      ensures fresh(memory)
      ensures memory.Length == size
      ensures forall i :: 0 <= i < size ==> memory[i] == 0
    {
      memory := new int[size](_ => 0);
    }

    /** Returns the cell at `address`, or the sentinel when it is out of range. */
    method ReadRAM(address: int) returns (v: int)
      ensures 0 <= address < memory.Length ==> v == memory[address]
      ensures !(0 <= address < memory.Length) ==> v == Sentinel
      ensures v == Read(memory[..], address)
    {
      if address < 0 || address >= memory.Length {
        return Sentinel;
      }
      return memory[address];
    }

    /** Sets the cell at `address`; an out-of-range address changes nothing. */
    method WriteRAM(address: int, value: int)
      modifies memory
      ensures memory[..] == Write(old(memory[..]), address, value)
      ensures 0 <= address < memory.Length ==> memory[address] == value
      ensures forall b :: 0 <= b < memory.Length && b != address ==> memory[b] == old(memory[b])
    {
      if address < 0 || address >= memory.Length {
        return;
      }
      memory[address] := value;
    }
  }
}
