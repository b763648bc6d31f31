/** A direct-mapped, write-through cache in front of `Memory.RAM`.  An address
    lives in line `address % numLines`, slot `address % lineSize`; a line
    carries no tag, so a read is a hit whenever its line is valid. */
module DirectMapped {
  import Memory

  /** One cache line: validity, dirtiness and `lineSize` integer slots. */
  datatype Line = Line(valid: bool, dirty: bool, data: seq<int>)

  /** The whole cache as a value: its geometry, its lines and the cycle counter. */
  datatype CacheState = CacheState(numLines: nat, lineSize: nat, lines: seq<Line>, cycleCount: int)

  /** Every line is there and holds exactly `lineSize` slots. */
  predicate WellFormed(c: CacheState) {
    |c.lines| == c.numLines &&
    forall i :: 0 <= i < |c.lines| ==> |c.lines[i].data| == c.lineSize
  }

  /** The address arithmetic is defined (neither modulus is zero). */
  predicate Addressable(c: CacheState) {
    c.numLines > 0 && c.lineSize > 0
  }

  predicate Ready(c: CacheState) {
    WellFormed(c) && Addressable(c)
  }

  function LineIndex(c: CacheState, address: nat): (i: nat)
    requires Ready(c)
    ensures i < |c.lines|
  {
    address % c.numLines
  }

  function SlotIndex(c: CacheState, address: nat): (j: nat)
    requires Ready(c)
    ensures j < c.lineSize
  {
    address % c.lineSize
  }

  /** A line as the constructor leaves it: invalid, clean, zero-filled. */
  function EmptyLine(lineSize: nat): Line {
    Line(false, false, seq(lineSize, _ => 0))
  }

  /** The freshly constructed cache. */
  function Init(numLines: nat, lineSize: nat): (c: CacheState)
    ensures WellFormed(c) && c.numLines == numLines && c.lineSize == lineSize
    ensures c.cycleCount == 0
    ensures forall i :: 0 <= i < numLines ==>
              !c.lines[i].valid && !c.lines[i].dirty && |c.lines[i].data| == lineSize &&
              forall j :: 0 <= j < lineSize ==> c.lines[i].data[j] == 0
  {
    CacheState(numLines, lineSize, seq(numLines, _ => EmptyLine(lineSize)), 0)
  }

  datatype ReadResult = ReadResult(value: int, next: CacheState)

  /** readCache: a hit when the target line is valid, otherwise a fill from memory. */
  function Read(c: CacheState, memory: seq<int>, address: nat): (r: ReadResult)
    requires Ready(c)
    ensures Ready(r.next) && r.next.numLines == c.numLines && r.next.lineSize == c.lineSize
    ensures r.next.cycleCount == c.cycleCount + 1
  {
    var li := LineIndex(c, address);
    var slot := SlotIndex(c, address);
    var line := c.lines[li];
    if line.valid then
      ReadResult(line.data[slot], c.(cycleCount := c.cycleCount + 1))
    else
      var fetched := Memory.Read(memory, address);
      ReadResult(fetched, c.(lines := c.lines[li := line.(valid := true, data := line.data[slot := fetched])],
                             cycleCount := c.cycleCount + 1))
  }

  /** The cache side of writeCache (the memory side is `Memory.Write`). */
  function Write(c: CacheState, address: nat, value: int): (n: CacheState)
    requires Ready(c)
    ensures Ready(n) && n.numLines == c.numLines && n.lineSize == c.lineSize
    ensures n.cycleCount == c.cycleCount + 1
    ensures var li := LineIndex(c, address);
            n.lines[li] == Line(true, true, c.lines[li].data[SlotIndex(c, address) := value])
    ensures forall i :: 0 <= i < |n.lines| && i != LineIndex(c, address) ==> n.lines[i] == c.lines[i]
  {
    var li := LineIndex(c, address);
    var line := c.lines[li];
    c.(lines := c.lines[li := line.(valid := true, data := line.data[SlotIndex(c, address) := value], dirty := true)],
       cycleCount := c.cycleCount + 1)
  }

  /** A hit returns the slot's content, leaves every line as it was and does
      not depend on memory at all. */
  lemma ReadHit(c: CacheState, memory: seq<int>, other: seq<int>, address: nat)
    requires Ready(c) && c.lines[LineIndex(c, address)].valid
    ensures Read(c, memory, address).value == c.lines[LineIndex(c, address)].data[SlotIndex(c, address)]
    ensures Read(c, memory, address).next.lines == c.lines
    ensures Read(c, other, address) == Read(c, memory, address)
  {
  }

  /** A miss returns what memory returns (the sentinel beyond its end), stores
      it in the slot, makes the line valid, keeps its dirty flag and touches no
      other line or slot. */
  lemma ReadMiss(c: CacheState, memory: seq<int>, address: nat)
    requires Ready(c) && !c.lines[LineIndex(c, address)].valid
    ensures var r := Read(c, memory, address);
            var li := LineIndex(c, address);
            && r.value == (if address < |memory| then memory[address] else Memory.Sentinel)
            && r.next.lines[li].valid
            && r.next.lines[li].dirty == c.lines[li].dirty
            && r.next.lines[li].data == c.lines[li].data[SlotIndex(c, address) := r.value]
            && forall i :: 0 <= i < |c.lines| && i != li ==> r.next.lines[i] == c.lines[i]
  {
  }

  /** Two addresses sharing line and slot alias: a write to one is what a read
      of the other returns, whatever memory holds. */
  lemma Aliasing(c: CacheState, memory: seq<int>, a1: nat, a2: nat, value: int)
    requires Ready(c)
    requires LineIndex(c, a1) == LineIndex(c, a2) && SlotIndex(c, a1) == SlotIndex(c, a2)
    ensures Read(Write(c, a1, value), memory, a2).value == value
    ensures Read(Write(c, a1, value), memory, a2).next.lines == Write(c, a1, value).lines
  {
  }

  /** Read after write: the value written comes back, from the cache. */
  lemma ReadAfterWrite(c: CacheState, memory: seq<int>, address: nat, value: int)
    requires Ready(c)
    ensures Read(Write(c, address, value), memory, address).value == value
  {
    Aliasing(c, memory, address, address, value);
  }

  class Cache {
    const numLines: nat
    const lineSize: nat
    const lines: array<Line>
    var cycleCount: int

    /** The cache's abstract value. */
    ghost function State(): CacheState
      reads this, lines
    {
      CacheState(numLines, lineSize, lines[..], cycleCount)
    }

    ghost predicate Valid()
      reads this, lines
    {
      WellFormed(State())
    }

    /** `numLines` invalid, clean, zero-filled lines of `lineSize` slots; counter 0. */
    constructor (numLines: nat, lineSize: nat)
      ensures Valid() && fresh(lines)
      ensures this.numLines == numLines && this.lineSize == lineSize
      ensures State() == Init(numLines, lineSize)
    {
      this.numLines := numLines;
      this.lineSize := lineSize;
      cycleCount := 0;
      lines := new Line[numLines];
      new;
      var i := 0;
      while i < numLines
        modifies lines
        invariant 0 <= i <= numLines
        invariant forall k :: 0 <= k < i ==> lines[k] == EmptyLine(lineSize)
      {
        lines[i] := EmptyLine(lineSize);
        i := i + 1;
      }
      assert lines[..] == seq(numLines, _ => EmptyLine(lineSize));
    }

    /** readCache: returns the slot on a hit, fills the slot from `ram` on a miss;
        `ram` is never changed. */
    method ReadCache(address: nat, ram: Memory.RAM) returns (val: int)
      requires Valid() && numLines > 0 && lineSize > 0
      modifies this`cycleCount, lines
      ensures Valid()
      ensures val == Read(old(State()), ram.memory[..], address).value
      ensures State() == Read(old(State()), ram.memory[..], address).next
    {
      var lineIndex := address % numLines;
      var slot := address % lineSize;
      if lines[lineIndex].valid {
        IncrementCycleCount();
        val := lines[lineIndex].data[slot];
      } else {
        IncrementCycleCount();
        var dataFromRam := ram.ReadRAM(address);
        var line := lines[lineIndex];
        lines[lineIndex] := line.(valid := true, data := line.data[slot := dataFromRam]);
        val := dataFromRam;
      }
    }

    /** writeCache: updates the target line (valid, dirty, slot) and writes
        through to `ram`, which may reject the address on its own. */
    method WriteCache(address: nat, value: int, ram: Memory.RAM)
      requires Valid() && numLines > 0 && lineSize > 0
      modifies this`cycleCount, lines, ram.memory
      ensures Valid()
      ensures State() == Write(old(State()), address, value)
      ensures ram.memory[..] == Memory.Write(old(ram.memory[..]), address, value)
    {
      var lineIndex := address % numLines;
      var line := lines[lineIndex];
      lines[lineIndex] := line.(valid := true, data := line.data[address % lineSize := value], dirty := true);
      ram.WriteRAM(address, value);
      IncrementCycleCount();
    }

    method IncrementCycleCount()
      modifies this`cycleCount
      ensures cycleCount == old(cycleCount) + 1
    {
      cycleCount := cycleCount + 1;
    }

    method ResetCycleCount()
      modifies this`cycleCount
      ensures cycleCount == 0
    {
      cycleCount := 0;
    }

    /** The counter, with nothing changed. */
    method GetCycleCount() returns (count: int)
      ensures count == cycleCount
    {
      return cycleCount;
    }
  }
}
