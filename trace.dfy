/** Sequences of cache accesses: what a run of reads and writes does to the
    counter, the line flags and main memory, and the driver's own example. */
module Trace {
  import Memory
  import opened DirectMapped

  /** One access, as the driver issues it: `R address` or `W address value`. */
  datatype Command = R(address: nat) | W(address: nat, value: int)

  /** The cache together with the memory image behind it. */
  datatype System = System(cache: CacheState, memory: seq<int>)

  /** One access; a read's value is dropped, as the driver drops it. */
  function Step(s: System, cmd: Command): (t: System)
    requires Ready(s.cache)
    ensures Ready(t.cache) && t.cache.numLines == s.cache.numLines && t.cache.lineSize == s.cache.lineSize
    ensures |t.memory| == |s.memory|
  {
    match cmd
    case R(a) => System(DirectMapped.Read(s.cache, s.memory, a).next, s.memory)
    case W(a, v) => System(DirectMapped.Write(s.cache, a, v), Memory.Write(s.memory, a, v))
  }

  /** The accesses of `cmds`, in order. */
  function Run(s: System, cmds: seq<Command>): (t: System)
    requires Ready(s.cache)
    ensures Ready(t.cache) && t.cache.numLines == s.cache.numLines && t.cache.lineSize == s.cache.lineSize
    ensures |t.memory| == |s.memory|
    decreases |cmds|
  {
    if cmds == [] then s else Run(Step(s, cmds[0]), cmds[1..])
  }

  /** Main memory as if there were no cache: only the writes, applied in order.
      This folds the memory half of `Step` on its own, so what `RunMemory`
      adds is that neither the cache state nor the reads ever feed into memory. */
  function ApplyWrites(memory: seq<int>, cmds: seq<Command>): seq<int>
    decreases |cmds|
  {
    if cmds == [] then memory
    else
      var next := if cmds[0].W? then Memory.Write(memory, cmds[0].address, cmds[0].value) else memory;
      ApplyWrites(next, cmds[1..])
  }

  /** Some access of `cmds` maps to line `i` of `c`. */
  predicate Touches(cmds: seq<Command>, c: CacheState, i: nat)
    requires Ready(c)
  {
    exists k :: 0 <= k < |cmds| && LineIndex(c, cmds[k].address) == i
  }

  /** Some write of `cmds` maps to line `i` of `c`. */
  predicate WriteTouches(cmds: seq<Command>, c: CacheState, i: nat)
    requires Ready(c)
  {
    exists k :: 0 <= k < |cmds| && cmds[k].W? && LineIndex(c, cmds[k].address) == i
  }

  /** Every access, hit or miss, read or write, costs exactly one cycle. */
  lemma {:induction false} RunCycleCount(s: System, cmds: seq<Command>)
    requires Ready(s.cache)
    ensures Run(s, cmds).cache.cycleCount == s.cache.cycleCount + |cmds|
    decreases |cmds|
  {
    if cmds != [] {
      RunCycleCount(Step(s, cmds[0]), cmds[1..]);
    }
  }

  /** Write-through: memory after a run is memory with the run's writes
      applied, whatever the cache held; reads never change it. */
  lemma {:induction false} RunMemory(s: System, cmds: seq<Command>)
    requires Ready(s.cache)
    ensures Run(s, cmds).memory == ApplyWrites(s.memory, cmds)
    decreases |cmds|
  {
    if cmds != [] {
      RunMemory(Step(s, cmds[0]), cmds[1..]);
    }
  }

  /** Write-through on one access: right after `W a v`, a RAM read of an
      in-range `a` returns `v`. */
  lemma StepWriteThrough(s: System, address: nat, value: int)
    requires Ready(s.cache) && address < |s.memory|
    ensures Memory.Read(Step(s, W(address, value)).memory, address) == value
  {
    Memory.ReadAfterWrite(s.memory, address, value);
  }

  /** How one access changes the flags of line `i`: the target line becomes
      valid, and dirty when the access is a write; no other flag moves. */
  lemma StepFlags(s: System, cmd: Command, i: nat)
    requires Ready(s.cache) && i < s.cache.numLines
    ensures Step(s, cmd).cache.lines[i].valid <==>
              s.cache.lines[i].valid || LineIndex(s.cache, cmd.address) == i
    ensures Step(s, cmd).cache.lines[i].dirty <==>
              s.cache.lines[i].dirty || (cmd.W? && LineIndex(s.cache, cmd.address) == i)
  {
    match cmd
    case R(a) =>
      if s.cache.lines[LineIndex(s.cache, a)].valid {
        ReadHit(s.cache, s.memory, s.memory, a);
      } else {
        ReadMiss(s.cache, s.memory, a);
      }
    case W(a, v) =>
  }

  /** After a run, line `i` is valid exactly when it was valid before or some
      access of the run maps to it: lines only ever become valid. */
  lemma {:induction false} RunValid(s: System, cmds: seq<Command>, i: nat)
    requires Ready(s.cache) && i < s.cache.numLines
    ensures Run(s, cmds).cache.lines[i].valid <==>
              s.cache.lines[i].valid || Touches(cmds, s.cache, i)
    decreases |cmds|
  {
    if cmds != [] {
      var c, t := s.cache, Step(s, cmds[0]);
      StepFlags(s, cmds[0], i);
      RunValid(t, cmds[1..], i);
      if Touches(cmds[1..], t.cache, i) {
        var k :| 0 <= k < |cmds[1..]| && LineIndex(t.cache, cmds[1..][k].address) == i;
        assert LineIndex(c, cmds[k + 1].address) == i;
      }
      if Touches(cmds, c, i) {
        var k :| 0 <= k < |cmds| && LineIndex(c, cmds[k].address) == i;
        if k > 0 {
          assert LineIndex(t.cache, cmds[1..][k - 1].address) == i;
        }
      }
    }
  }

  /** After a run, line `i` is dirty exactly when it was dirty before or some
      write of the run maps to it: the dirty flag is never cleared. */
  lemma {:induction false} RunDirty(s: System, cmds: seq<Command>, i: nat)
    requires Ready(s.cache) && i < s.cache.numLines
    ensures Run(s, cmds).cache.lines[i].dirty <==>
              s.cache.lines[i].dirty || WriteTouches(cmds, s.cache, i)
    decreases |cmds|
  {
    if cmds != [] {
      var c, t := s.cache, Step(s, cmds[0]);
      StepFlags(s, cmds[0], i);
      RunDirty(t, cmds[1..], i);
      if WriteTouches(cmds[1..], t.cache, i) {
        var k :| 0 <= k < |cmds[1..]| && cmds[1..][k].W? && LineIndex(t.cache, cmds[1..][k].address) == i;
        assert cmds[k + 1].W? && LineIndex(c, cmds[k + 1].address) == i;
      }
      if WriteTouches(cmds, c, i) {
        var k :| 0 <= k < |cmds| && cmds[k].W? && LineIndex(c, cmds[k].address) == i;
        if k > 0 {
          assert cmds[1..][k - 1].W? && LineIndex(t.cache, cmds[1..][k - 1].address) == i;
        }
      }
    }
  }

  /** The driver's configuration (`RAM ram(32)`, `Cache myCache(16, 4)`) on
      `W 5 42; R 5; R 21`: both reads return 42, since 21 shares line 5 and
      slot 1 with address 5, and the counter ends at 3. */
  method ExampleSession() returns (r5: int, r21: int, cycles: int, stored: int)
    ensures r5 == 42 && r21 == 42 && cycles == 3 && stored == 42
  {
    var ram := new Memory.RAM(32);
    var cache := new Cache(16, 4);
    cache.WriteCache(5, 42, ram);
    r5 := cache.ReadCache(5, ram);
    r21 := cache.ReadCache(21, ram);
    cycles := cache.GetCycleCount();
    stored := ram.ReadRAM(5);
  }
}
