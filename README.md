# Two-level memory simulator: verified model

This project models the core of a small teaching simulator written in C++. The simulator has two components:

- **RAM**: a fixed-size array of integer cells, all zero at first. Reads and writes check their bounds. An out-of-range read returns the sentinel `-1`. An out-of-range write does nothing.
- **Cache**: a direct-mapped, write-through cache of `numLines` lines. Each line has a `valid` flag, a `dirty` flag and `lineSize` integer slots. The cache also keeps a cycle counter.

Address `a` lives in line `a % numLines`, slot `a % lineSize`. A cache line stores no tag. So a read is a hit whenever its line is valid, and any two addresses with the same line and slot alias each other. The model keeps this behaviour on purpose. A miss fetches the value from RAM, stores it in the slot and marks the line valid. It does not touch `dirty`. A write sets `valid`, `dirty` and the slot, then writes through to RAM. Every read and every write adds exactly one to the counter.

The model has three modules.

- `Memory` (memory.dfy) has the specification functions `Read` and `Write` on a memory image (`seq<int>`). It also has class `RAM`, which holds a `const` `array<int>`. Nothing can replace that array, so the RAM size never changes.
- `DirectMapped` (cache.dfy) has the value model. `Line` is the cache line. `CacheState` is the whole cache. `Init`, `Read` and `Write` are the cache operations as functions. The module also has class `Cache`, which holds an `array<Line>` and the counter. Its methods are proved equal to those functions. The source keeps its lines by value in a `std::vector<CacheLine>`. The model does the same: it replaces one array element with an updated `Line`, and no two lines can alias.
- `Trace` (trace.dfy) covers runs of accesses. It states the counter, flag and memory properties over whole command sequences. It also replays the driver's example session on the two classes.

## Model

| member | source | states |
|---|---|---|
| `Memory.Read` | cache.cpp:15-23 | an in-range read gives the cell; any other address, negative ones included, gives the sentinel -1 |
| `Memory.Write` | cache.cpp:25-33 | the size is unchanged; an in-range address gets the value; every other cell keeps its value |
| `Memory.WriteOutOfRange` | cache.cpp:25-29 | a write to an address outside `[0, size)` leaves the whole memory unchanged |
| `Memory.ReadAfterWrite` | cache.cpp:15-33 | after an in-range write of `v` to `a`, a read of `a` returns `v` |
| `Memory.ReadOtherAfterWrite` | cache.cpp:25-33 | a write to `a` is invisible to a read of any other address |
| `Memory.RAM.constructor` | cache.cpp:13 | a new RAM has exactly `size` cells, all zero |
| `Memory.RAM.ReadRAM` | cache.cpp:15-23 | returns the cell when in range and -1 otherwise; changes nothing |
| `Memory.RAM.WriteRAM` | cache.cpp:25-33 | only cell `a` changes, and only when in range; the array, and so the size, stays the same |
| `DirectMapped.LineIndex` | cache.cpp:76 | `a % numLines` always names an existing line |
| `DirectMapped.SlotIndex` | cache.cpp:81 | `a % lineSize` always names an existing slot of every line |
| `DirectMapped.Init` | cache.cpp:64-72 | `numLines` lines, each invalid, clean, with `lineSize` zero slots; counter 0 |
| `DirectMapped.Read` | cache.cpp:75-93 | keeps the cache well formed with the same geometry; adds exactly one to the counter |
| `DirectMapped.Write` | cache.cpp:96-104 | the target line becomes valid and dirty with the slot set to the value; every other line is unchanged; counter plus one |
| `DirectMapped.ReadHit` | cache.cpp:79-81 | on a valid line: returns the stored slot, changes no line, and gives the same result for any memory contents |
| `DirectMapped.ReadMiss` | cache.cpp:82-88 | on an invalid line: returns RAM's value, or -1 beyond RAM; stores it in the slot; sets valid; keeps dirty; no other line changes |
| `DirectMapped.Aliasing` | cache.cpp:76-99 | if `a1` and `a2` share line and slot, a read of `a2` after a write of `v` to `a1` returns `v` and changes no line |
| `DirectMapped.ReadAfterWrite` | cache.cpp:96-104 | after `writeCache(a, v)`, `readCache(a)` returns `v`, whatever RAM holds |
| `DirectMapped.Cache.constructor` | cache.cpp:64-72 | the constructor loop leaves the cache equal to `Init(numLines, lineSize)` |
| `DirectMapped.Cache.ReadCache` | cache.cpp:75-93 | returns the value of `Read` on the old state; the new state equals `Read`'s; RAM is not modified |
| `DirectMapped.Cache.WriteCache` | cache.cpp:96-104 | the new cache state equals `Write` of the old one; RAM equals `Memory.Write` of the old RAM |
| `DirectMapped.Cache.IncrementCycleCount` | cache.cpp:142-144 | the counter rises by one; nothing else changes |
| `DirectMapped.Cache.ResetCycleCount` | cache.cpp:146-148 | the counter becomes 0; nothing else changes |
| `DirectMapped.Cache.GetCycleCount` | cache.cpp:150-152 | returns the counter and changes nothing |
| `Trace.Step` | cache.cpp:165-172 | one `R` or `W` access keeps the cache well formed with the same geometry, and keeps the RAM size |
| `Trace.Run` | cache.cpp:161-172 | a sequence of accesses keeps the cache well formed and keeps the RAM size |
| `Trace.RunCycleCount` | cache.cpp:79-103 | after any N accesses the counter has risen by exactly N, whatever mix of hits, misses, writes and out-of-range addresses |
| `Trace.RunMemory` | cache.cpp:96-104 | write-through: RAM after a run equals `ApplyWrites`, the run's writes alone applied in order through `Memory.Write`. `ApplyWrites` folds `Step`'s memory half on its own, so the lemma's content is that neither the cache state nor the reads ever feed into RAM. With `Memory.ReadAfterWrite` (and `Trace.StepWriteThrough` for one step), a RAM read of an in-range `a` right after `W a v` returns `v` |
| `Trace.StepWriteThrough` | cache.cpp:96-104 | right after `writeCache(a, v)` with `a` in range, `readRAM(a)` returns `v` |
| `Trace.StepFlags` | cache.cpp:79-100 | one access makes the target line valid, and dirty if it is a write; no other flag changes |
| `Trace.RunValid` | cache.cpp:64-100 | after a run, a line is valid if and only if it was valid before or some access mapped to it; valid never reverts to false |
| `Trace.RunDirty` | cache.cpp:64-100 | after a run, a line is dirty if and only if it was dirty before or some write mapped to it; dirty is never cleared |
| `Trace.ExampleSession` | cache.cpp:155-172 | with `RAM(32)` and `Cache(16, 4)`, the session `W 5 42; R 5; R 21` gives 42 for `R 5`, 42 for the aliasing `R 21`, RAM cell 5 = 42 and a counter of 3 |

The written specification of the system says two things that the code does not do. First, it says a negative address should be rejected with an `InvalidAddress` error. Second, it says a failed access should change nothing. The model follows the code instead. Cache addresses are `nat`. "## Left out" describes the few negative addresses the code also handles without error. A write to an address beyond RAM still updates the cache line and the counter; only the RAM write is dropped (shown in `Memory.WriteOutOfRange` and `DirectMapped.Write`). A read miss beyond RAM caches `-1` (shown in `DirectMapped.ReadMiss`).

## Left out

- Console output: the messages `readRAM`, `writeRAM` and `readCache` print to `std::cout`/`std::cerr` are logging only. The model keeps the state changes and the return values.
- `displayRAM`, `displayCache`, `displayCacheWithDelay`: these only format output. The last one also sleeps between lines.
- `driver` and `main`: they parse the command file with `ifstream`/`istringstream`, wait on stdin for `WAIT`, report bad commands, and time the run in floating point. `Trace.Run` models only the `R`/`W` dispatch, and it drops the read values just as the driver does.
- Negative cache addresses: `ReadCache` and `WriteCache` take a `nat` address, so no negative address is modelled. In C++, `%` truncates toward zero. Most negative addresses therefore give a negative line or slot index, and the vector access is out of bounds, which is undefined behaviour. A negative address that both `numLines` and `lineSize` divide is well defined, though. It maps to line 0, slot 0: for example `-16` on `Cache(16, 4)`. On such an address a read miss caches RAM's `-1`. A write sets line 0 valid and dirty with the value in slot 0, RAM rejects the address, and the counter still rises. The driver can issue these calls (`R -16`, `W -16 7`), but the model does not cover them. For `nat` addresses, Dafny's `%` agrees with C++'s.
- Zero geometry: `ReadCache` and `WriteCache` require `numLines > 0` and `lineSize > 0`, because `% 0` is undefined in C++. The constructor accepts any `nat`, just as the C++ constructor does.
- Negative sizes: the `RAM` and `Cache` constructors take `nat`. In the source, a negative RAM size or a negative `numLines` makes `std::vector` throw. So does a negative `lineSize` when `numLines > 0`. These paths are not modelled. The one exception is a `Cache` with zero lines and a negative `lineSize`, because the loop at cache.cpp:66-70 never runs. Such a cache is built, but it cannot be accessed (`% 0`), and the model does not cover it either.
- `DirectMapped.Cache.IncrementCycleCount`: does not model `int` overflow of `cycleCount`. The counter is an unbounded `int`.
