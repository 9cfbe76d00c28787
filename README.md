# A verified model of five C++ cores of cpp_in_depth

This project models, in Dafny, the sequential behaviour of five pieces of the C++ repository
and proves what each of them promises.

- **The strategy engine** (`multithreading/trading_strategy_engine/complete_strategy_engine.cpp`)
  has three parts:
  - its lock-free single-producer/single-consumer ring buffer, the class `RingBuffers.SpscRingBuffer`, holding an array and two masked cursors;
  - the instrument-to-strategies registry and the last-write-wins market-data store, which are classes over Dafny `map`s;
  - the strategy workers and the round-robin pool (`StrategyPool`), the dispatcher loop (`Dispatching`), and the 32-bit seed update of the mock price feed (`Ingestion`).

  Every thread loop becomes one sequential pass. The pool is also specified as a value, `PoolState`: a counter plus the contents of every worker queue. On that value the model proves round-robin fairness: k·n dispatches give every one of the n workers exactly k actions.
- **The dynamic array** `My::Vector` (`vector_impl/vector.h`) becomes `Vectors.Vector`, a class over an allocated array and a size. The array's length is the capacity.
- **The CSV rolling-mean processor** (`csv_rolling_mean/main.cpp`) has two parts:
  - the comma split/join pair (`CsvLines`), as functions with the two loop methods proved equal to them and both round trips proved;
  - `RollingMean`, a class over exact reals with a ghost history of every value pushed.
- **The draft queue** (`multithreading/spsc_queue.h`) has its power-of-two test and its unmasked cursors modelled as written (`SpscDraft`).
- **`MyClass`** (`oop/major_operator_overloading_syntax.cpp`) has its operators modelled over a 32-bit `int` newtype (`Operators`). Overflow is undefined, so the operators require it away, and `/` and `%` truncate toward zero as in C++.

Shared modules:
- `Bits`: powers of two, bitwise AND on naturals, and the fact that masking is reduction modulo a power of two.
- `CppInt`: the `int` range, the width of `std::size_t`, and truncating division.
- `Wrappers`: an `Option`.

In a capacity-4 channel the code accepts only three items, because `push` refuses when the advanced head would meet the tail. `RingBuffers.CapacityFourScenario` states exactly that.

## Model

| member | source | states |
|---|---|---|
| Bits.MaskIsMod | multithreading/trading_strategy_engine/complete_strategy_engine.cpp:55 | for every x ≥ 0, ANDing with 2^k − 1 is reduction modulo 2^k, which is why the cursor mask wraps |
| Bits.PowerOfTwoBitTest | multithreading/spsc_queue.h:8-11 | for n > 0, `(n & (n - 1)) == 0` holds exactly when n is 2^k for some k |
| CppInt.Quot | oop/major_operator_overloading_syntax.cpp:13 | C++ `/` rounds toward zero: abs(q·b) ≤ abs(a) < abs(q·b) + abs(b), and q is negative exactly when the signs differ and abs(a) ≥ abs(b) |
| CppInt.Rem | oop/major_operator_overloading_syntax.cpp:14 | C++ `%`: (a / b)·b + a % b == a, abs(a % b) < abs(b), and the remainder takes the sign of a |
| RingBuffers.CapacityAssertAdmitsZero | multithreading/trading_strategy_engine/complete_strategy_engine.cpp:49-50 | the `static_assert`, evaluated in wrapping `std::size_t` arithmetic, accepts capacity 0, which is no power of two |
| RingBuffers.ValidCapacity | multithreading/trading_strategy_engine/complete_strategy_engine.cpp:49-50 | the capacity test with the missing `C > 0` guard holds exactly for powers of two |
| RingBuffers.MaskedIncrement | multithreading/trading_strategy_engine/complete_strategy_engine.cpp:55 | `(i + 1) & (C − 1)` is `(i + 1) mod C`: i + 1, or 0 at the end of the array |
| RingBuffers.SpscRingBuffer.AtMostCapacityMinusOne | multithreading/trading_strategy_engine/complete_strategy_engine.cpp:54-57 | the buffer never holds more than Capacity − 1 items |
| RingBuffers.SpscRingBuffer.constructor | multithreading/trading_strategy_engine/complete_strategy_engine.cpp:73-77 | a power-of-two capacity, both cursors at 0, no items |
| RingBuffers.SpscRingBuffer.Push | multithreading/trading_strategy_engine/complete_strategy_engine.cpp:52-61 | succeeds exactly when fewer than Capacity − 1 items are held. On success, v is written at the old head, head advances modulo Capacity and v is appended to the contents; on failure nothing changes. The tail is never touched |
| RingBuffers.SpscRingBuffer.Pop | multithreading/trading_strategy_engine/complete_strategy_engine.cpp:63-71 | fails exactly when empty and then leaves `out`, the cursors and the contents alone. Otherwise it returns `buffer[tail]`, the oldest item, advances tail modulo Capacity and drops the front of the contents |
| RingBuffers.CapacityFourScenario | multithreading/trading_strategy_engine/complete_strategy_engine.cpp:52-71 | capacity 4: A, B, C are accepted and D is dropped; four pops give A, B, C, then empty |
| SharedMaps.InstrumentStrategyRegistry.Add | multithreading/trading_strategy_engine/complete_strategy_engine.cpp:103-107 | appends sid to the instrument's list, creating it when absent and keeping duplicates; every other instrument's lookup is unchanged |
| SharedMaps.InstrumentStrategyRegistry.Lookup | multithreading/trading_strategy_engine/complete_strategy_engine.cpp:109-114 | the list stored for the instrument, or the empty list when it has none; `Add` states what that list becomes |
| SharedMaps.MarketDataStore.Update | multithreading/trading_strategy_engine/complete_strategy_engine.cpp:126-130 | overwrites the instrument's entry, so `Latest` returns the value just written; every other instrument is unchanged |
| SharedMaps.MarketDataStore.Latest | multithreading/trading_strategy_engine/complete_strategy_engine.cpp:132-137 | a value exactly when the instrument has an entry, and then that entry; `Update` states what it becomes |
| SharedMaps.RoutingScenario | multithreading/trading_strategy_engine/complete_strategy_engine.cpp:103-137 | lookup of IBM after adding S0 then S1 is [S0, S1]; an unknown instrument has no routes; the last of two updates wins and a never-updated instrument has no snapshot |
| StrategyPool.DecimalString | multithreading/trading_strategy_engine/complete_strategy_engine.cpp:220 | `std::to_string` of a natural: a non-empty string of decimal digits |
| StrategyPool.StrategyWorker.constructor | multithreading/trading_strategy_engine/complete_strategy_engine.cpp:173-176 | a worker owns a fresh, empty 4096-slot queue and no strategy yet |
| StrategyPool.StrategyWorker.AttachStrategy | multithreading/trading_strategy_engine/complete_strategy_engine.cpp:186-189 | the strategy becomes the one given |
| StrategyPool.StrategyWorker.Enqueue | multithreading/trading_strategy_engine/complete_strategy_engine.cpp:184 | forwards to the queue's push: accepted exactly when the queue has room, then appended |
| StrategyPool.StrategyWorker.Drain | multithreading/trading_strategy_engine/complete_strategy_engine.cpp:192-202 | one pass of the worker loop empties the queue. When a strategy is attached it receives every queued data point in arrival order; otherwise none |
| StrategyPool.NewWorkers | multithreading/trading_strategy_engine/complete_strategy_engine.cpp:213-222 | n distinct fresh workers with distinct empty queues, worker i running strategy "S" + i |
| StrategyPool.ThreadPoolOfStrategies.constructor | multithreading/trading_strategy_engine/complete_strategy_engine.cpp:213-222 | n workers, worker i running "S" + i, all queues empty, counter 0 |
| StrategyPool.ThreadPoolOfStrategies.Dispatch | multithreading/trading_strategy_engine/complete_strategy_engine.cpp:224-229 | the pool moves to `PoolDispatch(old state, a)`: worker `next % n` enqueues a unless full, the counter moves on by one modulo 2^64, and the result is that worker's enqueue result |
| StrategyPool.ThreadPoolOfStrategies.RunWorker | multithreading/trading_strategy_engine/complete_strategy_engine.cpp:192-202 | draining worker i empties its queue, delivers its data points in order and leaves every other queue and the counter alone |
| StrategyPool.DispatchAllShares | multithreading/trading_strategy_engine/complete_strategy_engine.cpp:224-229 | when each queue has room for its own share of the run (so nothing is dropped) and the counter does not wrap, m dispatches advance the counter by m and grow each worker's queue by the number of counter values in the run that select it |
| StrategyPool.WindowHitsEachOnce | multithreading/trading_strategy_engine/complete_strategy_engine.cpp:227 | any n consecutive counter values select each of the n workers exactly once |
| StrategyPool.RoundsHitEach | multithreading/trading_strategy_engine/complete_strategy_engine.cpp:227 | k·n consecutive counter values select each worker exactly k times |
| StrategyPool.RoundRobinFairness | multithreading/trading_strategy_engine/complete_strategy_engine.cpp:224-229 | k·n dispatches through an n-worker pool, with room for k more actions in every queue and no wrap-around, deliver exactly k actions to every worker |
| StrategyPool.NineDispatchesScenario | multithreading/trading_strategy_engine/complete_strategy_engine.cpp:224-229 | three workers and nine dispatches from empty: each queue holds three actions |
| Dispatching.LastWriteWins | multithreading/trading_strategy_engine/complete_strategy_engine.cpp:263-265 | after a drain, the store holds for an instrument the data of the last action about it |
| Dispatching.UntouchedInstrument | multithreading/trading_strategy_engine/complete_strategy_engine.cpp:263-265 | an instrument no drained action mentions keeps its snapshot, or stays without one |
| Dispatching.FanoutTotal | multithreading/trading_strategy_engine/complete_strategy_engine.cpp:267-271 | the number of dispatch calls a drained run causes is the sum, over its actions, of the number of strategies routed to each action's instrument |
| Dispatching.FanoutLength | multithreading/trading_strategy_engine/complete_strategy_engine.cpp:267-271 | m actions for one instrument cause m times its number of routes dispatch calls |
| Dispatching.TwoDispatchesFromEmpty | multithreading/trading_strategy_engine/complete_strategy_engine.cpp:267-271 | an action with two routes, fanned out into an empty three-worker pool, lands on workers 0 and 1 and moves the counter to 2 |
| Dispatching.Dispatcher.constructor | multithreading/trading_strategy_engine/complete_strategy_engine.cpp:240-247 | the dispatcher keeps the given registry, store and pool and owns a fresh, empty 65536-slot queue |
| Dispatching.Dispatcher.Accept | multithreading/trading_strategy_engine/complete_strategy_engine.cpp:255 | forwards to the inbound queue's push: accepted exactly when there is room, then appended |
| Dispatching.Dispatcher.DispatchToSubscribers | multithreading/trading_strategy_engine/complete_strategy_engine.cpp:267-271 | the pool state after one `dispatch(a)` per strategy that `lookup` returns |
| Dispatching.Dispatcher.Step | multithreading/trading_strategy_engine/complete_strategy_engine.cpp:263-271 | one iteration of the loop. On an empty queue nothing changes. Otherwise the oldest action is popped, the store is updated with it, and it is dispatched once per route of its instrument |
| Dispatching.Dispatcher.DrainOnce | multithreading/trading_strategy_engine/complete_strategy_engine.cpp:258-275 | one pass empties the inbound queue. The store becomes the old store updated by every queued action in order, and the pool state becomes the old one after dispatching the fan-out of those actions in order |
| Dispatching.NewEngine | multithreading/trading_strategy_engine/complete_strategy_engine.cpp:337-344 | the wiring of `main`: routes IBM → [S0, S1] and MSFT → [S2], an empty store, three empty workers at counter 0, and an empty dispatcher queue |
| Dispatching.IbmScenario | multithreading/trading_strategy_engine/complete_strategy_engine.cpp:255-271 | one IBM point accepted and drained becomes IBM's snapshot and reaches workers 0 and 1; MSFT has no snapshot |
| Ingestion.NextSeed | multithreading/trading_strategy_engine/complete_strategy_engine.cpp:323 | the update `s * 1664525u + 1013904223u` reduced modulo 2^32, stated by its body alone; `PrevSeed`, `PrevNext` and `NextSeedInjective` prove it a bijection |
| Ingestion.PrevSeed | multithreading/trading_strategy_engine/complete_strategy_engine.cpp:323 | every 32-bit seed has a predecessor under `s * 1664525u + 1013904223u` |
| Ingestion.PrevNext | multithreading/trading_strategy_engine/complete_strategy_engine.cpp:323 | undoing the update after applying it gives the seed back |
| Ingestion.NextSeedInjective | multithreading/trading_strategy_engine/complete_strategy_engine.cpp:323 | two seeds have the same successor exactly when they are equal, so the update is a bijection on 32-bit values |
| Ingestion.PriceOf | multithreading/trading_strategy_engine/complete_strategy_engine.cpp:324 | the price lies between 100.0 and 199.9 |
| Ingestion.PriceFeed.constructor | multithreading/trading_strategy_engine/complete_strategy_engine.cpp:322 | the seed starts at 1234567 |
| Ingestion.PriceFeed.RandomPrice | multithreading/trading_strategy_engine/complete_strategy_engine.cpp:320-325 | the seed advances by one update, wrapping modulo 2^32, and the price is 100 + (seed mod 1000)/10 of the new seed, within [100, 199.9] |
| Ingestion.FirstPricesScenario | multithreading/trading_strategy_engine/complete_strategy_engine.cpp:322-324 | the first two prices are 141.0 and 141.7, and the seed is then 660622417 |
| SpscDraft.IsPowerOf2 | multithreading/spsc_queue.h:4-12 | false for every n ≤ 0; true exactly when n is a power of two |
| SpscDraft.SpscQueue.constructor | multithreading/spsc_queue.h:14-19 | only a size passing `is_power_of_2` is admitted; both cursors start at 0 and the queue is empty |
| SpscDraft.SpscQueue.Push | multithreading/spsc_queue.h:21-30 | refuses exactly when `head == tail + 1`, which is when exactly one item is held, and then changes nothing. Otherwise it writes `ring_buffer_[head]` unmasked, increments head and appends the item; the tail is untouched |
| SpscDraft.SpscQueue.Pop | multithreading/spsc_queue.h:32-39 | on a non-empty queue it returns `ring_buffer_[tail]`, the oldest item, and increments tail, unmasked |
| SpscDraft.SpscQueue.Top | multithreading/spsc_queue.h:41-48 | on a non-empty queue, the oldest item, with both cursors left alone |
| SpscDraft.SecondPushRefused | multithreading/spsc_queue.h:23 | a four-slot queue holding one item refuses a second one |
| SpscDraft.CursorRunsOffTheEnd | multithreading/spsc_queue.h:21-39 | in a one-slot queue, after one push and one pop, head equals the size while the guard admits another push |
| Vectors.GrownCapacity | vector_impl/vector.h:212-213 | the grown capacity is 1 from 0 and twice the old capacity otherwise |
| Vectors.GrowthKeepsPowerOfTwo | vector_impl/vector.h:212-213 | growth from 0 or from a power of two gives a power of two |
| Vectors.Vector.Empty | vector_impl/vector.h:13-15 | no elements and capacity 0 |
| Vectors.Vector.Fill | vector_impl/vector.h:28-41 | n copies of the value, with size and capacity n |
| Vectors.Vector.Copy | vector_impl/vector.h:43-57 | a fresh allocation with the other's capacity and elements |
| Vectors.Vector.Move | vector_impl/vector.h:59-68 | takes over the other's allocation, elements and capacity; the other is left with no elements and capacity 0 |
| Vectors.Vector.MoveAssign | vector_impl/vector.h:70-88 | self-assignment changes nothing. Otherwise this vector takes the other's allocation and elements, and the other is left empty with capacity 0 |
| Vectors.Vector.CopyAssign | vector_impl/vector.h:90-94 | copy-and-swap: this vector ends with a fresh allocation holding the other's elements and capacity |
| Vectors.Vector.Swap | vector_impl/vector.h:202-207 | the two vectors exchange allocations and sizes |
| Vectors.Vector.Capacity | vector_impl/vector.h:192-195 | the length of the allocation, which `Size` never exceeds and which `PushBack` doubles only when full |
| Vectors.Vector.Get | vector_impl/vector.h:96-104 | unchecked `operator[]`: index i in range gives element i |
| Vectors.Vector.At | vector_impl/vector.h:126-138 | out of range (here `None`) exactly when the index is negative or at least the size; otherwise element i |
| Vectors.Vector.Back | vector_impl/vector.h:116-124 | the last element of a non-empty vector |
| Vectors.Vector.Size | vector_impl/vector.h:182-185 | the number of elements, never more than the capacity |
| Vectors.Vector.IsEmpty | vector_impl/vector.h:197-200 | true exactly when there are no elements |
| Vectors.Vector.Reallocate | vector_impl/vector.h:210-231 | a fresh allocation of the grown capacity holding the same elements |
| Vectors.Vector.PushBack | vector_impl/vector.h:106-114 | appends the item, keeping the earlier elements. It reallocates exactly when size equals capacity, and otherwise keeps the same allocation and capacity |
| Vectors.Vector.Insert | vector_impl/vector.h:160-180 | e lands at offset pos with the earlier elements before it and the later ones shifted after it; growth and allocation are as in push_back; the result is pos |
| Vectors.Vector.ShiftRight | vector_impl/vector.h:171-174 | slots pos .. size − 1 move one slot right and the slots before pos are untouched |
| Vectors.PushBackKeepsPowerOfTwoCapacity | vector_impl/vector.h:106-114 | starting from capacity 0 or a power of two, push_back leaves a power-of-two capacity |
| Vectors.PushTwoScenario | vector_impl/vector_tests.cpp:7-16 | after pushing 1 and 2 and copying, the copy has size 2, element 1 is 2 and back is 2, and the original starts with 1 |
| CsvLines.SplitShape | csv_rolling_mean/main.cpp:117-137 | a line splits into one field more than it has commas, and no field contains a comma |
| CsvLines.EmptyLineOneField | csv_rolling_mean/main.cpp:117-137 | an empty line gives one empty field |
| CsvLines.JoinSplit | csv_rolling_mean/main.cpp:105-137 | joining the fields of any line gives the line back |
| CsvLines.SplitJoin | csv_rolling_mean/main.cpp:105-137 | splitting the join of a non-empty list of comma-free values gives the list back |
| CsvLines.JoinSnoc | csv_rolling_mean/main.cpp:105-116 | one value more adds a comma and the value, with no comma before the first value |
| CsvLines.ExtractValuesFromLine | csv_rolling_mean/main.cpp:117-137 | the scanning loop returns exactly `Split(line)` |
| CsvLines.JoinValuesToFormLine | csv_rolling_mean/main.cpp:105-116 | the joining loop returns exactly `Join(values)` |
| CsvLines.AppendColumn | csv_rolling_mean/main.cpp:90-100 | split, one more field, join again: the row followed by a comma and the cell |
| CsvLines.OutputRow | csv_rolling_mean/main.cpp:90-100 | a data row gains the formatted mean, or an empty field while there is no mean |
| CsvLines.AppendColumnAddsOneField | csv_rolling_mean/main.cpp:90-98 | the written row has exactly the input row's fields plus the comma-free cell |
| CsvLines.OutputHeader | csv_rolling_mean/main.cpp:66-73 | the header row followed by `,Rolling Ratio` |
| Rolling.Limit | csv_rolling_mean/main.cpp:27-33 | the window as the `size_t` it is compared with: itself when positive, wrapped by 2^64 when negative |
| Rolling.SumSnoc | csv_rolling_mean/main.cpp:26 | adding a value at the back adds it to the sum |
| Rolling.SumFront | csv_rolling_mean/main.cpp:29-30 | removing the front value subtracts it from the sum |
| Rolling.RollingMean.constructor | csv_rolling_mean/main.cpp:19-21 | an empty window with sum 0 |
| Rolling.RollingMean.Push | csv_rolling_mean/main.cpp:23-38 | after k pushes the window holds the last min(k, window) values and the running sum is their sum. A mean is returned exactly when at least `window` values have been pushed, and it is the sum divided by the window |
| Rolling.WindowTwoScenario | csv_rolling_mean/main.cpp:23-38 | window 2, pushing 1, 2, 4: no mean, then 1.5, then 3 |
| Operators.AddOp | oop/major_operator_overloading_syntax.cpp:10 | the exact sum, defined only when it fits in an `int` |
| Operators.SubOp | oop/major_operator_overloading_syntax.cpp:11 | the exact difference, defined only when it fits |
| Operators.MulOp | oop/major_operator_overloading_syntax.cpp:12 | the exact product, defined only when it fits |
| Operators.DivOp | oop/major_operator_overloading_syntax.cpp:13 | the truncating quotient, defined for a non-zero divisor except INT_MIN / −1 |
| Operators.ModOp | oop/major_operator_overloading_syntax.cpp:14 | the remainder of truncating division, under the same condition |
| Operators.QuotFits | oop/major_operator_overloading_syntax.cpp:13 | the truncating quotient of two `int`s fits in an `int`, except INT_MIN / −1 |
| Operators.DivModIdentity | oop/major_operator_overloading_syntax.cpp:13-14 | `(x / y)·y + x % y == x`, the remainder is smaller than the divisor, and it has the sign of x |
| Operators.TruncatingExamples | oop/major_operator_overloading_syntax.cpp:13-14 | −7 / 2 is −3 remainder −1; 7 / −2 is −3 remainder 1; −7 / −2 is 3 remainder −1 |
| Operators.MyClass.constructor | oop/major_operator_overloading_syntax.cpp:7 | the object holds the given value |
| Operators.MyClass.Plus | oop/major_operator_overloading_syntax.cpp:10 | a fresh object holding the sum; both operands unchanged |
| Operators.MyClass.Minus | oop/major_operator_overloading_syntax.cpp:11 | a fresh object holding the difference |
| Operators.MyClass.Times | oop/major_operator_overloading_syntax.cpp:12 | a fresh object holding the product |
| Operators.MyClass.Divide | oop/major_operator_overloading_syntax.cpp:13 | a fresh object holding the truncating quotient |
| Operators.MyClass.Modulo | oop/major_operator_overloading_syntax.cpp:14 | a fresh object holding the truncating remainder |
| Operators.MyClass.Assign | oop/major_operator_overloading_syntax.cpp:17 | the value becomes the other's, and the object itself is returned |
| Operators.MyClass.AddAssign | oop/major_operator_overloading_syntax.cpp:18 | the value becomes what `+` gives on the old values, and the object itself is returned |
| Operators.MyClass.SubAssign | oop/major_operator_overloading_syntax.cpp:19 | the value becomes what `-` gives on the old values |
| Operators.MyClass.MulAssign | oop/major_operator_overloading_syntax.cpp:20 | the value becomes what `*` gives on the old values |
| Operators.MyClass.DivAssign | oop/major_operator_overloading_syntax.cpp:21 | the value becomes what `/` gives on the old values |
| Operators.MyClass.ModAssign | oop/major_operator_overloading_syntax.cpp:22 | the value becomes what `%` gives on the old values |
| Operators.ComparisonsConsistent | oop/major_operator_overloading_syntax.cpp:25-30 | `!=` negates `==`, `>`/`>=` are `<`/`<=` swapped, `<=` is `<` or `==`, `>=` negates `<`, exactly one of `<`, `==`, `>` holds, and `==` compares the wrapped values |
| Operators.MyClass.Not | oop/major_operator_overloading_syntax.cpp:33 | true exactly when the value is 0 |
| Operators.MyClass.And | oop/major_operator_overloading_syntax.cpp:34 | true exactly when both values are non-zero |
| Operators.MyClass.Or | oop/major_operator_overloading_syntax.cpp:35 | true exactly when either value is non-zero |
| Operators.LogicalDeMorgan | oop/major_operator_overloading_syntax.cpp:33-35 | logical and and logical or follow De Morgan's laws through `!` |
| Operators.MyClass.PreIncrement | oop/major_operator_overloading_syntax.cpp:38 | the value goes up by one and the object itself is returned |
| Operators.MyClass.PostIncrement | oop/major_operator_overloading_syntax.cpp:39 | a fresh copy holding the old value is returned while the value goes up by one |
| Operators.MyClass.PreDecrement | oop/major_operator_overloading_syntax.cpp:40 | the value goes down by one and the object itself is returned |
| Operators.MyClass.PostDecrement | oop/major_operator_overloading_syntax.cpp:41 | a fresh copy holding the old value is returned while the value goes down by one |
| Operators.MyClass.Deref | oop/major_operator_overloading_syntax.cpp:53 | the wrapped value, which is 0 exactly when `!` holds |
| Operators.CompoundMatchesBinary | oop/major_operator_overloading_syntax.cpp:10-18 | `a += b` gives a the value `a + b` returns, and b is unchanged |
| Operators.SelfAddDoubles | oop/major_operator_overloading_syntax.cpp:18 | `x += x` doubles x, because the right-hand side is read before the write |
| Operators.IncrementScenario | oop/major_operator_overloading_syntax.cpp:38-41 | postfix `++` on 5 returns 5 and leaves 6; prefix `--` brings it back to 5 |

## Left out

- Threads, atomics and memory orderings, the `running_` flags, `yield`/`sleep_for`, and the joins in the destructors are concurrency. Each worker loop and the dispatcher loop become one sequential pass (`Drain`, `DrainOnce`), and the cursors and the pool counter become plain fields.
- The registry's and the store's `shared_mutex` locking is concurrency; both are plain maps.
- `MarketData`'s `double` price and size and its `steady_clock` timestamp: the pipeline only copies them, so they are a real, a real and a natural. The clock reading taken by the feed is not modelled.
- `random_price`'s seed is `static thread_local`: every ingestion object on one thread shares it. The model gives each `PriceFeed` a seed of its own, which is the same thing for the single feed `main` creates.
- `MarketDataIngestion::run`, `subscribe` and the feed thread are left out: the model keeps only the seed update and the price mapping of `random_price`. `PriceOf` works on exact reals instead of the `double` arithmetic of `100.0 + (s % 1000) / 10.0`.
- `PrintStrategy` and every `std::cout` are output. A delivered data point is returned from `Drain` instead of printed.
- A strategy callback that throws is not modelled. The source has no handler around `on_market_data`, so an exception escapes the worker's thread function and calls `std::terminate`.
- `Processor::Process` is I/O: the files, `getline`, `std::stof`, `std::to_string`, and indexing field 4 of each row. The model keeps the per-row and header column append (`OutputRow`, `OutputHeader`).
- `RollingMean<float>` is modelled over exact reals.
- Rolling.RollingMean.constructor: requires a non-zero window. With window 0 the source divides a float by zero and returns an infinity or NaN, which has no value in the real-number model.
- StrategyPool.ThreadPoolOfStrategies.constructor: requires n ≥ 1. With no workers, `% workers_.size()` in `dispatch` would divide by zero.
- StrategyPool.DispatchAllShares and StrategyPool.RoundRobinFairness: require that the 64-bit counter does not wrap during the run and that every queue has room for that worker's own share (k more actions for the fairness lemma, 4095 being the most a 4096-slot queue holds); with a drop or a wrap the source promises no fair share either.
- StrategyPool.DecimalString: the contract states only that the result is a non-empty run of decimal digits, not the full value of `std::to_string`.
- SpscDraft.SpscQueue.Pop: requires a non-empty queue, because its empty path `return std::nullptr_t;` does not compile.
- SpscDraft.SpscQueue.Top: requires a non-empty queue for the same reason.
- SpscDraft.SpscQueue.Push: requires the unmasked write index to lie inside the array. The write the source would make past the end is undefined behaviour; `CursorRunsOffTheEnd` exhibits the state in which it happens. The draft's unused `length` field is not modelled.
- Vectors.Vector.Insert: the shift loop of `insert` indexes `data_end_` by a pointer, which does not compile; the model shifts the later elements right, the evident intent, and takes the position as an offset rather than an iterator.
- Vectors.Vector.PushBack and Vectors.Vector.Insert: take the item by value, while the source takes `const T&`. An argument that refers into the vector itself is not modelled. Examples are `v.push_back(v[k])` on a full vector, where `reallocate` frees the old block before `*data_end_ = item` reads the argument, and `v.insert(p, v[j])` with j after p, where the shift overwrites the argument's slot before it is read. The model inserts the value the argument held at the call.
- `My::Vector`'s destructor and the `delete[]` calls are memory management, which Dafny's garbage-collected arrays do not have. `begin`/`end` iterators and `length()` (a duplicate of `size()`) are not modelled either.
- `size_t` overflow of a doubled vector capacity and of the `int` loop counters in the vector's copy loops are not modelled; sizes are unbounded naturals.
- `MyClass(int v = 0)`: the default argument is not modelled; the constructor always takes the value.
- `MyClass::operator[]` (a static dummy), `operator()` (prints), `operator&` (returns `this`) and the stream operators `<<`/`>>` are output or have no behaviour to model.
- The comparison operators `Eq`, `Ne`, `Lt`, `Le`, `Gt` and `Ge` are plain functions. What they promise is stated once, in `ComparisonsConsistent`.

## Findings

| source | as written | input that shows it | evidently intended | confidence | as-written member | corrected member |
|---|---|---|---|---|---|---|
| multithreading/trading_strategy_engine/complete_strategy_engine.cpp:49-50 | `(C & (C - 1)) == 0` has no `C > 0` guard | C = 0: `0 & SIZE_MAX` is 0, so the assert passes and `push` writes slot 0 of an empty array | accept only powers of two | not executed | RingBuffers.CapacityAssertAdmitsZero | RingBuffers.ValidCapacity |
| multithreading/spsc_queue.h:23 | the queue counts as full when `head == tail + 1`, that is when it holds one item | size 4: push A, then push B is refused | full when the advanced head would meet the tail, modulo the size | not executed | SpscDraft.SecondPushRefused | RingBuffers.SpscRingBuffer.Push |
| multithreading/spsc_queue.h:25 | the cursors are incremented but never masked | size 1: push, pop, then the guard admits a push that writes `ring_buffer_[1]` | advance the cursors modulo the size with the mask `size - 1` | not executed | SpscDraft.CursorRunsOffTheEnd | RingBuffers.SpscRingBuffer.Push |
