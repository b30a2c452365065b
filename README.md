# rclcpp executor memory strategy, modelled in Dafny

This project models the default `MemoryStrategy` of rclcpp (ROS 2's C++ client
library), declared in `rclcpp/include/rclcpp/memory_strategy.hpp`. An executor
calls this strategy once per wait cycle. It first borrows a buffer of handles
for subscriptions, services, clients and guard conditions. It then lets the
middleware fill the buffers while waiting for work. Last, it returns each
buffer to the strategy. The strategy also makes fresh executables and offers a
general-purpose `alloc`.

The model has three modules:

- `HandleSlots` (`handle_slots.dfy`): handle buffers as sequences of 64-bit
  slots. It defines growth as `std::vector::resize(n, 0)` does it, the
  clearing of a whole-slot prefix, and a full zero fill, with lemmas about
  each.
- `Strategy` (`memory_strategy.dfy`): the class `MemoryStrategy`. It has the
  four buffers as `array<Handle>` fields: `subscriptionHandles`,
  `serviceHandles` and `clientHandles`, plus `guardCondHandles`, the fixed
  pair. `BorrowHandles` grows a vector by allocating a new array and copying
  the old slots into it, as a vector reallocation does. `ReturnHandles`
  checks the pointer it is given by reference identity: `handles ==
  subscriptionHandles`, and so on. The thrown `std::runtime_error`s become an
  `Err`/`Fail` result that names the error. The strategy's invariant `Valid()`
  says the guard pair has two slots and the four buffers are distinct arrays.
  That is why one kind's borrow or return never changes another kind's buffer.
- `Cycles`: whole wait cycles run on a fresh strategy.

Slot width: `memset(handles, 0, X.size())` (lines 98, 105 and 112) clears
`size()` bytes, not `size()` slots. The model uses whole-slot granularity with
`SlotWidth = 8`, which is `sizeof(void *)` on a 64-bit target. A return of a
vector buffer zeroes the first `size() / 8` slots and leaves every other slot
as it was. Only the guard-condition return (`fill(0)`, line 119) zeroes every
slot; the three vector returns clear `size()` bytes (see "## Findings").

Parameters in place of foreign calls: `Alloc` takes the result of
`std::malloc` as an argument.

## Model

| member | source | states |
|---|---|---|
| `HandleSlots.Grown` | rclcpp/include/rclcpp/memory_strategy.hpp:59-60 | a guarded `resize(n, 0)` leaves max(old length, n) slots; the resident slots are kept; every added slot is 0; nothing changes when the buffer already has n slots |
| `HandleSlots.GrownTwice` | rclcpp/include/rclcpp/memory_strategy.hpp:59-60 | borrowing n and then m slots is the same as borrowing max(n, m) once, so a buffer never shrinks across cycles |
| `HandleSlots.ZeroPrefix` | rclcpp/include/rclcpp/memory_strategy.hpp:98 | clearing k slots keeps the length, sets slot i to 0 when i < k and keeps it otherwise |
| `HandleSlots.MemsetSlots` | rclcpp/include/rclcpp/memory_strategy.hpp:98 | clearing `bytes` bytes zeroes exactly the `bytes / 8` whole slots and keeps every later slot |
| `HandleSlots.ZeroFilled` | rclcpp/include/rclcpp/memory_strategy.hpp:119 | `fill(0)` leaves every slot 0 |
| `HandleSlots.MemsetBySizeClearsAllIff` | rclcpp/include/rclcpp/memory_strategy.hpp:98 | clearing `size()` bytes zeroes the whole buffer if and only if every slot from `size() / 8` on was already 0 |
| `HandleSlots.MemsetBySizeLeavesHandles` | rclcpp/include/rclcpp/memory_strategy.hpp:98 | for a 5-slot buffer `[0, 7, 7, 7, 0]`, clearing 5 bytes touches only the already-null slot 0, so the buffer keeps its three handles and is not zero |
| `HandleSlots.MemsetFullWidthClearsAll` | rclcpp/include/rclcpp/memory_strategy.hpp:98 | clearing `size() * 8` bytes gives the same all-zero buffer as `fill(0)` |
| `Strategy.Alloc` | rclcpp/include/rclcpp/memory_strategy.hpp:139-145 | a 0-byte request yields null whatever the allocator would give; any other request yields the allocator's result |
| `Strategy.Reallocate` | rclcpp/include/rclcpp/memory_strategy.hpp:60 | vector reallocation returns a new array whose contents are the grown buffer |
| `Strategy.ClearSlots` | rclcpp/include/rclcpp/memory_strategy.hpp:98 | after the in-place clear of k slots, the array holds the old contents with a k-slot zero prefix |
| `Strategy.ReturnedSlots` | rclcpp/include/rclcpp/memory_strategy.hpp:98-119 | what a successful return leaves in a buffer keeps its length and differs from the old contents only by slots set to 0 |
| `Strategy.ReturnedSlotsClearing` | rclcpp/include/rclcpp/memory_strategy.hpp:98-119 | a guard-condition return leaves all slots 0; a vector return keeps every slot wholly past the first `size()` bytes, from index `ceil(size() / 8)` on (in the model already from `size() / 8` on) |
| `Strategy.MemoryStrategy.constructor` | rclcpp/include/rclcpp/memory_strategy.hpp:160-170 | a default strategy has three empty, distinct vectors and a zeroed 2-slot guard-condition array |
| `Strategy.MemoryStrategy.BorrowHandles` | rclcpp/include/rclcpp/memory_strategy.hpp:55-82 | a vector borrow returns that kind's current buffer; its contents become the grown buffer, in a fresh array only when the old one was too short and the same array otherwise; a guard borrow of more than 2 fails and one of 2 or fewer returns the fixed pair; the guard state never changes and other kinds' buffers and contents are unchanged |
| `Strategy.MemoryStrategy.ReturnHandles` | rclcpp/include/rclcpp/memory_strategy.hpp:90-125 | fails exactly when the array is not the kind's current buffer, and then changes nothing; no buffer changes identity or length; on success the kind's contents become the cleared buffer; other kinds' contents are unchanged |
| `Strategy.MemoryStrategy.InstantiateNextExecutable` | rclcpp/include/rclcpp/memory_strategy.hpp:129-132 | each call yields a newly allocated executable |
| `Cycles.SubscriptionCycle` | rclcpp/include/rclcpp/memory_strategy.hpp:58-98 | borrow 5, store handles in slots 1 to 3, return, borrow 3: the same 5-slot buffer comes back as `[0, 7, 7, 7, 0]`, with the 3 handles still in it |
| `Cycles.StaleBufferRejected` | rclcpp/include/rclcpp/memory_strategy.hpp:63-105 | after a growing borrow, the buffer from before the growth is refused with `ForeignHandles` and the current one is accepted |
| `Cycles.GuardConditionCycle` | rclcpp/include/rclcpp/memory_strategy.hpp:73-119 | borrowing 3 guard conditions fails with `TooManyGuardConditionHandles`; borrowing 2 and storing handles, then returning, succeeds and leaves both slots 0 |
| `Cycles.TwoExecutables` | rclcpp/include/rclcpp/memory_strategy.hpp:129-132 | two successive executables are distinct objects |

## Findings

| source | as written | input that shows it | evidently intended | confidence | as-written member | corrected member |
|---|---|---|---|---|---|---|
| rclcpp/include/rclcpp/memory_strategy.hpp:98 (also 105 and 112) | `memset(handles, 0, subscription_handles.size())` clears `size()` bytes, which is only `size() / 8` whole slots | a 5-slot subscription buffer `[0, 7, 7, 7, 0]`, then returned: the 5 cleared bytes lie inside slot 0, which is already null, so the handles in slots 1 to 3 remain | clear `size() * sizeof(void *)` bytes, so that every slot is 0 after a return, as `fill(0)` does for guard conditions | high; not executed | `HandleSlots.MemsetBySizeLeavesHandles` | `HandleSlots.MemsetFullWidthClearsAll` |

The class keeps the code's behaviour for the three vectors, because it
describes what the header does. The corrected, all-slot clear (`ZeroFilled`)
is the one the model uses for the guard-condition return. `Cycles.SubscriptionCycle`
shows the same discrepancy on the class itself.

## Left out

- The `default:` branches (lines 78-80 and 121-123) cannot be reached, because `HandleType` is a closed four-constructor datatype.
- The exception message strings and `std::to_string` are not modelled. Each thrown `std::runtime_error` is only the name of its error.
- `RCLCPP_SMART_PTR_DEFINITIONS`, the `friend` declaration and virtual dispatch are left out. Only the default strategy is modelled, and objects are plain references, not `shared_ptr`s.
- `free` (lines 151-154) is left out because it only calls `std::free`. `std::malloc` inside `alloc` is foreign, so its result is a parameter of `Alloc`.
- `AnyExecutable` is defined in `any_executable.hpp`, which is not part of this model. It is an empty class here, and `InstantiateNextExecutable` only promises a fresh object.
- The entity-wrapper vectors `subs`, `services` and `clients` (lines 156-158) are left out, because no method of this class reads or writes them.
- Byte-level contents are not modelled. When `size()` is not a multiple of 8, the low-order bytes of the slot at index `size() / 8` are cleared too. The model leaves that slot as it was. The example buffers of `MemsetBySizeLeavesHandles` and `Cycles.SubscriptionCycle` keep that slot null, so what they state holds whatever its bytes become, and `ReturnedSlotsClearing` also states the vector tail from `ceil(size() / 8)` on, which holds independently of that slot.
- Spare vector capacity is not modelled. A growing borrow always moves the vector to a new array. A real `std::vector` may grow in place when it has spare capacity, and then keep its address. `Cycles.StaleBufferRejected` describes the case where it moves.
- The null `data()` of an empty vector is not modelled. A real empty vector may report `nullptr`, so two empty vectors can have equal addresses. In the model the four buffers are always distinct arrays.
- `size_t` wrap-around and `std::bad_alloc` from `resize` are not modelled. Counts are unbounded naturals and growth always succeeds.
