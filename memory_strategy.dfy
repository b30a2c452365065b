/**
 * The default executor memory strategy: four handle buffers that the
 * executor borrows before it waits for work and returns afterwards, a
 * general-purpose allocation primitive and a factory for fresh executables.
 */
module Strategy {
  import opened HandleSlots

  /** The kind of entity a handle buffer is borrowed for. */
  datatype HandleType = SubscriptionHandle | ServiceHandle | ClientHandle | GuardConditionHandle

  /** The runtime errors the strategy throws. */
  datatype StrategyError =
    | TooManyGuardConditionHandles  // more than the fixed guard-condition slots were requested
    | ForeignHandles                // the returned buffer is not the one this strategy owns

  datatype Result<T> = Ok(value: T) | Err(error: StrategyError)

  datatype Outcome = Pass | Fail(error: StrategyError)

  /** Number of slots of the fixed guard-condition buffer. */
  const GuardConditionSlots: nat := 2

  /** A raw allocation: the null pointer or the address of a block. */
  datatype Pointer = Null | Block(address: nat)

  /**
   * `alloc(size)`: a zero-byte request yields the null pointer without
   * consulting the heap; any other request yields whatever the heap
   * allocator (`mallocResult`, which may itself be null) handed out.
   */
  function Alloc(size: nat, mallocResult: Pointer): (p: Pointer)
    ensures size == 0 ==> p == Null
    ensures size > 0 ==> p == mallocResult
  {
    if size == 0 then Null else mallocResult
  }

  /** An executable descriptor; its contents belong to the executor and are not modelled. */
  class AnyExecutable {
    constructor () {}
  }

  /**
   * A vector's reallocation to `n` slots: a new block holding every old slot
   * and 0 in every added slot.
   */
  method Reallocate(a: array<Handle>, n: nat) returns (b: array<Handle>)
    ensures fresh(b)
    ensures b[..] == Grown(a[..], n)
  {
    var len := Max(a.Length, n);
    b := new Handle[len];
    var i := 0;
    while i < len
      invariant 0 <= i <= len
      invariant forall j :: 0 <= j < i ==> b[j] == if j < a.Length then a[j] else 0
    {
      b[i] := if i < a.Length then a[i] else 0;
      i := i + 1;
    }
    ghost var g := Grown(a[..], n);
    forall j | 0 <= j < len ensures b[j] == g[j] {
      if j < a.Length { assert g[..a.Length][j] == a[j]; }
    }
  }

  /** Sets the first `k` slots of `a` (all of them, if it is shorter) to 0. */
  method ClearSlots(a: array<Handle>, k: nat)
    modifies a
    ensures a[..] == ZeroPrefix(old(a[..]), k)
  {
    var n := if k < a.Length then k else a.Length;
    var i := 0;
    while i < n
      invariant 0 <= i <= n
      invariant forall j :: 0 <= j < i ==> a[j] == 0
      invariant forall j :: i <= j < a.Length ==> a[j] == old(a[j])
    {
      a[i] := 0;
      i := i + 1;
    }
    ghost var z := ZeroPrefix(old(a[..]), k);
    assert forall j :: 0 <= j < a.Length ==> a[..][j] == z[j];
  }

  /**
   * What a successful return leaves in the buffer of `kind`, given what was
   * in it: the three vectors are cleared by `memset(buffer, 0, size())`,
   * which clears `size()` bytes, and the guard-condition pair by `fill(0)`.
   * Either way the length is kept and nothing but 0 is written: every slot
   * is either 0 or what it was.
   */
  function ReturnedSlots(kind: HandleType, s: seq<Handle>): (r: seq<Handle>)
    ensures |r| == |s|
    ensures forall i :: 0 <= i < |s| ==> r[i] in {0, s[i]}
  {
    if kind == GuardConditionHandle then ZeroFilled(s) else MemsetSlots(s, |s|)
  }

  /**
   * After a successful guard-condition return every slot is 0. After a
   * vector return every slot that lies wholly past the `size()` cleared
   * bytes, from index `(size() + SlotWidth - 1) / SlotWidth` on, keeps its
   * handle whatever the bytes of a partially cleared slot become; at the
   * whole-slot granularity of the model this holds from `size() / SlotWidth` on.
   */
  lemma ReturnedSlotsClearing(kind: HandleType, s: seq<Handle>)
    ensures kind == GuardConditionHandle ==> ReturnedSlots(kind, s) == Zeros(|s|)
    ensures kind != GuardConditionHandle ==>
      forall i :: (|s| + SlotWidth - 1) / SlotWidth <= i < |s| ==> ReturnedSlots(kind, s)[i] == s[i]
    ensures kind != GuardConditionHandle ==>
      forall i :: |s| / SlotWidth <= i < |s| ==> ReturnedSlots(kind, s)[i] == s[i]
  {
  }

  /** The default memory strategy of an executor. */
  class MemoryStrategy {
    var subscriptionHandles: array<Handle>
    var serviceHandles: array<Handle>
    var clientHandles: array<Handle>
    var guardCondHandles: array<Handle>

    /** The buffer this strategy currently owns for `kind`. */
    function Buffer(kind: HandleType): (b: array<Handle>)
      reads this
    {
      match kind
      case SubscriptionHandle => subscriptionHandles
      case ServiceHandle => serviceHandles
      case ClientHandle => clientHandles
      case GuardConditionHandle => guardCondHandles
    }

    /** The contents of the buffer for `kind`. */
    ghost function Slots(kind: HandleType): seq<Handle>
      reads this, Buffer(kind)
    {
      Buffer(kind)[..]
    }

    /**
     * The guard-condition buffer has its two fixed slots, and the four
     * buffers are four separate blocks, so writing through one never
     * changes another.
     */
    ghost predicate Valid()
      reads this
    {
      guardCondHandles.Length == GuardConditionSlots &&
      subscriptionHandles != serviceHandles &&
      subscriptionHandles != clientHandles &&
      subscriptionHandles != guardCondHandles &&
      serviceHandles != clientHandles &&
      serviceHandles != guardCondHandles &&
      clientHandles != guardCondHandles
    }

    /** A default strategy: three empty vectors and a zeroed guard-condition pair. */
    constructor ()
      ensures Valid()
      ensures fresh(subscriptionHandles) && fresh(serviceHandles)
      ensures fresh(clientHandles) && fresh(guardCondHandles)
      ensures Slots(SubscriptionHandle) == [] && Slots(ServiceHandle) == [] && Slots(ClientHandle) == []
      ensures Slots(GuardConditionHandle) == Zeros(GuardConditionSlots)
    {
      subscriptionHandles := new Handle[0];
      serviceHandles := new Handle[0];
      clientHandles := new Handle[0];
      guardCondHandles := new Handle[GuardConditionSlots](_ => 0);
      new;
      assert guardCondHandles[..] == [0, 0];
    }

    /**
     * Hands out the buffer for `kind` with room for `numberOfHandles`
     * handles. A vector shorter than the request is reallocated to exactly
     * that length; the guard-condition pair is handed out as it is, and a
     * request for more than two guard conditions fails with nothing changed.
     * No other kind's buffer is touched.
     */
    method BorrowHandles(kind: HandleType, numberOfHandles: nat) returns (r: Result<array<Handle>>)
      requires Valid()
      modifies this
      ensures Valid()
      ensures kind == GuardConditionHandle && numberOfHandles > GuardConditionSlots ==>
        r == Err(TooManyGuardConditionHandles)
      ensures kind == GuardConditionHandle && numberOfHandles <= GuardConditionSlots ==>
        r == Ok(guardCondHandles)
      ensures kind != GuardConditionHandle ==> r == Ok(Buffer(kind))
      ensures kind != GuardConditionHandle ==> Slots(kind) == Grown(old(Slots(kind)), numberOfHandles)
      ensures kind == GuardConditionHandle || numberOfHandles <= old(Buffer(kind).Length) ==>
        Buffer(kind) == old(Buffer(kind)) && Slots(kind) == old(Slots(kind))
      ensures kind != GuardConditionHandle && old(Buffer(kind).Length) < numberOfHandles ==>
        fresh(Buffer(kind))
      ensures forall k :: k != kind ==> Buffer(k) == old(Buffer(k)) && Slots(k) == old(Slots(k))
    {
      match kind
      case SubscriptionHandle =>
        if subscriptionHandles.Length < numberOfHandles {
          subscriptionHandles := Reallocate(subscriptionHandles, numberOfHandles);
        }
        return Ok(subscriptionHandles);
      case ServiceHandle =>
        if serviceHandles.Length < numberOfHandles {
          serviceHandles := Reallocate(serviceHandles, numberOfHandles);
        }
        return Ok(serviceHandles);
      case ClientHandle =>
        if clientHandles.Length < numberOfHandles {
          clientHandles := Reallocate(clientHandles, numberOfHandles);
        }
        return Ok(clientHandles);
      case GuardConditionHandle =>
        if numberOfHandles > GuardConditionSlots {
          return Err(TooManyGuardConditionHandles);
        }
        return Ok(guardCondHandles);
    }

    /**
     * Takes back the buffer for `kind`. Anything but the buffer this
     * strategy currently owns for `kind` fails with nothing changed;
     * otherwise the buffer is cleared (see `ReturnedSlots`) and keeps its
     * identity and length. No other kind's buffer is touched.
     */
    method ReturnHandles(kind: HandleType, handles: array<Handle>) returns (r: Outcome)
      requires Valid()
      modifies handles
      ensures Valid()
      ensures r == if handles == Buffer(kind) then Pass else Fail(ForeignHandles)
      ensures r.Fail? ==> handles[..] == old(handles[..])
      ensures forall k :: Buffer(k) == old(Buffer(k))
      ensures r.Pass? ==> Slots(kind) == ReturnedSlots(kind, old(Slots(kind)))
      ensures forall k :: k != kind ==> Slots(k) == old(Slots(k))
    {
      match kind
      case SubscriptionHandle =>
        if handles != subscriptionHandles {
          return Fail(ForeignHandles);
        }
        ClearSlots(handles, subscriptionHandles.Length / SlotWidth);
        return Pass;
      case ServiceHandle =>
        if handles != serviceHandles {
          return Fail(ForeignHandles);
        }
        ClearSlots(handles, serviceHandles.Length / SlotWidth);
        return Pass;
      case ClientHandle =>
        if handles != clientHandles {
          return Fail(ForeignHandles);
        }
        ClearSlots(handles, clientHandles.Length / SlotWidth);
        return Pass;
      case GuardConditionHandle =>
        if handles != guardCondHandles {
          return Fail(ForeignHandles);
        }
        ClearSlots(handles, guardCondHandles.Length);
        return Pass;
    }

    /** A newly constructed executable, owned by nobody else. */
    method InstantiateNextExecutable() returns (e: AnyExecutable)
      ensures fresh(e)
    {
      e := new AnyExecutable();
    }
  }
}

/**
 * Wait cycles as an executor drives them, on a fresh default strategy.
 */
module Cycles {
  import opened HandleSlots
  import opened Strategy

  /**
   * Borrow five subscription slots, store handles in slots 1 to 3, return
   * the buffer, borrow three slots: the second borrow hands out the same
   * buffer, still five slots long, and since the return cleared only five
   * bytes, all within slot 0, the three handles are still in it.
   */
  method SubscriptionCycle() returns (sameBuffer: bool, afterReturn: seq<Handle>)
    ensures sameBuffer
    ensures afterReturn == [0, 7, 7, 7, 0]
  {
    var strategy := new MemoryStrategy();
    var first := strategy.BorrowHandles(SubscriptionHandle, 5);
    var buffer := first.value;
    assert buffer[..] == Zeros(5);
    buffer[1], buffer[2], buffer[3] := 7, 7, 7;
    assert buffer[..] == [0, 7, 7, 7, 0];
    var returned := strategy.ReturnHandles(SubscriptionHandle, buffer);
    MemsetBySizeLeavesHandles();
    var second := strategy.BorrowHandles(SubscriptionHandle, 3);
    sameBuffer := second.value == buffer && buffer.Length == 5;
    afterReturn := buffer[..];
  }

  /**
   * A borrow that grows a vector moves it to a new block, so the block
   * handed out before the growth is no longer accepted back.
   */
  method StaleBufferRejected() returns (stale: Outcome, current: Outcome)
    ensures stale == Fail(ForeignHandles)
    ensures current == Pass
  {
    var strategy := new MemoryStrategy();
    var small := strategy.BorrowHandles(ServiceHandle, 1);
    var large := strategy.BorrowHandles(ServiceHandle, 4);
    stale := strategy.ReturnHandles(ServiceHandle, small.value);
    current := strategy.ReturnHandles(ServiceHandle, large.value);
  }

  /**
   * Three guard conditions are refused; two are served from the fixed pair,
   * which a return then leaves all 0 even after handles were stored in it.
   */
  method GuardConditionCycle() returns (three: Result<array<Handle>>, two: Outcome, afterReturn: seq<Handle>)
    ensures three == Err(TooManyGuardConditionHandles)
    ensures two == Pass
    ensures afterReturn == [0, 0]
  {
    var strategy := new MemoryStrategy();
    three := strategy.BorrowHandles(GuardConditionHandle, 3);
    var pair := strategy.BorrowHandles(GuardConditionHandle, 2);
    pair.value[0], pair.value[1] := 3, 9;
    two := strategy.ReturnHandles(GuardConditionHandle, pair.value);
    afterReturn := pair.value[..];
  }

  /** Two successive executables are distinct objects. */
  method TwoExecutables(strategy: MemoryStrategy) returns (e1: AnyExecutable, e2: AnyExecutable)
    ensures e1 != e2
  {
    e1 := strategy.InstantiateNextExecutable();
    e2 := strategy.InstantiateNextExecutable();
  }
}
