/** `Model\AbstractItemList`: a list of API items that is at once an iterator with a cursor,
    a countable and an array with integer offsets. */
module ItemLists {
  import opened Wrappers

  /** An `ItemInterface`, seen through its id. */
  datatype Item = Item(id: int)

  /** `current()` is declared to return an `ItemInterface` under strict types, so returning
      null (no current item) raises a `TypeError`. */
  datatype TypeError = NullReturned

  /** The fields of a list: the items (always re-indexed 0..n-1), the cursor and the counter
      the iterator compares the cursor with. */
  datatype State = State(items: seq<Item>, pointer: int, count: int)

  /** `current()` on a state: the item under the cursor while `valid()` holds and the index
      exists; otherwise the null it returns is a `TypeError`. */
  function CurrentOf(s: State): (r: Result<Item, TypeError>)
    ensures r.Success? <==> s.pointer < s.count && 0 <= s.pointer < |s.items|
    ensures r.Success? ==> r.value == s.items[s.pointer]
  {
    if s.pointer < s.count && 0 <= s.pointer < |s.items| then Success(s.items[s.pointer])
    else Failure(NullReturned)
  }

  /** `offsetSet`: a null offset appends and counts the item; any other offset is ignored. */
  function AfterSet(s: State, offset: Option<int>, value: Item): (t: State)
    ensures offset.None? ==> t.items == s.items + [value] && t.count == s.count + 1
    ensures offset.Some? ==> t == s
    ensures t.pointer == s.pointer
  {
    if offset.None? then s.(items := s.items + [value], count := s.count + 1) else s
  }

  /** The items without the one at `i`, the rest moved down one place (`unset` then
      `array_values`). */
  function Removed(items: seq<Item>, i: int): (r: seq<Item>)
    requires 0 <= i < |items|
    ensures |r| == |items| - 1
    ensures forall j :: 0 <= j < i ==> r[j] == items[j]
    ensures forall j :: i <= j < |r| ==> r[j] == items[j + 1]
  {
    items[..i] + items[i + 1..]
  }

  /** `offsetUnset`: an existing index is removed, the counter drops by one and the cursor
      steps back unless it is at 0 or below; an absent index changes nothing. */
  function AfterUnset(s: State, offset: int): (t: State)
    ensures 0 <= offset < |s.items| ==>
              && t.items == Removed(s.items, offset)
              && t.count == s.count - 1
              && t.pointer == (if s.pointer > 0 then s.pointer - 1 else s.pointer)
    ensures !(0 <= offset < |s.items|) ==> t == s
  {
    if 0 <= offset < |s.items| then
      State(Removed(s.items, offset), if s.pointer > 0 then s.pointer - 1 else s.pointer, s.count - 1)
    else s
  }

  /** A call that changes the items: `$list[] = $v`, `$list[$i] = $v` or `unset($list[$i])`. */
  datatype Op = Append(value: Item) | SetAt(offset: int, value: Item) | UnsetAt(offset: int)

  function Apply(s: State, op: Op): State {
    match op
    case Append(v) => AfterSet(s, None, v)
    case SetAt(i, v) => AfterSet(s, Some(i), v)
    case UnsetAt(i) => AfterUnset(s, i)
  }

  /** The state after the calls `ops`, first to last. */
  function Replay(s: State, ops: seq<Op>): State
    decreases |ops|
  {
    if ops == [] then s else Apply(Replay(s, ops[..|ops| - 1]), ops[|ops| - 1])
  }

  /** Every call moves the counter and the number of items together, and none takes the
      cursor below 0 from 0 or above. */
  lemma {:induction false} ReplayKeepsBalance(s: State, ops: seq<Op>)
    ensures Replay(s, ops).count - |Replay(s, ops).items| == s.count - |s.items|
    ensures s.pointer >= 0 ==> Replay(s, ops).pointer >= 0
    decreases |ops|
  {
    if ops != [] {
      ReplayKeepsBalance(s, ops[..|ops| - 1]);
    }
  }

  /** A list built up from empty by appends and unsets always counts exactly its items, so
      its iterator visits every item. */
  lemma ReplayFromEmpty(ops: seq<Op>)
    ensures Replay(State([], 0, 0), ops).count == |Replay(State([], 0, 0), ops).items|
    ensures Replay(State([], 0, 0), ops).pointer >= 0
  {
    ReplayKeepsBalance(State([], 0, 0), ops);
  }

  /** While the counter trails the items by a fixed amount, an item is current exactly when
      the cursor lies in [0, count). */
  lemma CurrentWithinCount(s: State, initialLength: nat)
    requires s.count + initialLength == |s.items|
    ensures CurrentOf(s).Success? <==> 0 <= s.pointer < s.count
  {
  }

  class ItemList {
    var items: seq<Item>
    var pointer: int
    var count: int
    /** How many items the constructor was given; they are stored but never counted. */
    ghost const initialLength: nat

    function Snapshot(): State
      reads this
    {
      State(items, pointer, count)
    }

    /** The counter trails the number of items by what the constructor stored. */
    ghost predicate Valid()
      reads this
    {
      count + initialLength == |items|
    }

    /** Stores the items but leaves the counter at 0, so `valid()` is false at once even
        when items were given. */
    constructor (items: seq<Item>)
      ensures Valid() && initialLength == |items|
      ensures this.items == items && pointer == 0 && count == 0
      ensures !ValidPointer()
    {
      this.items := items;
      pointer := 0;
      count := 0;
      initialLength := |items|;
    }

    /** `getIds`: the items' ids, in item order. */
    method GetIds() returns (ids: seq<int>)
      ensures |ids| == |items|
      ensures forall i :: 0 <= i < |items| ==> ids[i] == items[i].id
    {
      ids := [];
      for i := 0 to |items|
        invariant |ids| == i
        invariant forall j :: 0 <= j < i ==> ids[j] == items[j].id
      {
        ids := ids + [items[i].id];
      }
    }

    method Rewind()
      modifies this`pointer
      ensures pointer == 0
    {
      pointer := 0;
    }

    method Next()
      modifies this`pointer
      ensures pointer == old(pointer) + 1
    {
      pointer := pointer + 1;
    }

    /** `current()`. */
    function Current(): (r: Result<Item, TypeError>)
      reads this
      ensures Valid() ==> (r.Success? <==> 0 <= pointer < count)
      ensures r.Success? ==> 0 <= pointer < |items| && r.value == items[pointer]
    {
      CurrentOf(Snapshot())
    }

    /** `key()`: the cursor, whether or not an item is under it. */
    function Key(): (k: int)
      reads this
      ensures k == pointer
    {
      pointer
    }

    /** `valid()`: the cursor is below the counter; the items themselves are not consulted.
        In a consistent list, from a cursor at 0 or above, it agrees with `current()`. */
    predicate ValidPointer()
      reads this
      ensures Valid() && pointer >= 0 ==> (ValidPointer() <==> Current().Success?)
    {
      pointer < count
    }

    /** `count()`: the counter, which equals the number of items only for a list that started
        empty. */
    function Count(): (c: int)
      reads this
      ensures Valid() ==> c == |items| - initialLength
      ensures Valid() && initialLength == 0 ==> c == |items|
    {
      count
    }

    /** `offsetExists`: `isset` on the re-indexed items. */
    function OffsetExists(offset: int): (b: bool)
      reads this
      ensures b <==> 0 <= offset < |items|
    {
      0 <= offset < |items|
    }

    /** `offsetGet`: moves the cursor to the offset and returns `current()`. */
    method OffsetGet(offset: int) returns (r: Result<Item, TypeError>)
      requires Valid()
      modifies this`pointer
      ensures pointer == offset && r == Current()
      ensures r.Success? <==> 0 <= offset < count
      ensures r.Success? ==> r.value == items[offset]
    {
      pointer := offset;
      r := Current();
    }

    /** `offsetSet`. */
    method OffsetSet(offset: Option<int>, value: Item)
      requires Valid()
      modifies this
      ensures Valid()
      ensures Snapshot() == AfterSet(old(Snapshot()), offset, value)
    {
      if offset.None? {
        items := items + [value];
        count := count + 1;
      }
    }

    /** `offsetUnset`. */
    method OffsetUnset(offset: int)
      requires Valid()
      modifies this
      ensures Valid()
      ensures Snapshot() == AfterUnset(old(Snapshot()), offset)
    {
      if 0 <= offset < |items| {
        items := Removed(items, offset);
        count := count - 1;
        if pointer > 0 {
          pointer := pointer - 1;
        }
      }
    }
  }
}
