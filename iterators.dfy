/**
 * The two-layer iterator of src/db.rs.
 *
 * `RawIterator` stands for `DBRawIterator`, a cursor owned by the engine. Its
 * behaviour is taken from its documentation: the key space it walks is a
 * strictly increasing sequence of byte-string keys with their values, and
 * the cursor is either on one entry or invalid.
 *
 * `DBIterator` is the wrapper the crate implements itself: a direction and a
 * "just seeked" flag on top of the raw cursor, so that the first `next` after
 * a positioning call yields the entry the cursor landed on instead of
 * stepping past it.
 */
module Iterators {
  import opened Wrappers
  import opened ByteKeys

  datatype Direction = Forward | Reverse

  datatype IteratorMode = Start | End | From(key: Key, dir: Direction)

  /** The entries a cursor walks over, as the engine presents them. */
  datatype KeySpace = KeySpace(keys: seq<Key>, vals: seq<Value>) {

    ghost predicate Wf() {
      |keys| == |vals| && StrictlyIncreasing(keys)
    }

    function Entry(i: nat): (Key, Value)
      requires i < |keys| && i < |vals|
    {
      (keys[i], vals[i])
    }

    /** Every entry, in key order. */
    function Entries(): (es: seq<(Key, Value)>)
      requires |keys| == |vals|
      ensures |es| == |keys|
      ensures forall i :: 0 <= i < |es| ==> es[i] == Entry(i)
    {
      seq(|keys|, i requires 0 <= i < |keys| => Entry(i))
    }
  }

  function KeysOf(items: seq<(Key, Value)>): (ks: seq<Key>)
    ensures |ks| == |items|
    ensures forall i :: 0 <= i < |items| ==> ks[i] == items[i].0
  {
    seq(|items|, i requires 0 <= i < |items| => items[i].0)
  }

  function Reversed<T>(s: seq<T>): (r: seq<T>)
    ensures |r| == |s|
    ensures forall j :: 0 <= j < |s| ==> r[j] == s[|s| - 1 - j]
  {
    if s == [] then [] else [s[|s| - 1]] + Reversed(s[..|s| - 1])
  }

  // ---------------------------------------------------------------------------
  // Cursor positions and the raw cursor's moves
  // ---------------------------------------------------------------------------

  /** `Some(i)`: the cursor is valid and on entry `i`; `None`: it is not valid. */
  type Position = Option<nat>

  predicate InRange(n: nat, p: Position) {
    p.Some? ==> p.value < n
  }

  /** Index of the first key that is not below `target`, or `|keys|` if there is none. */
  function LowerBound(keys: seq<Key>, target: Key): (i: nat)
    ensures i <= |keys|
    ensures forall j :: 0 <= j < i ==> Less(keys[j], target)
    ensures i < |keys| ==> !Less(keys[i], target)
  {
    if keys == [] then 0
    else if Less(keys[0], target) then 1 + LowerBound(keys[1..], target)
    else 0
  }

  /** In a sorted key space, every key from the lower bound on is at or above the target. */
  lemma LowerBoundSplits(keys: seq<Key>, target: Key)
    requires StrictlyIncreasing(keys)
    ensures forall j :: LowerBound(keys, target) <= j < |keys| ==> !Less(keys[j], target)
  {
    var i := LowerBound(keys, target);
    forall j | i < j < |keys|
      ensures !Less(keys[j], target)
    {
      if Less(keys[j], target) {
        LessTransitive(keys[i], keys[j], target);
      }
    }
  }

  /** `seek_to_first`: the first entry, or invalid when the key space is empty. */
  function FirstPos(n: nat): (p: Position)
    ensures InRange(n, p)
  {
    if n == 0 then None else Some(0)
  }

  /** `seek_to_last`: the last entry, or invalid when the key space is empty. */
  function LastPos(n: nat): (p: Position)
    ensures InRange(n, p)
  {
    if n == 0 then None else Some(n - 1)
  }

  /** `seek`: the first key at or after the target, or invalid when every key is below it. */
  function SeekPos(keys: seq<Key>, target: Key): (p: Position)
    ensures InRange(|keys|, p)
  {
    var i := LowerBound(keys, target);
    if i < |keys| then Some(i) else None
  }

  /** `next`: one entry on; invalid past the last entry. An invalid cursor stays invalid. */
  function NextPos(n: nat, p: Position): (q: Position)
    ensures InRange(n, q)
  {
    match p
    case None => None
    case Some(i) => if i + 1 < n then Some(i + 1) else None
  }

  /** `prev`: one entry back; invalid before the first entry. An invalid cursor stays invalid. */
  function PrevPos(n: nat, p: Position): (q: Position)
    requires InRange(n, p)
    ensures InRange(n, q)
  {
    match p
    case None => None
    case Some(i) => if i == 0 then None else Some(i - 1)
  }

  /** Where a seek lands: on the first key at or above the target, every key before it below the target. */
  lemma SeekLandsOnFirstAtLeast(space: KeySpace, target: Key)
    requires space.Wf()
    ensures var p := SeekPos(space.keys, target);
      && (p.Some? <==> exists j :: 0 <= j < |space.keys| && !Less(space.keys[j], target))
      && (p.Some? ==> !Less(space.keys[p.value], target))
      && (p.Some? ==> forall j :: 0 <= j < p.value ==> Less(space.keys[j], target))
      && (p.Some? ==> forall j :: p.value <= j < |space.keys| ==> !Less(space.keys[j], target))
  {
    LowerBoundSplits(space.keys, target);
  }

  /**
   * The two cases of `seek`: a key that is present is landed on itself; a key
   * that is absent is followed, so the cursor lands on a key above it.
   */
  lemma SeekExactOrNext(space: KeySpace, target: Key)
    requires space.Wf()
    ensures forall j :: 0 <= j < |space.keys| && space.keys[j] == target ==> SeekPos(space.keys, target) == Some(j)
    ensures var p := SeekPos(space.keys, target);
      p.Some? && target !in space.keys ==> Less(target, space.keys[p.value])
  {
    var i := LowerBound(space.keys, target);
    forall j | 0 <= j < |space.keys| && space.keys[j] == target
      ensures SeekPos(space.keys, target) == Some(j)
    {
      LessIrreflexive(target);
    }
    if i < |space.keys| && target !in space.keys {
      LessTotal(target, space.keys[i]);
    }
  }

  // ---------------------------------------------------------------------------
  // The raw cursor (`DBRawIterator`)
  // ---------------------------------------------------------------------------

  class RawIterator {
    const space: KeySpace
    var pos: Position

    ghost predicate Valid()
      reads this
    {
      space.Wf() && InRange(|space.keys|, pos)
    }

    /** A new cursor is not positioned anywhere until it is seeked. */
    constructor (space: KeySpace)
      requires space.Wf()
      ensures Valid() && this.space == space && pos == None
    {
      this.space := space;
      pos := None;
    }

    /** `valid`: the cursor is on an entry. */
    predicate IsValid()
      reads this
      requires Valid()
      ensures IsValid() ==> pos.Some? && pos.value < |space.keys|
    {
      pos.Some?
    }

    method SeekToFirst()
      requires Valid()
      modifies this`pos
      ensures Valid() && pos == FirstPos(|space.keys|)
      ensures IsValid() <==> |space.keys| > 0
      ensures IsValid() ==> forall j :: 0 < j < |space.keys| ==> Less(space.keys[pos.value], space.keys[j])
    {
      pos := FirstPos(|space.keys|);
    }

    method SeekToLast()
      requires Valid()
      modifies this`pos
      ensures Valid() && pos == LastPos(|space.keys|)
      ensures IsValid() <==> |space.keys| > 0
      ensures IsValid() ==> forall j :: 0 <= j < pos.value ==> Less(space.keys[j], space.keys[pos.value])
    {
      pos := LastPos(|space.keys|);
    }

    method Seek(key: Key)
      requires Valid()
      modifies this`pos
      ensures Valid() && pos == SeekPos(space.keys, key)
      ensures IsValid() ==> !Less(space.keys[pos.value], key)
      ensures IsValid() ==> forall j :: 0 <= j < pos.value ==> Less(space.keys[j], key)
      ensures !IsValid() ==> forall j :: 0 <= j < |space.keys| ==> Less(space.keys[j], key)
    {
      pos := SeekPos(space.keys, key);
    }

    method Next()
      requires Valid()
      modifies this`pos
      ensures Valid() && pos == NextPos(|space.keys|, old(pos))
    {
      pos := NextPos(|space.keys|, pos);
    }

    method Prev()
      requires Valid()
      modifies this`pos
      ensures Valid() && pos == PrevPos(|space.keys|, old(pos))
    {
      pos := PrevPos(|space.keys|, pos);
    }

    /** `key`: a copy of the current key, or nothing when the cursor is not valid. */
    function Key(): (k: Option<Key>)
      reads this
      requires Valid()
      ensures k.Some? <==> IsValid()
      ensures k.Some? ==> k.value == space.keys[pos.value]
    {
      match pos
      case None => None
      case Some(i) => Some(space.keys[i])
    }

    /** `value`: a copy of the current value, or nothing when the cursor is not valid. */
    function Value(): (v: Option<Value>)
      reads this
      requires Valid()
      ensures v.Some? <==> IsValid()
      ensures v.Some? ==> v.value == space.vals[pos.value]
    {
      match pos
      case None => None
      case Some(i) => Some(space.vals[i])
    }
  }

  // ---------------------------------------------------------------------------
  // The directional iterator's state machine, as functions
  // ---------------------------------------------------------------------------

  datatype IterState = IterState(pos: Position, direction: Direction, justSeeked: bool)

  /** `set_mode`: reposition, fix the direction, raise the flag. */
  function SetModeState(space: KeySpace, mode: IteratorMode): IterState
  {
    match mode
    case Start => IterState(FirstPos(|space.keys|), Forward, true)
    case End => IterState(LastPos(|space.keys|), Reverse, true)
    case From(key, dir) => IterState(SeekPos(space.keys, key), dir, true)
  }

  /** One physical step in the given direction. */
  function Step(n: nat, dir: Direction, p: Position): (q: Position)
    requires InRange(n, p)
    ensures InRange(n, q)
  {
    match dir
    case Forward => NextPos(n, p)
    case Reverse => PrevPos(n, p)
  }

  /** `next`, on the state: no step right after a seek, exactly one step otherwise. */
  function NextState(n: nat, st: IterState): (st': IterState)
    requires InRange(n, st.pos)
    ensures InRange(n, st'.pos)
  {
    if st.justSeeked then st.(justSeeked := false)
    else st.(pos := Step(n, st.direction, st.pos))
  }

  /** The item `next` returns once the cursor is at `p`. */
  function Yield(space: KeySpace, p: Position): Option<(Key, Value)>
    requires |space.keys| == |space.vals| && InRange(|space.keys|, p)
  {
    match p
    case None => None
    case Some(i) => Some(space.Entry(i))
  }

  /** An upper bound on the number of items still to come. */
  function Remaining(n: nat, st: IterState): nat
  {
    var left :=
      match st.pos
      case None => 0
      case Some(i) => if st.direction == Reverse then i + 1 else if i < n then n - i else 0;
    left + (if st.justSeeked then 1 else 0)
  }

  /** Every item that repeated calls of `next` produce from `st`, up to the first `None`. */
  function Collect(space: KeySpace, st: IterState): seq<(Key, Value)>
    requires |space.keys| == |space.vals| && InRange(|space.keys|, st.pos)
    decreases Remaining(|space.keys|, st)
  {
    var st' := NextState(|space.keys|, st);
    match Yield(space, st'.pos)
    case None => []
    case Some(item) => [item] + Collect(space, st')
  }

  /** One call of `next` that yields entry `j`, followed by the rest. */
  lemma CollectYields(space: KeySpace, st: IterState, j: nat)
    requires |space.keys| == |space.vals| && InRange(|space.keys|, st.pos)
    requires NextState(|space.keys|, st).pos == Some(j)
    ensures Collect(space, st) == [space.Entry(j)] + Collect(space, NextState(|space.keys|, st))
  {
  }

  lemma EntriesFrom(space: KeySpace, i: nat)
    requires |space.keys| == |space.vals| && i < |space.keys|
    ensures space.Entries()[i..] == [space.Entry(i)] + space.Entries()[i + 1..]
  {
  }

  lemma {:induction false} CollectForward(space: KeySpace, i: nat, justSeeked: bool)
    requires |space.keys| == |space.vals| && i < |space.keys|
    ensures Collect(space, IterState(Some(i), Forward, justSeeked))
         == if justSeeked then space.Entries()[i..] else space.Entries()[i + 1..]
    decreases |space.keys| - i, justSeeked
  {
    var n := |space.keys|;
    var st := IterState(Some(i), Forward, justSeeked);
    if justSeeked {
      CollectYields(space, st, i);
      CollectForward(space, i, false);
      EntriesFrom(space, i);
    } else if i + 1 < n {
      CollectYields(space, st, i + 1);
      CollectForward(space, i + 1, false);
      EntriesFrom(space, i + 1);
    } else {
      assert NextState(n, st).pos == None;
      assert Collect(space, st) == [];
      assert space.Entries()[i + 1..] == [];
    }
  }

  lemma {:induction false} CollectReverse(space: KeySpace, i: nat, justSeeked: bool)
    requires |space.keys| == |space.vals| && i < |space.keys|
    ensures Collect(space, IterState(Some(i), Reverse, justSeeked))
         == if justSeeked then Reversed(space.Entries()[..i + 1]) else Reversed(space.Entries()[..i])
    decreases i, justSeeked
  {
    var es := space.Entries();
    if justSeeked {
      CollectReverse(space, i, false);
      assert es[..i + 1][..i] == es[..i];
    } else if i > 0 {
      CollectReverse(space, i - 1, false);
      assert es[..i][..i - 1] == es[..i - 1];
    } else {
      assert es[..i] == [];
    }
  }

  /** Iterating from `Start` yields every entry once, in strictly increasing key order. */
  lemma IterateFromStart(space: KeySpace)
    requires space.Wf()
    ensures Collect(space, SetModeState(space, Start)) == space.Entries()
    ensures KeysOf(Collect(space, SetModeState(space, Start))) == space.keys
    ensures StrictlyIncreasing(KeysOf(Collect(space, SetModeState(space, Start))))
  {
    if |space.keys| > 0 {
      CollectForward(space, 0, true);
      assert space.Entries()[0..] == space.Entries();
    }
  }

  lemma KeysOfReversedEntries(space: KeySpace)
    requires |space.keys| == |space.vals|
    ensures KeysOf(Reversed(space.Entries())) == Reversed(space.keys)
  {
  }

  lemma ReversedIncreasingIsDecreasing(ks: seq<Key>)
    requires StrictlyIncreasing(ks)
    ensures StrictlyDecreasing(Reversed(ks))
  {
    var rs := Reversed(ks);
    forall i, j | 0 <= i < j < |rs|
      ensures Less(rs[j], rs[i])
    {
      assert rs[i] == ks[|ks| - 1 - i] && rs[j] == ks[|ks| - 1 - j];
    }
  }

  /** Iterating from `End` yields every entry once, in strictly decreasing key order. */
  lemma IterateFromEnd(space: KeySpace)
    requires space.Wf()
    ensures Collect(space, SetModeState(space, End)) == Reversed(space.Entries())
    ensures KeysOf(Collect(space, SetModeState(space, End))) == Reversed(space.keys)
    ensures StrictlyDecreasing(KeysOf(Collect(space, SetModeState(space, End))))
  {
    var n := |space.keys|;
    if n > 0 {
      CollectReverse(space, n - 1, true);
      assert space.Entries()[..n] == space.Entries();
    }
    KeysOfReversedEntries(space);
    ReversedIncreasingIsDecreasing(space.keys);
  }

  /**
   * Iterating from `From(key, Forward)` yields the entries from the first key
   * at or above `key` to the last one: the first item is that key's entry and
   * no yielded key is below `key`.
   */
  lemma IterateFromKeyForward(space: KeySpace, key: Key)
    requires space.Wf()
    ensures Collect(space, SetModeState(space, From(key, Forward)))
         == space.Entries()[LowerBound(space.keys, key)..]
    ensures forall item :: item in Collect(space, SetModeState(space, From(key, Forward))) ==> !Less(item.0, key)
  {
    var i := LowerBound(space.keys, key);
    var es := space.Entries();
    var st := SetModeState(space, From(key, Forward));
    if i < |space.keys| {
      assert st == IterState(Some(i), Forward, true);
      CollectForward(space, i, true);
    } else {
      assert st.pos == None;
      assert Collect(space, st) == [];
      assert es[i..] == [];
    }
    var items := Collect(space, st);
    assert items == es[i..];
    LowerBoundSplits(space.keys, key);
    forall item | item in items
      ensures !Less(item.0, key)
    {
      var j :| 0 <= j < |items| && items[j] == item;
      assert item == es[i + j];
    }
  }

  /**
   * `From(key, Reverse)` also seeks FORWARD, to the first key at or above
   * `key`, and walks back from there: it yields that entry and every entry
   * before it, in decreasing key order, and yields nothing at all when every
   * key is below `key`.
   */
  lemma IterateFromKeyReverse(space: KeySpace, key: Key)
    requires space.Wf()
    ensures var i := LowerBound(space.keys, key);
      Collect(space, SetModeState(space, From(key, Reverse)))
        == if i < |space.keys| then Reversed(space.Entries()[..i + 1]) else []
  {
    var i := LowerBound(space.keys, key);
    if i < |space.keys| {
      CollectReverse(space, i, true);
    }
  }

  // ---------------------------------------------------------------------------
  // The directional iterator (`DBIterator`)
  // ---------------------------------------------------------------------------

  class DBIterator {
    const raw: RawIterator
    var direction: Direction
    var justSeeked: bool

    ghost predicate Valid()
      reads this, raw
    {
      raw.Valid()
    }

    function State(): IterState
      reads this, raw
    {
      IterState(raw.pos, direction, justSeeked)
    }

    /** `DBIterator::new`: a fresh cursor over `space`, positioned by `mode`. */
    constructor (space: KeySpace, mode: IteratorMode)
      requires space.Wf()
      ensures Valid() && fresh(raw) && raw.space == space
      ensures State() == SetModeState(space, mode)
    {
      raw := new RawIterator(space);
      direction := Forward;
      justSeeked := false;
      new;
      SetMode(mode);
    }

    /** `set_mode`: repositions the cursor, fixes the direction and raises the flag. */
    method SetMode(mode: IteratorMode)
      requires Valid()
      modifies this, raw
      ensures Valid()
      ensures State() == SetModeState(raw.space, mode)
      ensures justSeeked
      ensures mode.Start? ==> direction == Forward && raw.pos == FirstPos(|raw.space.keys|)
      ensures mode.End? ==> direction == Reverse && raw.pos == LastPos(|raw.space.keys|)
      ensures mode.From? ==> direction == mode.dir && raw.pos == SeekPos(raw.space.keys, mode.key)
    {
      match mode {
        case Start =>
          raw.SeekToFirst();
          direction := Forward;
        case End =>
          raw.SeekToLast();
          direction := Reverse;
        case From(key, dir) =>
          raw.Seek(key);
          direction := dir;
      }
      justSeeked := true;
    }

    /** `valid`: whether the underlying cursor is on an entry. */
    predicate IsValid()
      reads this, raw
      requires Valid()
      ensures IsValid() <==> Yield(raw.space, raw.pos).Some?
    {
      raw.IsValid()
    }

    /**
     * `Iterator::next`: the first call after a seek leaves the cursor where it
     * landed; every later call makes exactly one raw step in the iterator's
     * direction. The item is the entry under the cursor, or `None` when the
     * cursor is not valid.
     */
    method Next() returns (item: Option<(Key, Value)>)
      requires Valid()
      modifies this, raw
      ensures Valid()
      ensures State() == NextState(|raw.space.keys|, old(State()))
      ensures old(justSeeked) ==> raw.pos == old(raw.pos)
      ensures !old(justSeeked) ==> raw.pos == Step(|raw.space.keys|, direction, old(raw.pos))
      ensures !justSeeked && direction == old(direction)
      ensures item == Yield(raw.space, raw.pos)
      ensures item.Some? <==> raw.IsValid()
    {
      if !justSeeked {
        match direction {
          case Forward => raw.Next();
          case Reverse => raw.Prev();
        }
      } else {
        justSeeked := false;
      }
      if raw.IsValid() {
        var k := raw.Key();
        var v := raw.Value();
        item := Some((k.value, v.value));
      } else {
        item := None;
      }
    }
  }

  /**
   * A `for (key, value) in iter` loop: calls `next` until it returns `None`
   * and gathers what it yielded, which is exactly `Collect` of the state the
   * loop started from.
   */
  method Drain(it: DBIterator) returns (items: seq<(Key, Value)>)
    requires it.Valid()
    modifies it, it.raw
    ensures it.Valid()
    ensures items == Collect(it.raw.space, old(it.State()))
  {
    ghost var space := it.raw.space;
    ghost var start := it.State();
    items := [];
    while true
      invariant it.Valid() && it.raw.space == space
      invariant items + Collect(space, it.State()) == Collect(space, start)
      decreases Remaining(|space.keys|, it.State())
    {
      ghost var before := it.State();
      var item := it.Next();
      if item.None? {
        assert Collect(space, before) == [];
        break;
      }
      assert Collect(space, before) == [item.value] + Collect(space, it.State());
      items := items + [item.value];
    }
  }

  /**
   * `DB::iterator(mode)` consumed by a `for` loop: a new iterator over the
   * key space, drained. From `Start` it yields every entry in increasing key
   * order, from `End` every entry in decreasing key order.
   */
  method IterateAll(space: KeySpace, mode: IteratorMode) returns (items: seq<(Key, Value)>)
    requires space.Wf()
    ensures items == Collect(space, SetModeState(space, mode))
    ensures mode.Start? ==> items == space.Entries() && KeysOf(items) == space.keys
    ensures mode.End? ==> items == Reversed(space.Entries()) && StrictlyDecreasing(KeysOf(items))
  {
    var it := new DBIterator(space, mode);
    items := Drain(it);
    if mode.Start? {
      IterateFromStart(space);
    } else if mode.End? {
      IterateFromEnd(space);
    }
  }
}
