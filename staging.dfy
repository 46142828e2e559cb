/**
 * Staging: the builder's per-state record for one visual property, the
 * write that stages a value under the cursor, and the read that resolves it
 * for one state.
 */
module Staging {
  import opened Wrappers
  import opened UIKit
  import opened ButtonStyleKit

  /** `Property<T>`: one optional slot per concrete state. */
  datatype Property<T> = Property(normal: Option<T>, highlighted: Option<T>, selected: Option<T>, disabled: Option<T>)

  /** A record with nothing staged, as every record starts. */
  function Unstaged<T>(): (p: Property<T>)
    ensures forall c :: Slot(p, c) == None
  {
    Property(None, None, None, None)
  }

  /** The slot for a concrete state. */
  function Slot<T>(p: Property<T>, c: ControlState): (r: Option<T>) {
    match c
    case Normal => p.normal
    case Highlighted => p.highlighted
    case Selected => p.selected
    case Disabled => p.disabled
  }

  /**
   * `attachProperty`: the staged value for `state`. Under `.all` nothing is
   * resolved, whatever is staged.
   */
  function Attach<T>(p: Property<T>, state: ButtonState): (r: Option<T>)
    ensures state == All ==> r == None
    ensures forall c :: GetState(state) == Some(c) ==> r == Slot(p, c)
  {
    match state
    case All => None
    case Normal => p.normal
    case Highlighted => p.highlighted
    case Selected => p.selected
    case Disabled => p.disabled
  }

  /**
   * `setProperty`: stage `value` under cursor `state`. The value lands in
   * exactly the slots the cursor covers (all four for `.all`, one otherwise);
   * every other slot keeps what it held.
   */
  function Stage<T>(p: Property<T>, state: ButtonState, value: T): (r: Property<T>)
    ensures forall c :: Slot(r, c) == if Covers(state, c) then Some(value) else Slot(p, c)
  {
    match state
    case All => Property(Some(value), Some(value), Some(value), Some(value))
    case Normal => p.(normal := Some(value))
    case Highlighted => p.(highlighted := Some(value))
    case Selected => p.(selected := Some(value))
    case Disabled => p.(disabled := Some(value))
  }

  /** Staging under `.all` makes every concrete state resolve to the value. */
  lemma StageAllStates<T>(p: Property<T>, value: T, c: ControlState)
    ensures Attach(Stage(p, All, value), AsButtonState(c)) == Some(value)
  {
  }

  /**
   * Staging under a concrete state makes that state resolve to the value and
   * leaves the other three states as they were.
   */
  lemma StageOneState<T>(p: Property<T>, state: ButtonState, value: T, other: ButtonState)
    requires state != All && other != All && other != state
    ensures Attach(Stage(p, state, value), state) == Some(value)
    ensures Attach(Stage(p, state, value), other) == Attach(p, other)
  {
    var c, c' := GetState(state).value, GetState(other).value;
    assert !Covers(state, c');
  }

  /** Last write wins: staging v1 and then v2 under the same state resolves to v2. */
  lemma StageLastWriteWins<T>(p: Property<T>, state: ButtonState, v1: T, v2: T)
    requires state != All
    ensures Attach(Stage(Stage(p, state, v1), state, v2), state) == Some(v2)
  {
  }

  /**
   * A chain of staged writes to one property, each made under the cursor in
   * force at the time, applied in call order.
   */
  function StageChain<T>(p: Property<T>, writes: seq<(ButtonState, T)>): (r: Property<T>)
    decreases |writes|
  {
    if writes == [] then p else StageChain(Stage(p, writes[0].0, writes[0].1), writes[1..])
  }

  /** The value of the last write in `writes` whose cursor covers `c`, if any. */
  function LastCovering<T>(writes: seq<(ButtonState, T)>, c: ControlState): (r: Option<T>)
    decreases |writes|
  {
    if writes == [] then None
    else if Covers(writes[|writes| - 1].0, c) then Some(writes[|writes| - 1].1)
    else LastCovering(writes[..|writes| - 1], c)
  }

  lemma {:induction false} StageChainSnoc<T>(p: Property<T>, writes: seq<(ButtonState, T)>, w: (ButtonState, T))
    ensures StageChain(p, writes + [w]) == Stage(StageChain(p, writes), w.0, w.1)
    decreases |writes|
  {
    if writes == [] {
      assert writes + [w] == [w];
      assert [w][1..] == [];
    } else {
      assert (writes + [w])[1..] == writes[1..] + [w];
      StageChainSnoc(Stage(p, writes[0].0, writes[0].1), writes[1..], w);
    }
  }

  /**
   * At most one value is staged per property and state, and it is the last
   * one written to a cursor covering that state; a state no write covered
   * keeps the slot it had before the chain.
   */
  lemma {:induction false} StageChainLastWriteWins<T>(p: Property<T>, writes: seq<(ButtonState, T)>, c: ControlState)
    ensures Slot(StageChain(p, writes), c) == match LastCovering(writes, c)
                                              case Some(v) => Some(v)
                                              case None => Slot(p, c)
    decreases |writes|
  {
    if writes != [] {
      var init, w := writes[..|writes| - 1], writes[|writes| - 1];
      assert writes == init + [w];
      StageChainSnoc(p, init, w);
      StageChainLastWriteWins(p, init, c);
    }
  }
}
