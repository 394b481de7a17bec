/**
 * The part of a bomb that the collision manager sees: its instance ID, whether
 * it is moving, and its move direction, together with the two calls the
 * manager issues on it (Stop and Knock).
 */
module Bombs {

  /** A direction in the arena. */
  datatype Vec3 = Vec3(x: real, y: real, z: real)

  const ZERO: Vec3 := Vec3(0.0, 0.0, 0.0)

  function Add(u: Vec3, v: Vec3): Vec3
  {
    Vec3(u.x + v.x, u.y + v.y, u.z + v.z)
  }

  class Bomb {
    /** The engine's instance ID; fixed for the object's lifetime. */
    const id: int
    var moving: bool
    var direction: Vec3

    /** A freshly spawned bomb is at rest. */
    constructor (id: int)
      ensures this.id == id && !moving && direction == ZERO
    {
      this.id := id;
      moving := false;
      direction := ZERO;
    }

    method IsMoving() returns (m: bool)
      ensures m == moving
    {
      m := moving;
    }

    method GetMoveDirection() returns (d: Vec3)
      ensures d == direction
    {
      d := direction;
    }

    /** Halts the bomb: not moving, no direction. */
    method Stop()
      modifies this
      ensures !moving && direction == ZERO
    {
      moving := false;
      direction := ZERO;
    }

    /** Sets the bomb moving; the knock direction is added to its own. */
    method Knock(d: Vec3)
      modifies this
      ensures moving && direction == Add(old(direction), d)
    {
      moving := true;
      direction := Add(direction, d);
    }
  }

  /** The value of a bomb's movement fields at one moment. */
  datatype BombState = BombState(moving: bool, direction: Vec3)

  const HALTED: BombState := BombState(false, ZERO)

  /** The movement state of every bomb in `bombs`, read from the heap. */
  function Snapshot(bombs: set<Bomb>): (st: map<Bomb, BombState>)
    reads bombs
    ensures st.Keys == bombs
    ensures forall b :: b in bombs ==> st[b] == BombState(b.moving, b.direction)
  {
    map b | b in bombs :: BombState(b.moving, b.direction)
  }

  /** A map that agrees with every bomb's fields is the snapshot. */
  lemma SnapshotIs(bombs: set<Bomb>, st: map<Bomb, BombState>)
    requires st.Keys == bombs
    requires forall b :: b in bombs ==> st[b] == BombState(b.moving, b.direction)
    ensures Snapshot(bombs) == st
  {
  }

  /** A Stop or Knock call issued on a bomb. */
  datatype Call = StopCall(target: Bomb) | KnockCall(target: Bomb, direction: Vec3)

  /** What one call does to the movement state of its target, and to nothing else. */
  function ApplyCall(st: map<Bomb, BombState>, c: Call): (r: map<Bomb, BombState>)
    requires c.target in st
    ensures r.Keys == st.Keys
    ensures forall b :: b in st && b != c.target ==> r[b] == st[b]
    ensures r[c.target].moving == c.KnockCall?
  {
    match c
    case StopCall(b) => st[b := HALTED]
    case KnockCall(b, d) => st[b := BombState(true, Add(st[b].direction, d))]
  }

  predicate Targets(st: map<Bomb, BombState>, calls: seq<Call>)
  {
    forall i :: 0 <= i < |calls| ==> calls[i].target in st
  }

  /** The state after issuing `calls` in order. */
  function ApplyCalls(st: map<Bomb, BombState>, calls: seq<Call>): (r: map<Bomb, BombState>)
    requires Targets(st, calls)
    ensures r.Keys == st.Keys
    decreases |calls|
  {
    if calls == [] then st else ApplyCalls(ApplyCall(st, calls[0]), calls[1..])
  }

  /** Issuing a two-call trace is issuing its calls one after the other. */
  lemma ApplyTwoCalls(st: map<Bomb, BombState>, c1: Call, c2: Call)
    requires c1.target in st && c2.target in st
    ensures ApplyCalls(st, [c1, c2]) == ApplyCall(ApplyCall(st, c1), c2)
  {
    var mid := ApplyCall(st, c1);
    assert [c1, c2][1..] == [c2];
    assert [c2][1..] == [];
    assert ApplyCalls(mid, [c2]) == ApplyCalls(ApplyCall(mid, c2), []);
  }

  /** Issuing two traces one after the other is issuing their concatenation. */
  lemma {:induction false} ApplyCallsConcat(st: map<Bomb, BombState>, xs: seq<Call>, ys: seq<Call>)
    requires Targets(st, xs + ys)
    ensures Targets(st, xs) && Targets(ApplyCalls(st, xs), ys)
    ensures ApplyCalls(st, xs + ys) == ApplyCalls(ApplyCalls(st, xs), ys)
    decreases |xs|
  {
    assert forall i :: 0 <= i < |xs| ==> xs[i] == (xs + ys)[i];
    assert forall i :: 0 <= i < |ys| ==> ys[i] == (xs + ys)[|xs| + i];
    if xs != [] {
      assert (xs + ys)[1..] == xs[1..] + ys;
      ApplyCallsConcat(ApplyCall(st, xs[0]), xs[1..], ys);
    } else {
      assert xs + ys == ys;
    }
  }

  /** A bomb that is not the target of any call keeps its state. */
  lemma {:induction false} ApplyCallsFrame(st: map<Bomb, BombState>, calls: seq<Call>, b: Bomb)
    requires Targets(st, calls) && b in st
    requires forall i :: 0 <= i < |calls| ==> calls[i].target != b
    ensures ApplyCalls(st, calls)[b] == st[b]
    decreases |calls|
  {
    if calls != [] {
      ApplyCallsFrame(ApplyCall(st, calls[0]), calls[1..], b);
    }
  }

  /** Every bomb at rest has no direction (the state Stop leaves behind). */
  predicate AtRestHasNoDirection(st: map<Bomb, BombState>)
  {
    forall b :: b in st && !st[b].moving ==> st[b].direction == ZERO
  }

  /** No call takes a bomb out of that discipline. */
  lemma {:induction false} ApplyCallsKeepsAtRest(st: map<Bomb, BombState>, calls: seq<Call>)
    requires Targets(st, calls) && AtRestHasNoDirection(st)
    ensures AtRestHasNoDirection(ApplyCalls(st, calls))
    decreases |calls|
  {
    if calls != [] {
      ApplyCallsKeepsAtRest(ApplyCall(st, calls[0]), calls[1..]);
    }
  }
}
