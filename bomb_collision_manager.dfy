/**
 * Per-frame bomb-to-bomb collision bookkeeping. Bombs report touching pairs
 * during a frame; each unordered pair is kept once, and on the next fixed
 * tick every kept pair goes through a three-way movement-transfer rule, after
 * which the frame's list and key set are emptied.
 */
module BombCollision {
  import opened Bombs
  import opened PairKeys

  /** Two bombs reported as touching in this frame. */
  datatype CollisionPair = CollisionPair(bombA: Bomb, bombB: Bomb)

  function KeyOf(p: CollisionPair): string
  {
    CreatePairKey(p.bombA.id, p.bombB.id)
  }

  function KeySet(ps: seq<CollisionPair>): set<string>
  {
    set p | p in ps :: KeyOf(p)
  }

  /** No two entries share a key. */
  predicate DistinctKeys(ps: seq<CollisionPair>)
  {
    forall i, j :: 0 <= i < j < |ps| ==> KeyOf(ps[i]) != KeyOf(ps[j])
  }

  /** No two entries are the same unordered pair of instance IDs. */
  predicate NoRepeatedPair(ps: seq<CollisionPair>)
  {
    forall i, j :: 0 <= i < j < |ps| ==>
      !SameUnorderedPair(ps[i].bombA.id, ps[i].bombB.id, ps[j].bombA.id, ps[j].bombB.id)
  }

  /** Keeping keys distinct is exactly keeping unordered ID pairs distinct. */
  lemma DistinctKeysIffNoRepeatedPair(ps: seq<CollisionPair>)
    ensures DistinctKeys(ps) <==> NoRepeatedPair(ps)
  {
    forall i, j | 0 <= i < j < |ps|
      ensures KeyOf(ps[i]) == KeyOf(ps[j])
          <==> SameUnorderedPair(ps[i].bombA.id, ps[i].bombB.id, ps[j].bombA.id, ps[j].bombB.id)
    {
      CreatePairKeyInjective(ps[i].bombA.id, ps[i].bombB.id, ps[j].bombA.id, ps[j].bombB.id);
    }
  }

  /** With distinct keys, the list is exactly as long as its key set is large. */
  lemma {:induction false} KeyCount(ps: seq<CollisionPair>)
    requires DistinctKeys(ps)
    ensures |KeySet(ps)| == |ps|
    decreases |ps|
  {
    if ps != [] {
      var init, last := ps[..|ps| - 1], ps[|ps| - 1];
      assert ps == init + [last];
      assert KeySet(ps) == KeySet(init) + {KeyOf(last)};
      assert KeyOf(last) !in KeySet(init) by {
        forall p | p in init ensures KeyOf(p) != KeyOf(last) {
          var i :| 0 <= i < |init| && init[i] == p;
          assert ps[i] == p;
        }
      }
      KeyCount(init);
    }
  }

  /** The frame's list after the collision of `a` and `b` is registered. */
  function Registered(ps: seq<CollisionPair>, a: Bomb, b: Bomb): (r: seq<CollisionPair>)
    ensures KeySet(r) == KeySet(ps) + {CreatePairKey(a.id, b.id)}
    ensures DistinctKeys(ps) ==> DistinctKeys(r)
    ensures r == ps || r == ps + [CollisionPair(a, b)]
  {
    if CreatePairKey(a.id, b.id) in KeySet(ps) then ps
    else
      KeySetAppend(ps, CollisionPair(a, b));
      ps + [CollisionPair(a, b)]
  }

  lemma KeySetAppend(ps: seq<CollisionPair>, p: CollisionPair)
    ensures KeySet(ps + [p]) == KeySet(ps) + {KeyOf(p)}
  {
    assert forall q :: q in ps + [p] <==> q in ps || q == p;
  }

  /**
   * Registering appends the pair exactly when no entry already holds the same
   * unordered pair of IDs, whichever bomb it was reported by.
   */
  lemma RegisteredAppendsIffNew(ps: seq<CollisionPair>, a: Bomb, b: Bomb)
    ensures (exists i :: 0 <= i < |ps| && SameUnorderedPair(ps[i].bombA.id, ps[i].bombB.id, a.id, b.id))
        ==> Registered(ps, a, b) == ps
    ensures (forall i :: 0 <= i < |ps| ==> !SameUnorderedPair(ps[i].bombA.id, ps[i].bombB.id, a.id, b.id))
        ==> Registered(ps, a, b) == ps + [CollisionPair(a, b)]
  {
    var key := CreatePairKey(a.id, b.id);
    if exists i :: 0 <= i < |ps| && SameUnorderedPair(ps[i].bombA.id, ps[i].bombB.id, a.id, b.id) {
      var i :| 0 <= i < |ps| && SameUnorderedPair(ps[i].bombA.id, ps[i].bombB.id, a.id, b.id);
      CreatePairKeyInjective(ps[i].bombA.id, ps[i].bombB.id, a.id, b.id);
      assert KeyOf(ps[i]) in KeySet(ps);
    } else {
      forall p | p in ps ensures KeyOf(p) != key {
        var i :| 0 <= i < |ps| && ps[i] == p;
        CreatePairKeyInjective(p.bombA.id, p.bombB.id, a.id, b.id);
      }
    }
  }

  /** A pair reported by both of its bombs in one frame is kept once. */
  lemma RegisteredBothOrders(ps: seq<CollisionPair>, a: Bomb, b: Bomb)
    ensures Registered(Registered(ps, a, b), b, a) == Registered(ps, a, b)
    ensures Registered(Registered(ps, a, b), a, b) == Registered(ps, a, b)
  {
    CreatePairKeySymmetric(a.id, b.id);
  }

  // The movement-transfer rule, on a snapshot of the bombs' states.

  predicate Involved(st: map<Bomb, BombState>, p: CollisionPair)
  {
    p.bombA in st && p.bombB in st
  }

  /**
   * The Stop and Knock calls issued for one pair, decided by both bombs'
   * moving flags as they are when the pair's processing begins.
   */
  function PairCalls(st: map<Bomb, BombState>, p: CollisionPair): (calls: seq<Call>)
    requires Involved(st, p)
    ensures Targets(st, calls)
    ensures |calls| <= 2
    ensures forall i :: 0 <= i < |calls| ==> calls[i].target == p.bombA || calls[i].target == p.bombB
  {
    var a, b := st[p.bombA], st[p.bombB];
    if a.moving && b.moving then [StopCall(p.bombA), StopCall(p.bombB)]
    else if a.moving then [KnockCall(p.bombB, a.direction), StopCall(p.bombA)]
    else if b.moving then [KnockCall(p.bombA, b.direction), StopCall(p.bombB)]
    else []
  }

  /** The bombs' states after one pair is processed. */
  function Step(st: map<Bomb, BombState>, p: CollisionPair): (r: map<Bomb, BombState>)
    requires Involved(st, p)
    ensures r.Keys == st.Keys
  {
    ApplyCalls(st, PairCalls(st, p))
  }

  predicate AllInvolved(st: map<Bomb, BombState>, ps: seq<CollisionPair>)
  {
    forall i :: 0 <= i < |ps| ==> Involved(st, ps[i])
  }

  /** The bombs' states after the pairs are processed in registration order. */
  function Run(st: map<Bomb, BombState>, ps: seq<CollisionPair>): (r: map<Bomb, BombState>)
    requires AllInvolved(st, ps)
    ensures r.Keys == st.Keys
    decreases |ps|
  {
    if ps == [] then st else Step(Run(st, ps[..|ps| - 1]), ps[|ps| - 1])
  }

  /** The calls issued while the pairs are processed in registration order. */
  function RunCalls(st: map<Bomb, BombState>, ps: seq<CollisionPair>): seq<Call>
    requires AllInvolved(st, ps)
    decreases |ps|
  {
    if ps == [] then [] else RunCalls(st, ps[..|ps| - 1]) + PairCalls(Run(st, ps[..|ps| - 1]), ps[|ps| - 1])
  }

  /** Both bombs moving: both are stopped and neither is knocked. */
  lemma BothMovingBothStop(st: map<Bomb, BombState>, p: CollisionPair)
    requires Involved(st, p) && st[p.bombA].moving && st[p.bombB].moving
    ensures PairCalls(st, p) == [StopCall(p.bombA), StopCall(p.bombB)]
    ensures Step(st, p)[p.bombA] == HALTED && Step(st, p)[p.bombB] == HALTED
  {
    var calls := PairCalls(st, p);
    ApplyTwoCalls(st, calls[0], calls[1]);
  }

  /**
   * Only the first bomb moving: the resting second bomb is knocked with the
   * first bomb's direction, read before the first bomb is stopped; then the
   * first bomb is stopped. A bomb at rest that had no direction ends up
   * moving in exactly the mover's direction.
   */
  lemma FirstMovingKnocksSecond(st: map<Bomb, BombState>, p: CollisionPair)
    requires Involved(st, p) && st[p.bombA].moving && !st[p.bombB].moving
    ensures PairCalls(st, p) == [KnockCall(p.bombB, st[p.bombA].direction), StopCall(p.bombA)]
    ensures Step(st, p)[p.bombA] == HALTED
    ensures Step(st, p)[p.bombB] == BombState(true, Add(st[p.bombB].direction, st[p.bombA].direction))
    ensures AtRestHasNoDirection(st) ==> Step(st, p)[p.bombB] == BombState(true, st[p.bombA].direction)
  {
    var calls := PairCalls(st, p);
    ApplyTwoCalls(st, calls[0], calls[1]);
  }

  /** Only the second bomb moving: the mirror image of FirstMovingKnocksSecond. */
  lemma SecondMovingKnocksFirst(st: map<Bomb, BombState>, p: CollisionPair)
    requires Involved(st, p) && !st[p.bombA].moving && st[p.bombB].moving
    ensures PairCalls(st, p) == [KnockCall(p.bombA, st[p.bombB].direction), StopCall(p.bombB)]
    ensures Step(st, p)[p.bombB] == HALTED
    ensures Step(st, p)[p.bombA] == BombState(true, Add(st[p.bombA].direction, st[p.bombB].direction))
    ensures AtRestHasNoDirection(st) ==> Step(st, p)[p.bombA] == BombState(true, st[p.bombB].direction)
  {
    var calls := PairCalls(st, p);
    ApplyTwoCalls(st, calls[0], calls[1]);
  }

  /** Neither bomb moving: no call is issued and nothing changes. */
  lemma NeitherMovingNoCalls(st: map<Bomb, BombState>, p: CollisionPair)
    requires Involved(st, p) && !st[p.bombA].moving && !st[p.bombB].moving
    ensures PairCalls(st, p) == []
    ensures Step(st, p) == st
  {
  }

  /** Processing a pair leaves every other bomb as it was. */
  lemma StepFrame(st: map<Bomb, BombState>, p: CollisionPair, c: Bomb)
    requires Involved(st, p) && c in st && c != p.bombA && c != p.bombB
    ensures Step(st, p)[c] == st[c]
  {
    ApplyCallsFrame(st, PairCalls(st, p), c);
  }

  /** The states a tick leaves are exactly the effect of the calls it issues, in order. */
  lemma {:induction false} RunIsEffectOfCalls(st: map<Bomb, BombState>, ps: seq<CollisionPair>)
    requires AllInvolved(st, ps)
    ensures Targets(st, RunCalls(st, ps))
    ensures Run(st, ps) == ApplyCalls(st, RunCalls(st, ps))
    decreases |ps|
  {
    if ps != [] {
      var init, last := ps[..|ps| - 1], ps[|ps| - 1];
      RunIsEffectOfCalls(st, init);
      var xs, ys := RunCalls(st, init), PairCalls(Run(st, init), last);
      assert Targets(st, xs + ys) by {
        assert Run(st, init).Keys == st.Keys;
      }
      ApplyCallsConcat(st, xs, ys);
    }
  }

  /** A bomb that is in none of the pairs is left as it was. */
  lemma {:induction false} RunFrame(st: map<Bomb, BombState>, ps: seq<CollisionPair>, c: Bomb)
    requires AllInvolved(st, ps) && c in st
    requires forall i :: 0 <= i < |ps| ==> c != ps[i].bombA && c != ps[i].bombB
    ensures Run(st, ps)[c] == st[c]
    decreases |ps|
  {
    if ps != [] {
      var init := ps[..|ps| - 1];
      RunFrame(st, init, c);
      StepFrame(Run(st, init), ps[|ps| - 1], c);
    }
  }

  /** A tick keeps every resting bomb direction-free. */
  lemma {:induction false} RunKeepsAtRest(st: map<Bomb, BombState>, ps: seq<CollisionPair>)
    requires AllInvolved(st, ps) && AtRestHasNoDirection(st)
    ensures AtRestHasNoDirection(Run(st, ps))
    decreases |ps|
  {
    if ps != [] {
      var init := ps[..|ps| - 1];
      RunKeepsAtRest(st, init);
      ApplyCallsKeepsAtRest(Run(st, init), PairCalls(Run(st, init), ps[|ps| - 1]));
    }
  }

  /** Processing one more pair of `ps` extends the run by one step. */
  lemma RunExtend(st: map<Bomb, BombState>, ps: seq<CollisionPair>, i: nat)
    requires AllInvolved(st, ps) && i < |ps|
    ensures AllInvolved(st, ps[..i]) && AllInvolved(st, ps[..i + 1])
    ensures Run(st, ps[..i + 1]) == Step(Run(st, ps[..i]), ps[i])
    ensures RunCalls(st, ps[..i + 1]) == RunCalls(st, ps[..i]) + PairCalls(Run(st, ps[..i]), ps[i])
  {
    assert ps[..i + 1][..i] == ps[..i];
  }

  /**
   * Regrouping a concatenation. Stated as a lemma so that the loop in
   * ProcessMovementTransfers gets this one instance and nothing more.
   */
  lemma AppendAssociative<T>(a: seq<T>, b: seq<T>, c: seq<T>)
    ensures (a + b) + c == a + (b + c)
  {
  }

  /** Every bomb named by a pair in `ps`. */
  function InFrame(ps: seq<CollisionPair>): (bombs: set<Bomb>)
    ensures forall i :: 0 <= i < |ps| ==> ps[i].bombA in bombs && ps[i].bombB in bombs
  {
    (set p | p in ps :: p.bombA) + (set p | p in ps :: p.bombB)
  }

  class BombCollisionManager {
    var currentFrameCollisions: seq<CollisionPair>
    var processedPairsThisFrame: set<string>
    /** The Stop and Knock calls this manager has issued, in order. */
    ghost var issued: seq<Call>

    /** The key set holds exactly the keys of the listed pairs, none twice. */
    ghost predicate Valid()
      reads this
    {
      processedPairsThisFrame == KeySet(currentFrameCollisions) && DistinctKeys(currentFrameCollisions)
    }

    constructor ()
      ensures Valid() && currentFrameCollisions == [] && processedPairsThisFrame == {} && issued == []
    {
      currentFrameCollisions := [];
      processedPairsThisFrame := {};
      issued := [];
    }

    method RegisterCollision(bombA: Bomb, bombB: Bomb)
      requires Valid()
      modifies this`currentFrameCollisions, this`processedPairsThisFrame
      ensures Valid()
      ensures |currentFrameCollisions| == |processedPairsThisFrame|
      ensures currentFrameCollisions == Registered(old(currentFrameCollisions), bombA, bombB)
      ensures var key := CreatePairKey(bombA.id, bombB.id);
              if key in old(processedPairsThisFrame) then
                currentFrameCollisions == old(currentFrameCollisions)
                && processedPairsThisFrame == old(processedPairsThisFrame)
              else
                currentFrameCollisions == old(currentFrameCollisions) + [CollisionPair(bombA, bombB)]
                && processedPairsThisFrame == old(processedPairsThisFrame) + {key}
    {
      ghost var ps := currentFrameCollisions;
      var pairKey := CreatePairKey(bombA.id, bombB.id);
      if pairKey !in processedPairsThisFrame {
        currentFrameCollisions := currentFrameCollisions + [CollisionPair(bombA, bombB)];
        processedPairsThisFrame := processedPairsThisFrame + {pairKey};
      }
      assert currentFrameCollisions == Registered(ps, bombA, bombB);
      KeyCount(currentFrameCollisions);
    }

    /** Applies the three-way movement-transfer rule to one pair. */
    method ProcessCollisionPair(pair: CollisionPair, ghost bombs: set<Bomb>)
      requires pair.bombA in bombs && pair.bombB in bombs
      modifies pair.bombA, pair.bombB, this`issued
      ensures Snapshot(bombs) == Step(old(Snapshot(bombs)), pair)
      ensures issued == old(issued) + PairCalls(old(Snapshot(bombs)), pair)
    {
      ghost var st := Snapshot(bombs);
      ghost var want := Step(st, pair);
      forall c: Bomb | c in bombs && c != pair.bombA && c != pair.bombB
        ensures want[c] == st[c]
      {
        StepFrame(st, pair, c);
      }
      ghost var before := issued;
      var aMoving := pair.bombA.IsMoving();
      var bMoving := pair.bombB.IsMoving();
      if aMoving && bMoving {
        BothMovingBothStop(st, pair);
        pair.bombA.Stop();
        issued := issued + [StopCall(pair.bombA)];
        pair.bombB.Stop();
        issued := issued + [StopCall(pair.bombB)];
      } else if aMoving {
        FirstMovingKnocksSecond(st, pair);
        var d := pair.bombA.GetMoveDirection();
        pair.bombB.Knock(d);
        issued := issued + [KnockCall(pair.bombB, d)];
        pair.bombA.Stop();
        issued := issued + [StopCall(pair.bombA)];
      } else if bMoving {
        SecondMovingKnocksFirst(st, pair);
        var d := pair.bombB.GetMoveDirection();
        pair.bombA.Knock(d);
        issued := issued + [KnockCall(pair.bombA, d)];
        pair.bombB.Stop();
        issued := issued + [StopCall(pair.bombB)];
      }
      assert issued == before + PairCalls(st, pair);
      forall c: Bomb | c in bombs
        ensures want[c] == BombState(c.moving, c.direction)
      {
        if c != pair.bombA && c != pair.bombB {
          assert want[c] == st[c] == old(BombState(c.moving, c.direction));
        }
      }
      SnapshotIs(bombs, want);
    }

    /** Processes the frame's pairs in registration order. */
    method ProcessMovementTransfers()
      modifies this`issued, InFrame(currentFrameCollisions)
      ensures Snapshot(InFrame(currentFrameCollisions))
           == Run(old(Snapshot(InFrame(currentFrameCollisions))), currentFrameCollisions)
      ensures issued == old(issued) + RunCalls(old(Snapshot(InFrame(currentFrameCollisions))), currentFrameCollisions)
    {
      var pairs := currentFrameCollisions;
      ghost var bombs := InFrame(pairs);
      ghost var st := Snapshot(bombs);
      ghost var issued0 := issued;
      var i := 0;
      while i < |pairs|
        invariant 0 <= i <= |pairs|
        invariant AllInvolved(st, pairs[..i])
        invariant Snapshot(bombs) == Run(st, pairs[..i])
        invariant issued == issued0 + RunCalls(st, pairs[..i])
      {
        RunExtend(st, pairs, i);
        AppendAssociative(issued0, RunCalls(st, pairs[..i]), PairCalls(Run(st, pairs[..i]), pairs[i]));
        ProcessCollisionPair(pairs[i], bombs);
        i := i + 1;
      }
      assert pairs[..i] == pairs;
    }

    method ProcessAllCollisions()
      modifies this`issued, InFrame(currentFrameCollisions)
      ensures Snapshot(InFrame(currentFrameCollisions))
           == Run(old(Snapshot(InFrame(currentFrameCollisions))), currentFrameCollisions)
      ensures issued == old(issued) + RunCalls(old(Snapshot(InFrame(currentFrameCollisions))), currentFrameCollisions)
    {
      if |currentFrameCollisions| == 0 {
        return;
      }
      ProcessMovementTransfers();
    }

    method ClearFrameData()
      modifies this`currentFrameCollisions, this`processedPairsThisFrame
      ensures Valid() && currentFrameCollisions == [] && processedPairsThisFrame == {}
    {
      currentFrameCollisions := [];
      processedPairsThisFrame := {};
    }

    /**
     * One fixed tick: every registered pair is processed in registration
     * order, then the frame's list and key set are emptied. Bombs outside
     * the frame are not touched (the modifies clause).
     */
    method FixedUpdate()
      modifies this, InFrame(currentFrameCollisions)
      ensures Valid() && currentFrameCollisions == [] && processedPairsThisFrame == {}
      ensures Snapshot(InFrame(old(currentFrameCollisions)))
           == Run(old(Snapshot(InFrame(currentFrameCollisions))), old(currentFrameCollisions))
      ensures issued == old(issued) + RunCalls(old(Snapshot(InFrame(currentFrameCollisions))), old(currentFrameCollisions))
      ensures old(currentFrameCollisions) == [] ==> issued == old(issued)
    {
      ProcessAllCollisions();
      ClearFrameData();
    }
  }

  /** Two bombs reporting each other in one frame leave a single entry. */
  method RegisterFromBothSides(a: Bomb, b: Bomb) returns (entries: nat)
    ensures entries == 1
  {
    var manager := new BombCollisionManager();
    manager.RegisterCollision(a, b);
    manager.RegisterCollision(b, a);
    CreatePairKeySymmetric(a.id, b.id);
    entries := |manager.currentFrameCollisions|;
  }

  /**
   * A moving bomb registered against a resting one: after the tick the mover
   * is halted, the other bomb moves in the mover's direction, and the frame
   * is empty.
   */
  method TransferScenario(d: Vec3) returns (moverMoving: bool, hitMoving: bool, hitDirection: Vec3, left: nat)
    ensures !moverMoving && hitMoving && hitDirection == d && left == 0
  {
    var mover := new Bomb(1);
    var hit := new Bomb(2);
    mover.Knock(d);
    var manager := new BombCollisionManager();
    manager.RegisterCollision(hit, mover);
    var pair := CollisionPair(hit, mover);
    ghost var st := map[mover := BombState(true, d), hit := HALTED];
    SnapshotIs({mover, hit}, st);
    assert Run(st, [pair]) == Step(st, pair) by {
      assert [pair][..0] == [];
    }
    SecondMovingKnocksFirst(st, pair);
    ghost var want := Step(st, pair);
    assert want[mover] == HALTED && want[hit] == BombState(true, d);
    assert manager.currentFrameCollisions == [pair];
    assert InFrame(manager.currentFrameCollisions) == {mover, hit};
    manager.FixedUpdate();
    assert Snapshot({mover, hit}) == want;
    moverMoving := mover.moving;
    hitMoving := hit.moving;
    hitDirection := hit.direction;
    left := |manager.currentFrameCollisions|;
  }
}
