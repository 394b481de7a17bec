# BattleBombers: bomb collision bookkeeping and player attributes

This project models two small parts of the BattleBombers game server in Dafny and proves properties of them.

**The bomb collision manager** (`BombCollisionManager`). During a frame, bombs report pairs of bombs that touch. The manager keeps two containers:

- a list of the reported pairs;
- a set of pair keys. A key is the two instance IDs, smaller first, written in decimal and joined by `_`.

A pair is listed only when its key is new. So a pair reported by both of its bombs is kept once.

On every fixed tick, each listed pair is processed in registration order, by a three-way rule:

- both bombs moving: both are stopped;
- one bomb moving: the resting bomb is knocked in the mover's direction, then the mover is stopped;
- neither moving: nothing happens.

Both containers are then emptied.

**Player attributes** (`PlayerAttributes`). These are integer fields:

- Raising health caps it at `MaxHealth`; lowering it floors it at 0. Neither operation clamps on the other side, so health stays in `[0, MaxHealth]` only when it starts there and the amount is not negative.
- Bomb power and the bomb limit grow by the amount added.
- Every write of the current health raises a health-changed event.

## Layout

- `pair_key.dfy`, module `PairKeys`. Decimal formatting of integers and `CreatePairKey`. Proves that the key does not depend on the order of the two IDs. Proves that two keys are equal exactly when their ID pairs are the same unordered pair.
- `bombs.dfy`, module `Bombs`. The part of a bomb the manager uses: a class with an instance ID, a moving flag and a direction, plus `IsMoving`, `GetMoveDirection`, `Stop` and `Knock`. Also holds the calls the manager issues, as the datatype `Call`, and their effect on a snapshot of bomb states, `ApplyCalls`.
- `bomb_collision_manager.dfy`, module `BombCollision`. The manager class. The transfer rule as functions on snapshots:
  - `PairCalls`: the calls issued for one pair;
  - `Step`: their effect;
  - `Run` and `RunCalls`: a whole tick.
  Also holds the lemmas for each branch and for the tick.
  `PairKeys.CreatePairKey` is `CreatePairKey` (`BombCollisionManager.cs:36-46`); `BombCollision.KeyOf` is the key computed for a pair at `BombCollisionManager.cs:28`; `BombCollision.RunCalls` is the sequence of calls made by the loop at `BombCollisionManager.cs:61-65`. They carry no contract of their own; the lemmas about them are in the table below.
- `player_attributes.dfy`, module `Attributes`. The clamp functions, the `PlayerAttributes` class, and a counter of health-changed events.

**Bombs are objects.** They are instances of `Bombs.Bomb`, so one bomb can appear in several pairs, and a bomb stopped or knocked by an earlier pair is seen in its new state by later pairs. The manager records every `Stop` and `Knock` it issues in a ghost trace, `issued`. The tick's effect on the bombs is stated two ways:

- as a function of their states at the start of the tick (`Run`);
- as the effect of exactly the calls in the trace (`RunIsEffectOfCalls`).

**Stop and Knock are modelled, not copied.** `Bomb.cs` as it stands does not declare `IsMoving`, `Stop` or `GetMoveDirection`, and its `Knock` (`Assets/Scripts/Bomb.cs:11-13`) is an empty private stub. The model gives these calls the smallest state change the manager relies on:

- `Stop` clears the moving flag and the direction;
- `Knock(d)` sets the moving flag and adds `d` to the direction.

A resting bomb has no direction, and every call keeps it that way (`ApplyCallsKeepsAtRest`). So a knocked resting bomb moves in exactly the mover's direction.

**The manager is modelled as written.** The model follows the code in `Assets/Scripts/BombCollisionManager.cs` as it is written.

## Model

| member | source | states |
|---|---|---|
| `PairKeys.IntToDecimal` | Assets/Scripts/BombCollisionManager.cs:42 | An interpolated int is non-empty, contains no `_`, and starts with `-` exactly when it is negative |
| `PairKeys.NatToDecimalInjective` | Assets/Scripts/BombCollisionManager.cs:42 | Distinct naturals have distinct decimal digit strings |
| `PairKeys.IntToDecimalInjective` | Assets/Scripts/BombCollisionManager.cs:42 | Distinct ints are written as distinct strings |
| `PairKeys.JoinInjective` | Assets/Scripts/BombCollisionManager.cs:42 | Two `_`-free strings joined by `_` can be recovered from the joined string |
| `PairKeys.CreatePairKeySymmetric` | Assets/Scripts/BombCollisionManager.cs:36-46 | The key of `(a, b)` equals the key of `(b, a)` |
| `PairKeys.CreatePairKeyInjective` | Assets/Scripts/BombCollisionManager.cs:41-45 | Two keys are equal if and only if their ID pairs are the same unordered pair |
| `Bombs.Bomb.IsMoving` | Assets/Scripts/BombCollisionManager.cs:68-69 | Returns the bomb's current moving flag |
| `Bombs.Bomb.GetMoveDirection` | Assets/Scripts/BombCollisionManager.cs:77 | Returns the bomb's current direction |
| `Bombs.Bomb.Stop` | Assets/Scripts/BombCollisionManager.cs:73-74 | Afterwards the bomb is not moving and has no direction |
| `Bombs.Bomb.Knock` | Assets/Scripts/BombCollisionManager.cs:81 | Afterwards the bomb is moving, and its direction is the old direction plus the knock direction |
| `Bombs.ApplyCall` | Assets/Scripts/BombCollisionManager.cs:73-82 | A call changes only its target; the target moves afterwards exactly when the call is a knock |
| `Bombs.ApplyCallsConcat` | Assets/Scripts/BombCollisionManager.cs:62-64 | Issuing two call traces one after the other equals issuing their concatenation |
| `Bombs.ApplyCallsFrame` | Assets/Scripts/BombCollisionManager.cs:67-85 | A bomb that no call targets keeps its state |
| `Bombs.ApplyCallsKeepsAtRest` | Assets/Scripts/BombCollisionManager.cs:67-85 | If every resting bomb has no direction before a sequence of calls, the same holds after it |
| `BombCollision.DistinctKeysIffNoRepeatedPair` | Assets/Scripts/BombCollisionManager.cs:27-33 | The list has no repeated key if and only if it has no repeated unordered pair of instance IDs |
| `BombCollision.KeyCount` | Assets/Scripts/BombCollisionManager.cs:19-20 | With distinct keys, the key set is exactly as large as the list is long |
| `BombCollision.Registered` | Assets/Scripts/BombCollisionManager.cs:26-34 | Registering adds exactly the new pair's key to the key set and keeps keys distinct. The list is unchanged or has that one pair appended |
| `BombCollision.KeySetAppend` | Assets/Scripts/BombCollisionManager.cs:31-32 | Appending a pair adds exactly its key to the key set |
| `BombCollision.RegisteredAppendsIffNew` | Assets/Scripts/BombCollisionManager.cs:26-34 | The pair is appended if no entry holds the same unordered ID pair. Otherwise the list is unchanged |
| `BombCollision.RegisteredBothOrders` | Assets/Scripts/BombCollisionManager.cs:26-46 | Registering `(a, b)` and then `(b, a)` or `(a, b)` again leaves the list as after the first registration |
| `BombCollision.PairCalls` | Assets/Scripts/BombCollisionManager.cs:67-85 | At most two calls are issued for a pair, and every one of them targets one of its two bombs |
| `BombCollision.Step` | Assets/Scripts/BombCollisionManager.cs:67-85 | Processing a pair keeps the set of bombs; its effect is the effect of its calls |
| `BombCollision.Run` | Assets/Scripts/BombCollisionManager.cs:61-65 | Processing the pairs in order keeps the set of bombs |
| `BombCollision.BothMovingBothStop` | Assets/Scripts/BombCollisionManager.cs:71-74 | Both moving: the calls are Stop(A) then Stop(B), no knock is issued, and both bombs end halted |
| `BombCollision.FirstMovingKnocksSecond` | Assets/Scripts/BombCollisionManager.cs:75-78 | Only A moving: Knock(B, A's direction read before the stop) is issued, then Stop(A). A ends halted and B ends moving. If resting bombs have no direction, B moves in A's direction |
| `BombCollision.SecondMovingKnocksFirst` | Assets/Scripts/BombCollisionManager.cs:79-82 | Only B moving: the same rule with the roles of A and B exchanged |
| `BombCollision.NeitherMovingNoCalls` | Assets/Scripts/BombCollisionManager.cs:68-84 | Neither moving: no call is issued and no state changes |
| `BombCollision.StepFrame` | Assets/Scripts/BombCollisionManager.cs:67-85 | Processing a pair leaves every bomb outside it unchanged |
| `BombCollision.RunExtend` | Assets/Scripts/BombCollisionManager.cs:62-64 | Processing one more pair extends the run and its call trace by that pair's step |
| `BombCollision.RunIsEffectOfCalls` | Assets/Scripts/BombCollisionManager.cs:61-65 | The states a tick leaves are exactly the effect of the call trace it issues |
| `BombCollision.RunFrame` | Assets/Scripts/BombCollisionManager.cs:61-65 | A bomb in no registered pair is unchanged by the tick |
| `BombCollision.RunKeepsAtRest` | Assets/Scripts/BombCollisionManager.cs:61-65 | A tick keeps every resting bomb direction-free |
| `BombCollision.InFrame` | Assets/Scripts/BombCollisionManager.cs:62 | Contains both bombs of every listed pair |
| `BombCollision.BombCollisionManager.constructor` | Assets/Scripts/BombCollisionManager.cs:19-20 | Both containers start empty and consistent with each other |
| `BombCollision.BombCollisionManager.RegisterCollision` | Assets/Scripts/BombCollisionManager.cs:26-34 | A new key appends exactly one pair and inserts its key. A known key leaves both containers unchanged. The list and the key set stay in step, and their sizes are equal |
| `BombCollision.BombCollisionManager.ProcessCollisionPair` | Assets/Scripts/BombCollisionManager.cs:67-85 | The bombs' new states are `Step` of their old states. Each Stop and Knock is appended to the trace where it is made, and the calls made are exactly `PairCalls`, in source order |
| `BombCollision.BombCollisionManager.ProcessMovementTransfers` | Assets/Scripts/BombCollisionManager.cs:61-65 | After the loop, the bombs' states are `Run` of their old states, and the trace is extended by `RunCalls` |
| `BombCollision.BombCollisionManager.ProcessAllCollisions` | Assets/Scripts/BombCollisionManager.cs:53-59 | Same as `ProcessMovementTransfers`; with no pairs, nothing changes |
| `BombCollision.BombCollisionManager.ClearFrameData` | Assets/Scripts/BombCollisionManager.cs:109-112 | Both containers are empty afterwards |
| `BombCollision.BombCollisionManager.FixedUpdate` | Assets/Scripts/BombCollisionManager.cs:48-51 | The pairs are processed in registration order, then both containers are empty. With no pairs, no call is issued. Bombs outside the pairs are untouched |
| `BombCollision.RegisterFromBothSides` | Assets/Scripts/BombCollisionManager.cs:26-46 | Registering `(a, b)` and then `(b, a)` on a fresh manager leaves exactly one entry |
| `BombCollision.TransferScenario` | Assets/Scripts/BombCollisionManager.cs:48-85 | A moving bomb paired with a resting one: after a tick the mover is halted, the other bomb moves in the mover's direction, and the list is empty |
| `Attributes.RaisedHealth` | Assets/Scripts/PlayerAttributes.cs:30 | The result is at most `MaxHealth` and at most `old + n`, and equals one of them (`min`) |
| `Attributes.LoweredHealth` | Assets/Scripts/PlayerAttributes.cs:34 | The result is at least 0 and at least `old - n`, and equals one of them (`max`) |
| `Attributes.RaisedHealthInRange` | Assets/Scripts/PlayerAttributes.cs:29-31 | From health in `[0, MaxHealth]` and `n >= 0`, healing stays in range and does not lower health |
| `Attributes.LoweredHealthInRange` | Assets/Scripts/PlayerAttributes.cs:33-35 | From health in `[0, MaxHealth]` and `n >= 0`, damage stays in range and does not raise health |
| `Attributes.PlayerAttributes.constructor` | Assets/Scripts/PlayerAttributes.cs:21-26 | Stores the four arguments unclamped; the health write fires the event once |
| `Attributes.PlayerAttributes.SetCurrentHealth` | Assets/Scripts/PlayerAttributes.cs:10-16 | Stores the value and fires the event exactly once. Nothing else changes |
| `Attributes.PlayerAttributes.IncreaseHealth` | Assets/Scripts/PlayerAttributes.cs:29-31 | Health becomes `min(MaxHealth, old + n)` and one event fires, also when the value is unchanged. `MaxHealth` and the counters are unchanged. The range is kept for `n >= 0` |
| `Attributes.PlayerAttributes.DecreaseHealth` | Assets/Scripts/PlayerAttributes.cs:33-35 | Health becomes `max(0, old - n)` and one event fires. `MaxHealth` and the counters are unchanged. The range is kept for `n >= 0` |
| `Attributes.PlayerAttributes.IncreaseBombPower` | Assets/Scripts/PlayerAttributes.cs:37-39 | Bomb power grows by exactly `n`; only that field may change |
| `Attributes.PlayerAttributes.IncreaseMaxBombs` | Assets/Scripts/PlayerAttributes.cs:41-43 | The bomb limit grows by exactly `n`; only that field may change |
| `Attributes.PlayerAttributes.ApplyPowerUp` | Assets/Scripts/PlayerAttributes.cs:46-50 | Equals healing, then raising bomb power, then raising the bomb limit. `MaxHealth` is unchanged and exactly one health event fires |
| `Attributes.HealAtFullThenOverkill` | Assets/Scripts/PlayerAttributes.cs:29-35 | At full health, healing keeps health at the maximum and still fires an event. Damage beyond the health left floors at 0 |

## Left out

- `ApplySeparation` and `ApplySeparationForce` (`BombCollisionManager.cs:87-107`) are left out. Their only call is commented out, they work on floating-point positions, and they call `BombCanMove`, which is not part of this model.
- The singleton `Instance`, `Awake`, and the serialized `environmentLayerMask` are Unity wiring with no logic, so they are left out.
- `Bomb.GetInstanceID` is the engine's object identity. It becomes the constant field `Bombs.Bomb.id`. The model does not assume that distinct bombs have distinct IDs. Every statement about keys is made in terms of the IDs.
- `Bombs.Bomb.Knock`: the direction is added but not re-normalised, because vector normalisation needs floating-point square roots. The bomb's movement, collision sweep and gravity are not part of this model.
- `PairKeys.IntToDecimal` writes a negative ID with a fixed `-` sign. C# string interpolation uses the current culture's negative sign, and the engine gives runtime-created objects negative instance IDs. Key injectivity holds for any sign that contains neither `_` nor a digit, but the model fixes the sign to `-`.
- `Bombs.Vec3` holds exact reals in place of single-precision floats.
- The health-changed event is raised through a null-conditional call. The model counts setter executions whether or not a handler is subscribed. Handlers and their arguments are not part of this model.
- `Attributes.RaisedHealth` does not model 32-bit wrap-around of `CurrentHealth + amount`. C# `int` arithmetic wraps, and Dafny `int` is unbounded.
- `Attributes.LoweredHealth` does not model 32-bit wrap-around of `CurrentHealth - amount`, for the same reason.
- `Attributes.PlayerAttributes.IncreaseBombPower` and `Attributes.PlayerAttributes.IncreaseMaxBombs` do not model 32-bit wrap-around either.
- `Player.cs`, `Explosion.cs`, `NetworkObjectManager.cs`, `GameServerManager.cs` and `IKnockable.cs` are not part of this model. They hold engine physics, networking, spawning and an interface with no behaviour.
