# Child follower behaviour, in Dafny

A model of the child in a small Unity action/adventure scene. The child
follows the parent (the player) and loses one unit of comfort for every step
the parent takes. At the crying threshold it starts crying. At the run-away
threshold it turns round and wanders off on its own. It steers round
obstacles with three horizontal probes and prefers the spot furthest from
the parent. When the parent walks into it again it follows again, still
crying. Candy given while it follows restores its comfort.

The model follows `Unity/Assets/Scripts/ChildBehaviour.cs`:

- `csharp.dfy`, module `CSharp`: C#'s truncating `%`, which the behaviour
  applies to a non-positive operand.
- `movements.dfy`, module `Movements`: queued steps (`Move` along a
  direction, `Rotate` by an angle, each with a positive duration), the probe
  results, and the choice of the next autonomous step.
- `child_spec.dfy`, module `ChildSpec`: each transition as a function on a
  snapshot of the child's state. This module also holds the mood invariant,
  runs of inputs, and the lemmas about them.
- `child_behaviour.dfy`, module `ChildBehaviour`: class `Child`. Its methods
  mutate the source's fields step by step (`comfort`, `isFollowing`,
  `isCrying`, `stepsWandering`, the `movements` queue, `movementT`), and
  every call into a collaborator is appended to an event `trace`. Each
  method is proved to leave exactly the snapshot that the matching
  `ChildSpec` function gives. The public ones also keep the mood invariant
  (`Valid`).

Decisions worth knowing:

- The calls into the audio controller (`SetHappy`, `SetSad`, `SetLost`,
  `CollectCandy`, `ChildSad`, `ChildLeave`, `ChildWandering`, `Join`,
  `CollectAt`), the exit gate (`SetFollowing`) and the particle controller
  (`Burst`) are events in `trace`, in the order the source makes them.
- The three raycasts and the squared-distance scores are a `Probe` argument.
  `Update` passes it down to `HandleMove`, `MoveCompleted` and
  `ComputeNextMove`. The other tag check, `other.gameObject.tag == "Player"`,
  is the boolean `isPlayer`.
- Time is an exact `real`. `movementT / duration > 1` is kept as written, and
  `CompletionThreshold` shows that it means "more than `duration` has
  elapsed".
- `(comfort - cryAt) % 5` and `stepsWandering % 8` use `CsRem`, C#'s
  remainder. For the first operand, which is never positive, C# and Dafny
  give different remainders. Both are zero for exactly the same operands
  (an ensures of `CsRem`), so the sob fires on the same steps either way.
- The code is followed where its comments say otherwise, and a few
  details of the code are worth stating:
  - The comment at line 113 says "if we rotated previously", but the test
    is `previous.kind == MovementKind.Move`. The model walks straight on
    after a Move.
  - A step finishes only when strictly more than its duration has elapsed
    (line 70). Frames that add up to exactly the duration leave it at the
    head of the queue (`FramesWithinDuration`).
  - The wandering stinger is requested on every wandering step with
    `stepsWandering % 8 == 6` (line 173), whatever the child is doing.
    `AudioController.cs:100` drops the request while the child's audio
    source is playing.
  - `ChildLeave` and the reset of `stepsWandering` happen only when comfort
    is exactly `runAwayAt` (lines 221-225). With ordered thresholds that is
    always the case at departure (`DepartureAtThreshold`).
- "The child cries exactly while it follows at or below `cryAt`" needs
  `cryAt < initialComfort`. With `cryAt == initialComfort` the start state
  already follows at `cryAt` without crying. `RunKeepsCriesExactly` states
  the strict version.

## Model

`ChildSpec.Started`, `AfterCrying`, `AfterHappy`, `AfterLeaving`,
`AfterJoining` and `AfterMoveCompleted` have no row of their own. Each is
the specification function of the `Child` method (constructor, `OnCrying`,
`OnHappy`, `OnLeaving`, `OnJoining`, `MoveCompleted`) whose row cites the
same lines. The method's contract equates the new state with that
function's result. `Movements.TurnTowards` is the turn of lines 131-135; it
is covered by the rows for `NextSteps` and `NextStepsChoosesBest`.

| member | source | states |
|---|---|---|
| `CSharp.CsRem` | Unity/Assets/Scripts/ChildBehaviour.cs:200 | C#'s remainder: it lies strictly between -b and b, has the sign of the dividend, and is congruent to it modulo b. It is zero exactly when Dafny's `%` is zero. |
| `CSharp.CsRemOfNegative` | Unity/Assets/Scripts/ChildBehaviour.cs:200 | On negative operands the two remainders differ (-3 against 2), but agree on multiples (both 0). |
| `Movements.MakeMovement` | Unity/Assets/Scripts/ChildBehaviour.cs:46-53 | A walk step along the given offset that lasts `moveTime`. |
| `Movements.MakeRotation` | Unity/Assets/Scripts/ChildBehaviour.cs:55-62 | A turn by the given angle about the vertical axis that lasts `turnTime`. |
| `Movements.FreeDirections` | Unity/Assets/Scripts/ChildBehaviour.cs:120-123 | The candidate list holds a direction exactly when its probe is free, in the strict order left, right, forward. It is empty exactly when no probe is free. |
| `Movements.BestIndex` | Unity/Assets/Scripts/ChildBehaviour.cs:129 | What a stable descending sort by score puts first. It is a valid position whose score no candidate exceeds, and every earlier candidate scores strictly less. |
| `Movements.NextSteps` | Unity/Assets/Scripts/ChildBehaviour.cs:113-137 | After a Move with forward free: exactly one forward Move. Else, boxed in: exactly one 180° Rotate. Else: one or two steps ending in a Move. |
| `Movements.NextStepsChoosesBest` | Unity/Assets/Scripts/ChildBehaviour.cs:119-137 | In the third case, the steps are the turn towards some best choice d (-90° for left, +90° for right, none for forward) and then one Move along d. A best choice is free, has maximal score, and beats every earlier free direction. |
| `Movements.ChosenIsBest` | Unity/Assets/Scripts/ChildBehaviour.cs:129-136 | The candidate the sort puts first is a best choice over all three directions. |
| `Movements.BestChoiceUnique` | Unity/Assets/Scripts/ChildBehaviour.cs:129 | There is at most one best choice, so the same probe always gives the same direction. |
| `ChildSpec.AfterDecrement` | Unity/Assets/Scripts/ChildBehaviour.cs:151-178 | Following: comfort drops by exactly 1, with three outcomes. (1) At or below `runAwayAt` the child stops following and crying, exactly one 180° Rotate is queued, and `SetFollowing(false)`, `SetLost` are emitted, preceded by `ChildLeave` (with the step count reset) only when comfort equals `runAwayAt`. (2) Above `runAwayAt` and at or below `cryAt` it cries, emits `SetSad`, and emits `ChildSad` iff `(comfort - cryAt) % 5 == 0`; nothing is queued. (3) Otherwise only comfort changes. Not following: only `stepsWandering` changes, by +1, and `ChildWandering` is emitted iff the new count % 8 == 6. |
| `ChildSpec.AfterCandy` | Unity/Assets/Scripts/ChildBehaviour.cs:180-191 | Following: comfort goes back to `initialComfort` and crying stops, and `SetHappy`, `CollectCandy`, `Burst(at)`, `CollectAt(at)` are emitted in that order; nothing else changes. Not following: nothing at all changes. |
| `ChildSpec.AfterTrigger` | Unity/Assets/Scripts/ChildBehaviour.cs:142-148 | The player touching a runaway child makes it follow and cry with comfort `cryAt`, and emits `SetFollowing(true)`, `SetSad`, `Join`; the queue and step count stay. Any other contact changes nothing. |
| `ChildSpec.AfterMove` | Unity/Assets/Scripts/ChildBehaviour.cs:64-75 | Mood and trace are untouched. If elapsed time plus `dt` strictly exceeds the head's duration, exactly the head is dequeued and `movementT` restarts at 0. The next steps are appended only when that empties the queue and the child is not following. Otherwise the queue is untouched and the time accumulates. |
| `ChildSpec.AfterUpdate` | Unity/Assets/Scripts/ChildBehaviour.cs:32-36 | A frame with an empty queue changes nothing. |
| `ChildSpec.CompletionThreshold` | Unity/Assets/Scripts/ChildBehaviour.cs:67-70 | For a positive duration, `elapsed / duration > 1` exactly when `elapsed > duration`. |
| `ChildSpec.StartedInv` | Unity/Assets/Scripts/ChildBehaviour.cs:26-30 | With ordered thresholds the start state satisfies the mood invariant. |
| `ChildSpec.ApplyKeepsInv` | Unity/Assets/Scripts/ChildBehaviour.cs:142-241 | Every input (a parent step, a candy, a contact, a frame) preserves the mood invariant. The invariant: `runAwayAt <= comfort <= initialComfort`; a following child is above `runAwayAt`; a crying child follows at or below `cryAt`. |
| `ChildSpec.RunKeepsInv` | Unity/Assets/Scripts/ChildBehaviour.cs:142-241 | Every run of inputs from a state satisfying the invariant ends in one that satisfies it. |
| `ChildSpec.ReachableInRange` | Unity/Assets/Scripts/ChildBehaviour.cs:28 | Every state reachable from the start has `runAwayAt <= comfort <= initialComfort`. |
| `ChildSpec.DepartureAtThreshold` | Unity/Assets/Scripts/ChildBehaviour.cs:215-229 | From a state satisfying the invariant, a departure happens at exactly `runAwayAt`. It resets the step count and emits `ChildLeave`, `SetFollowing(false)`, `SetLost`. |
| `ChildSpec.ApplyKeepsCriesExactly` | Unity/Assets/Scripts/ChildBehaviour.cs:193-241 | With `cryAt < initialComfort`, every input preserves "crying iff following at or below `cryAt`". |
| `ChildSpec.RunKeepsCriesExactly` | Unity/Assets/Scripts/ChildBehaviour.cs:193-241 | With `cryAt < initialComfort`, "crying iff following at or below `cryAt`" holds after every run of inputs. |
| `ChildSpec.CandyIdempotent` | Unity/Assets/Scripts/ChildBehaviour.cs:207-213 | A second candy for a following child leaves everything but the trace as the first left it. |
| `ChildSpec.DefaultScenario` | Unity/Assets/Scripts/ChildBehaviour.cs:7-11 | With the defaults, five parent steps leave the child following and crying at comfort 5. Ten leave it gone at comfort 0, not crying, with exactly one 180° turn queued. |
| `ChildSpec.FramesWithinDuration` | Unity/Assets/Scripts/ChildBehaviour.cs:64-75 | Non-negative frames that add up to at most the rest of the head's duration leave the queue unchanged and only add their total to `movementT`. |
| `ChildSpec.LongFrameFinishesOneStep` | Unity/Assets/Scripts/ChildBehaviour.cs:64-75 | A frame overshooting the head by any amount removes only the head and discards the leftover time. |
| `ChildBehaviour.Child.constructor` | Unity/Assets/Scripts/ChildBehaviour.cs:16-30 | After field initialisation and `Start`: comfort `initialComfort`, following, not crying, no steps wandered, empty queue, no time, no calls; the invariant holds. |
| `ChildBehaviour.Child.Update` | Unity/Assets/Scripts/ChildBehaviour.cs:32-36 | The new state is `AfterUpdate` of the old one, and the invariant is kept. |
| `ChildBehaviour.Child.HandleMove` | Unity/Assets/Scripts/ChildBehaviour.cs:64-92 | On a non-empty queue the new state is `AfterMove` of the old one. |
| `ChildBehaviour.Child.MoveCompleted` | Unity/Assets/Scripts/ChildBehaviour.cs:94-98 | The next steps are appended only to an empty queue of a child that is not following; otherwise nothing changes. |
| `ChildBehaviour.Child.ComputeNextMove` | Unity/Assets/Scripts/ChildBehaviour.cs:100-140 | Exactly `NextSteps` is appended to the queue; nothing else changes. |
| `ChildBehaviour.Child.Candidates` | Unity/Assets/Scripts/ChildBehaviour.cs:120-123 | The list built by the three conditional adds equals `FreeDirections`. |
| `ChildBehaviour.Child.OnTriggerEnter` | Unity/Assets/Scripts/ChildBehaviour.cs:142-148 | The new state is `AfterTrigger` of the old one, and the invariant is kept. |
| `ChildBehaviour.Child.DecrementComfort` | Unity/Assets/Scripts/ChildBehaviour.cs:151-178 | The new state is `AfterDecrement` of the old one, and the invariant is kept. |
| `ChildBehaviour.Child.GiveCandy` | Unity/Assets/Scripts/ChildBehaviour.cs:180-191 | The new state is `AfterCandy` of the old one, and the invariant is kept. |
| `ChildBehaviour.Child.OnCrying` | Unity/Assets/Scripts/ChildBehaviour.cs:193-205 | The child cries and emits `SetSad`, then `ChildSad` when the C# remainder of `comfort - cryAt` by 5 is zero. |
| `ChildBehaviour.Child.OnHappy` | Unity/Assets/Scripts/ChildBehaviour.cs:207-213 | Comfort back to `initialComfort`, crying stops, and `SetHappy`, `CollectCandy` are emitted. |
| `ChildBehaviour.Child.OnLeaving` | Unity/Assets/Scripts/ChildBehaviour.cs:215-229 | Not following and not crying. `ChildLeave` is emitted and the step count reset only at exactly `runAwayAt`; then `SetFollowing(false)` and `SetLost` are emitted. |
| `ChildBehaviour.Child.OnJoining` | Unity/Assets/Scripts/ChildBehaviour.cs:231-241 | Following, crying, comfort `cryAt`, and `SetFollowing(true)`, `SetSad`, `Join` are emitted. |

## Left out

- `Unity/Assets/Scripts/AudioController.cs` is not part of this model. Its
  music smoothing, volume curves, random intercom timing and clip choice
  are floating point, randomness and audio playback. Its public methods
  appear only as events.
- Poses are left out, because they are engine geometry:
  - The interpolation of position and rotation inside `HandleMove`
    (lines 77-91): linear blend, `Quaternion.Lerp`, `SmoothStep`, the walk
    animation and its speed.
  - A Move heading for the player's live position while the child follows
    (line 80).
  - `LateUpdate` snapping the child onto the parent (lines 38-44).
- The endpoint poses a step stores (`fromPos`, `toPos`, `fromRot`, `toRot`)
  are not stored. A Move keeps its direction offset, a Rotate its angle.
- `transform.TransformDirection`, `waistPosition`, `Physics.Raycast` with
  its 1.4 probe length, and the squared distances to the player become the
  `Probe` argument. The caller supplies them; they are not computed.
- `GameObject.FindGameObjectWithTag`, `Debug.Log` and `Debug.DrawRay`
  have no effect on the state and are left out.
- Float rounding of `movementT` and of the division by `duration` is not
  modelled: time is an exact real.
- Zero and negative `moveTime`/`turnTime` are excluded by the `Duration`
  type. In C# a zero duration makes `movementT / duration` +Infinity on the
  first frame with a positive `deltaTime`, so the step finishes at once. A
  negative duration makes the quotient non-positive, so the step never
  finishes.
- The model assumes that `exitGate`, `audioController`,
  `particleController` and `player` are all assigned. In C# a null one
  throws in the middle of a transition and leaves the state half-updated.
  For example, a null `exitGate` lets `OnLeaving` clear both flags
  (lines 218-219) and then throws at line 227, so `SetLost` is never called
  and the 180° turn of line 161 is never queued.
- 32-bit wrap-around of `comfort` and `stepsWandering` is not modelled.
  Comfort stays within its thresholds, and `stepsWandering` would need
  2^31 steps to wrap.
- The `Queue<Movement>` is a sequence field. Aliasing of the queue object
  is not modelled.
