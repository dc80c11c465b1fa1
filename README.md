# chill-out: the actor/event core in Dafny

This project models the discrete core of the chill-out first-person prototype:

- the two 20-slot ring-buffer queues (`PlayerCommandQueue`, `PlayerEventQueue`) with their singleton accessors;
- the observer list of `Actor` (`addObserver`, `removeObserver`, `notify`);
- the five-button record of `PlayerInput` and the `keydown`/`keyup` listeners of `KeyboardPlayerInput`;
- velocity resolution, written the same way in the player actor, the older player class and the old world script;
- the player actor's command flow: a fire key becomes a queued command, and each frame runs at most one command, which notifies the observers;
- the enemy (`Phuck`) with its three behaviour states;
- the level's spawn bookkeeping and its per-frame update;
- the keyboard, velocity and swing logic of the old single-file world script.

Layout, one module per file:

| file | module | models |
|---|---|---|
| `wrappers.dfy` | `Wrappers` | `Option` |
| `geometry.dfy` | `Geometry` | vectors, the mesh, trigonometry as parameters, recorded control outputs |
| `ring.dfy` | `Ring` | the shared ring buffer: abstraction, step lemmas, a reference FIFO queue |
| `command_queue.dfy` | `CommandQueue` | `PlayerCommandQueue` |
| `event_queue.dfy` | `EventQueue` | `PlayerEventQueue`, as written and with the corrected guard |
| `actor.dfy` | `Actors` | `Actor` |
| `input.dfy` | `Input` | `PlayerInput`, `KeyboardPlayerInput` |
| `movement.dfy` | `Movement` | the velocity rule shared by all three movers |
| `actors_player.dfy` | `ActorsPlayer` | `src/game/actors/Player.ts` |
| `game_player.dfy` | `GamePlayer` | `src/game/Player.ts` |
| `old_world.dfy` | `OldWorld` | `old/world-old-whole.js` |
| `phuck_states.dfy` | `PhuckStates` | `PhuckStates.ts` |
| `phuck.dfy` | `Phucks` | `Phuck.ts` |
| `level.dfy` | `Levels` | `Level.ts` |

The queues keep the source's fixed array and its `head`/`tail` fields, updated in place. Their contents are related to a pure sequence queue (`Ring.Accept`, `Ring.Front`, `Ring.Drop`), and FIFO order and the 19-item bound are proved for that queue over any run of operations.

The actors are classes whose fields change in place. TypeScript's `extends Actor` is modelled by composition: each of the player, the enemy and the level owns an `Actor`. `onNotify` is dispatched dynamically in the source. Here `notify` returns the list of calls it makes, as `Delivery(observer, source, notification)` values.

`velocity` ties: the code moves backward (or left) only when the negative button's time is strictly greater, so two buttons held with equal times resolve to +0.25. They do not resolve to zero, and the model follows the code (`Movement.LastPressedWins`).

## Model

| member | source | states |
|---|---|---|
| Ring.Next | src/game/queues/PlayerCommandQueue.ts:40 | the advanced index stays below 20 and wraps from 19 to 0 |
| Ring.Count | src/game/queues/PlayerCommandQueue.ts:38-53 | the number of waiting items is below 20 and is `tail - head`, or `20 - head + tail` once `tail` has wrapped |
| Ring.EmptyIff | src/game/queues/PlayerCommandQueue.ts:48-50 | no item is waiting exactly when `head == tail` |
| Ring.FullIff | src/game/queues/PlayerCommandQueue.ts:38 | the full test `(tail + 1) % 20 == head` holds exactly when 19 items wait; never more than 19 |
| Ring.AddStep | src/game/queues/PlayerCommandQueue.ts:38-41 | an accepted add writes slot `tail` and advances it, which appends the item to the waiting items and raises the count by one |
| Ring.GetStep | src/game/queues/PlayerCommandQueue.ts:52-55 | on a non-empty buffer slot `head` holds the oldest item, and advancing `head` removes exactly that item; the count falls by one |
| Ring.RunIsFifo | src/game/queues/PlayerCommandQueue.ts:37-56 | over any sequence of adds and gets, the initial items followed by the accepted items are the returned items followed by those still waiting |
| Ring.RunBounded | src/game/queues/PlayerCommandQueue.ts:37-42 | starting from at most 19 items, no run of operations leaves more than 19 |
| CommandQueue.PlayerCommandQueue.constructor | src/game/queues/PlayerCommandQueue.ts:9-32 | 20 slots, all the blank object, `head == tail == 0`, nothing waiting |
| CommandQueue.PlayerCommandQueue.Add | src/game/queues/PlayerCommandQueue.ts:37-42 | when full, nothing changes; otherwise slot `tail` alone is written, `tail` advances and `head` stays; the waiting items become `Accept(old, ev)` |
| CommandQueue.PlayerCommandQueue.Get | src/game/queues/PlayerCommandQueue.ts:47-56 | null exactly when `head == tail`, with no change; otherwise `queue[head]` is returned and `head` advances; storage and `tail` never change; the result is the front of the waiting items, and the rest remain |
| CommandQueue.CommandQueueStatics.constructor | src/game/queues/PlayerCommandQueue.ts:3 | the static `instance` starts unset |
| CommandQueue.CommandQueueStatics.GetInstance | src/game/queues/PlayerCommandQueue.ts:13-18 | constructs a fresh empty queue only when none is held, otherwise returns the held one; afterwards `instance` is the result |
| CommandQueue.SameInstanceEveryCall | src/game/queues/PlayerCommandQueue.ts:13-18 | two calls return the same, empty queue |
| CommandQueue.TwoInTwoOut | src/game/queues/PlayerCommandQueue.ts:37-56 | add a, add b, then three gets return a, b and null |
| CommandQueue.OverflowDropsLast | src/game/queues/PlayerCommandQueue.ts:37-42 | after 20 adds on a fresh queue the returned queue is well formed and holds exactly the first 19 items, in the order added: the last add is dropped |
| EventQueue.PlayerEventQueue.constructor | src/game/queues/PlayerEventQueue.ts:9-32 | 20 blank slots, `head == tail == 0`, nothing waiting |
| EventQueue.PlayerEventQueue.Add | src/game/queues/PlayerEventQueue.ts:37-42 | silent no-op when full; otherwise writes slot `tail` only and advances it; the waiting items become `Accept(old, ev)` |
| EventQueue.PlayerEventQueue.Get | src/game/queues/PlayerEventQueue.ts:47-56 | null exactly when empty, with no change; otherwise returns `queue[head]` and advances `head`; the result is the front of the waiting items |
| EventQueue.EventQueueStatics.constructor | src/game/queues/PlayerEventQueue.ts:3 | the static `instance` starts `undefined`, since it has no initialiser |
| EventQueue.EventQueueStatics.GetInstanceAsWritten | src/game/queues/PlayerEventQueue.ts:13-18 | constructs only when `instance` is `null`; in every other case `instance` is left as it was and returned |
| EventQueue.EventQueueStatics.GetInstance | src/game/queues/PlayerEventQueue.ts:13-18 | with the guard of the command queue: constructs a fresh empty queue unless an object is held, then returns the held object |
| EventQueue.NeverConstructedAsWritten | src/game/queues/PlayerEventQueue.ts:3-18 | as written, the first and second calls both return `undefined` and no queue is ever built |
| EventQueue.ConstructedOnceCorrected | src/game/queues/PlayerEventQueue.ts:13-18 | with the corrected guard, two calls return the same, empty queue |
| Actors.IndexOf | src/game/actors/Actor.ts:26 | `-1` exactly when absent; otherwise the first position holding the element |
| Actors.Added | src/game/actors/Actor.ts:25-31 | the old list is kept as a prefix and at most one element is appended; a list already holding the observer is unchanged; the result holds the observer and nothing but it and the old elements |
| Actors.Removed | src/game/actors/Actor.ts:33-40 | an absent observer leaves the list unchanged; a present one is cut out at its first position, the elements before and after keeping their order, so the list is one shorter with exactly one occurrence of the observer fewer |
| Actors.AddedKeepsNoDuplicates | src/game/actors/Actor.ts:25-31 | adding keeps the list duplicate-free and contains the observer; adding twice is adding once |
| Actors.RemovedExactly | src/game/actors/Actor.ts:33-40 | removing keeps the list duplicate-free; the result holds exactly the others; a present observer shortens the list by one |
| Actors.RemoveUndoesAdd | src/game/actors/Actor.ts:25-40 | removing an observer just added to a list without it gives back that list |
| Actors.Actor.constructor | src/game/actors/Actor.ts:9-11 | a new actor has no observers |
| Actors.Actor.Notify | src/game/actors/Actor.ts:19-23 | one `onNotify(this, notification)` per observer, positionally in list order |
| Actors.Actor.AddObserver | src/game/actors/Actor.ts:25-31 | no change when already registered; otherwise appended at the end; no duplicates before or after |
| Actors.Actor.RemoveObserver | src/game/actors/Actor.ts:33-40 | no change when absent; otherwise exactly that entry is spliced out and the others keep their order |
| Actors.NotifyReachesBothInOrder | src/game/actors/Actor.ts:19-31 | two observers, one added twice, get exactly one delivery each, in registration order |
| Input.InitialButtons | src/game/input/PlayerInput.ts:11-32 | exactly the five buttons up, down, left, right, fire, each unpressed with time 0 |
| Input.InitialReleasedAtZero | src/game/input/PlayerInput.ts:11-32 | the initial record satisfies "not pressed implies time 0" |
| Input.PressReleaseKeep | src/game/input/KeyboardPlayerInput.ts:29-80 | pressing (time now) or releasing (time 0) one button keeps "not pressed implies time 0" and changes no other button |
| Input.Lookup | src/game/input/KeyboardPlayerInput.ts:29-50 | no match exactly when no case has the code; a match is the button of a first case with the code |
| Input.LookupFirst | src/game/input/KeyboardPlayerInput.ts:29-49 | the first case with the code is the one taken, even when later cases share it |
| Input.CasesInOrder | src/game/input/KeyboardPlayerInput.ts:29-50 | the switch over the configured codes is the if-chain up, down, left, right, fire, with no default |
| Input.SharedCodeTakesEarlier | src/game/input/KeyboardPlayerInput.ts:29-49 | for any two cases i < j of the switch with the same code, the code never selects the button of case j; when i is the first case with that code it selects the button of case i |
| Input.DistinctCodesOwnButtons | src/game/input/KeyboardPlayerInput.ts:29-80 | with five distinct codes each code drives its own button |
| Input.KeyboardPlayerInput.constructor | src/game/input/KeyboardPlayerInput.ts:9-17 | stores the five codes; the buttons start as the initial record |
| Input.KeyboardPlayerInput.KeyDown | src/game/input/KeyboardPlayerInput.ts:27-52 | an unknown code changes nothing; otherwise exactly the first matching button becomes pressed at time `now`, overwriting any earlier time |
| Input.KeyboardPlayerInput.KeyUp | src/game/input/KeyboardPlayerInput.ts:57-82 | an unknown code changes nothing; otherwise exactly the first matching button becomes unpressed with time 0 |
| Movement.Axis | src/game/actors/Player.ts:77-87 | the axis is one of -0.25, 0 or 0.25, and 0 exactly when neither button is held |
| Movement.ForwardBackward | src/game/actors/Player.ts:77-87 | `velocity.z` is one of -0.25, 0, 0.25; 0 exactly when neither up nor down is held; -0.25 exactly when one is held and down was pressed strictly later than up |
| Movement.LeftRight | src/game/actors/Player.ts:89-99 | `velocity.x` is one of -0.25, 0, 0.25; 0 exactly when neither left nor right is held; -0.25 exactly when one is held and left was pressed strictly later than right |
| Movement.LastPressedWins | src/game/actors/Player.ts:77-99 | with both held, the strictly later press wins and a tie goes to the positive direction; swapping distinct times flips the sign |
| Movement.HeldAloneWins | src/game/actors/Player.ts:77-99 | a button held alone drives its own direction, given that released buttons carry time 0 and presses carry a positive time |
| Movement.MovingIffButtonHeld | old/world-old-whole.js:68-70 | a non-zero resolved velocity (the players' `isMoving`) and some held movement button (the old world's test) are equivalent |
| ActorsPlayer.Player.constructor | src/game/actors/Player.ts:22-37 | position and initial position are 2 above the given point; velocity and swing angle start at 0; the command queue is the shared instance, fresh and empty on first use |
| ActorsPlayer.Player.IsMoving | src/game/actors/Player.ts:137-139 | true of a player whose velocity, with its y part 0 as it always is, is not the zero vector, and false of one standing still |
| ActorsPlayer.Player.HandleInput | src/game/actors/Player.ts:56-60 | the fire command is queued if due, then both axes are resolved; moving exactly when a movement button is held |
| ActorsPlayer.Player.HandleInputQueue | src/game/actors/Player.ts:62-69 | one fire command is offered to the queue exactly when the last button is the fire key; otherwise the queue is untouched |
| ActorsPlayer.Player.Fire | src/game/actors/Player.ts:71-75 | every observer is notified with the player-fire event, in list order |
| ActorsPlayer.Player.HandleInputForwardBackward | src/game/actors/Player.ts:77-87 | only `velocity.z` changes, to the resolved up/down axis |
| ActorsPlayer.Player.HandleInputLeftRight | src/game/actors/Player.ts:89-99 | only `velocity.x` changes, to the resolved left/right axis |
| ActorsPlayer.Player.HandleCommands | src/game/actors/Player.ts:104-113 | takes at most one command; an empty queue means no deliveries and no change; otherwise the fire notifies every observer |
| ActorsPlayer.Player.CalculateYPositionForSwing | src/game/actors/Player.ts:127-139 | only while moving, the swing angle grows by 0.15 and `position.y` bobs round the initial height; otherwise both stay |
| ActorsPlayer.Player.UpdatePosition | src/game/actors/Player.ts:148-152 | issues `moveRight(velocity.x)`, `moveForward(velocity.z)` and the camera height, in that order |
| ActorsPlayer.Player.Update | src/game/actors/Player.ts:118-122 | runs at most one command with its deliveries, advances the swing only while moving, then issues the three outputs |
| ActorsPlayer.ObservedPlayer | src/game/actors/Player.ts:22-37 | a new player on a new, empty shared queue, observed by exactly two new actors, distinct from each other and from the player's own actor, in registration order |
| ActorsPlayer.FireReachesObservers | src/game/actors/Player.ts:56-122 | the fire key, then one update, gives each of two fresh, distinct observers (neither the player's own actor) exactly one fire delivery, in registration order |
| GamePlayer.Player.constructor | src/game/Player.ts:16-27 | position and initial position equal the given point, with no eye offset; velocity and swing angle start at 0 |
| GamePlayer.Player.IsMoving | src/game/Player.ts:77-79 | true of a player whose velocity, with its y part 0 as it always is, is not the zero vector, and false of one standing still |
| GamePlayer.Player.HandleInput | src/game/Player.ts:34-54 | both axes are resolved by the shared rule; moving exactly when a movement button is held |
| GamePlayer.Player.CalculateYPositionForSwing | src/game/Player.ts:67-79 | the swing angle grows by 0.15 only while moving, and is untouched otherwise |
| GamePlayer.Player.Update | src/game/Player.ts:59-62 | swing while moving, then the three outputs |
| GamePlayer.Player.UpdatePosition | src/game/Player.ts:88-92 | issues `moveRight(velocity.x)`, `moveForward(velocity.z)` and the camera height |
| OldWorld.OldCasesInOrder | old/world-old-whole.js:116-156 | the listeners' switch over KeyW, KeyS, KeyA, KeyD; any other code matches nothing |
| OldWorld.World.constructor | old/world-old-whole.js:28-45 | four buttons, all released with time 0; the player has swing step 0.15, angle 0 and velocity (0, 0) |
| OldWorld.World.KeyDown | old/world-old-whole.js:116-135 | one of the four codes presses its button at time `now`; other codes change nothing |
| OldWorld.World.KeyUp | old/world-old-whole.js:137-156 | one of the four codes releases its button with time 0; other codes change nothing |
| OldWorld.World.IsPlayerMoving | old/world-old-whole.js:68-70 | true exactly when the resolved lateral or forward velocity would be non-zero, that is, when some movement button is held |
| OldWorld.World.HandleInput | old/world-old-whole.js:229-254 | forward axis in `velocity.y`, lateral axis in `velocity.x`, then `moveRight` and `moveForward`; velocity is non-zero exactly when a button is held |
| OldWorld.World.UpdatePlayerSwing | old/world-old-whole.js:61-66 | only while a button is held, the angle grows by the swing step and the camera height is set; otherwise nothing changes |
| OldWorld.World.Update | old/world-old-whole.js:57-59 | the swing update alone |
| PhuckStates.LivePosition | src/game/actors/states/PhuckStates.ts:23-24 | y is kept; wherever the given sine and cosine satisfy sin² + cos² = 1 at the angle, the point lies, seen from above, on the orbit's circle round its center |
| PhuckStates.Mix | src/game/actors/states/PhuckStates.ts:43 | one component of the lerp: the start at fraction 0, the destination at 1, and between the two for fractions in between |
| PhuckStates.Lerp | src/game/actors/states/PhuckStates.ts:43 | fraction 0 gives the start, 1 the destination, and any fraction in between gives a height between the two heights |
| PhuckStates.StepPosition | src/game/actors/states/PhuckStates.ts:22-45 | the base state leaves the position alone; only the live state moves x and z; only the falling state changes y; no state lifts a mesh at or above the ground or takes it below the ground |
| PhuckStates.FallingPosition | src/game/actors/states/PhuckStates.ts:40-45 | x and z stay and y becomes 0.95·y |
| PhuckStates.LiveIgnoresHistory | src/game/actors/states/PhuckStates.ts:22-31 | live x and z depend only on the orbit and `et`, not on the previous position; y is kept |
| PhuckStates.FallingTick | src/game/actors/states/PhuckStates.ts:40-45 | above the ground a tick goes strictly down but stays positive; the ground is a fixpoint |
| PhuckStates.FallenClosedForm | src/game/actors/states/PhuckStates.ts:40-45 | after n falling ticks y is y0·0.95^n, with x and z unchanged |
| PhuckStates.NeverLands | src/game/actors/states/PhuckStates.ts:40-45 | from above the ground every tick descends and none reaches the ground |
| PhuckStates.Update | src/game/actors/states/PhuckStates.ts:4-45 | base state: no change; live: orbit position, rotation `atan2(x, z)`, and the hit test is run exactly when the shooting flag is true; falling: the lerp |
| Phucks.Phuck.constructor | src/game/actors/Phuck.ts:22-46 | arguments stored unchanged, rotation 0, states exactly idle/live/falling, current state live, mesh on the orbit at the initial angle with y at the center's height |
| Phucks.Phuck.IsOnPlayersTarget | src/game/actors/Phuck.ts:56-66 | `is_on_target` is true exactly when the ray meets the mesh; nothing else changes |
| Phucks.Phuck.Update | src/game/actors/Phuck.ts:91-93 | delegates to the current state, which is never changed; the hit test runs only in the live state while shooting |
| Levels.SpawnDegrees | src/game/Level.ts:52 | the first enemy's angle is 0 degrees and every angle of the `enemies` enemies lies in [0, 360) |
| Levels.EvenlySpaced | src/game/Level.ts:52 | spawn angles in degrees start at 0, differ by `360 / enemies`, and `enemies` steps make 360 |
| Levels.Level.constructor | src/game/Level.ts:24-34 | starts with no enemies, then spawns: `enemies` new enemies with new meshes, the k-th at the k-th angle, each live, not shooting and on its orbit at its initial angle, all registered with the player in order |
| Levels.Level.SpawnPhucks | src/game/Level.ts:50-57 | appends exactly `enemies` fresh enemies with fresh meshes (none for a negative count) with center (0, 8, 0), radius 4, health 100, damage 50 and the k-th angle, each starting live, not shooting and on its orbit at its initial angle; registers them with the player in order |
| Levels.Level.SpawnPhuck | src/game/Level.ts:62-67 | one fresh enemy with the given orbit and health 100, damage 50, starting live, not shooting and on its orbit at the initial angle at the center's height; appended and added to the player's observers |
| Levels.Level.Update | src/game/Level.ts:39-43 | every enemy is stepped once by its own current state, which stays: its mesh moves to the step position of that state; a live enemy turns to `atan2(x, z)` and the others keep their rotation; the hit flag is the ray test exactly for a live enemy while shooting and is kept otherwise; rotation and shooting flag stay |
| Levels.Level.UpdatePhuck | src/game/Level.ts:40-42 | one enemy's `update`: it is stepped exactly as `Phuck.Update` promises, and every other enemy and mesh is left untouched |
| Levels.FreshLevelOrbits | src/game/Level.ts:24-43 | a level built with three enemies and updated once has three enemies, each still live and not shooting, at the live position of its own orbit at height 8 |

## Left out

- Scene construction is not modelled because it is three.js calls with no invariants. This covers `Level.createMaze`, `createFloor`, `createWalls`, `createLights`, `Phuck.createMesh`, `addToScene`, `removeFromScene`, the camera, renderer and texture setup of the old world script, and the `addToScene` call in `spawnPhuck`.
- `Display.ts`, `Crosshair.ts`, `Assets.ts`, `World.ts` and `script.ts` are not part of this model because they are rendering, loading and game-loop wiring. `World.ts` builds the older player class while `Level.ts` calls `addObserver` on its player, so the assembled world is not modelled.
- `Math.sin`, `Math.cos`, `Math.atan2` and `MathUtils.degToRad` are the function-valued fields of `Geometry.Trig`, and no property of them is used. Numbers are exact reals, not IEEE doubles.
- `THREE.Raycaster` is the parameter `raycast`: it gives the number of intersections for the mesh at a position. The camera's position and orientation are not modelled.
- `PointerLockControls.moveRight`, `moveForward` and the camera height writes are recorded in `output`. `controls.lock()` on focus and the initial `lookAt` are left out.
- `getLastButton`: `NullPlayerInput.ts` is not part of this model, so the last button is the parameter `lastButton`. Its input-history buffer is not modelled.
- `ActorsPlayer.Player.constructor`: when no input is passed, the source falls back to a bare `PlayerInput` with undefined key codes. The model always takes a `KeyboardPlayerInput`.
- `GamePlayer.Player.constructor`: the source (src/game/Player.ts:18) likewise falls back to a bare `PlayerInput` when no input is passed. The model always takes a `KeyboardPlayerInput`, which is what `World.ts` passes.
- `EVS.ts` is not part of this model. The event tag is an enumeration whose only value is the player-fire event.
- `Actor.update`, the base no-op, has no counterpart.
- The receivers' `onNotify` is not modelled:
  - `Player.onNotify` is empty.
  - `Level.onNotify` only logs to the console and changes no state.
  - `Phuck` never implements the abstract `onNotify`, so in the source a player-fire delivery to an enemy would throw.
  - The model records the deliveries and stops there.
- `player_is_shooting` is read by the live state but never declared or assigned, so it is never `true`. The model keeps it as a field that starts false and that no operation sets. No Live-to-Falling transition is invented.
- `is_on_target` starts `undefined` in the source and starts false in the model.
- `ActorsPlayer.Player.HandleCommands` requires that every waiting command is a fire command, the only kind the source enqueues. A foreign object in the shared queue would make `last_command['command']` undefined, and that call would throw.
- `Levels.Level.Update`: the contract says every enemy is stepped once, but not in which order. Enemies have distinct meshes, so the order is not observable in the modelled state.
- `Level` extends `Actor` in the source, but its own observer list is never used and is not modelled. `config.enemies` is an integer.
- `Constants.PLAYER_POS_Y` (`constants.js`, not part of this model) is the old world's constructor parameter `playerPosY`.
- The unused `dt` and elapsed-time arguments are kept as parameters with no effect.
- JavaScript numbers never overflow here, so indices are unbounded naturals.

## Findings

| source | as written | input that shows it | evidently intended | confidence | as-written member | corrected member |
|---|---|---|---|---|---|---|
| src/game/queues/PlayerEventQueue.ts:14 | `getInstance` constructs only when `instance === null`, but the static field has no initialiser and starts `undefined` | the first call in a fresh program, such as the one in `World.ts`: `undefined === null` is false, so `undefined` is returned and every later call returns it as well | construct when no instance is held (`!instance`), as `PlayerCommandQueue.getInstance` does | high; not executed | EventQueue.NeverConstructedAsWritten | EventQueue.EventQueueStatics.GetInstance |
