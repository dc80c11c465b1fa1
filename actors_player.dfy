/**
 * The player actor (`src/game/actors/Player.ts`): resolves velocity from the
 * input buttons, turns a freshly activated fire key into a command on the
 * shared command queue, runs at most one queued command per frame (`fire`
 * notifies every observer), bobs while moving and hands its velocity to the
 * pointer-lock controls. `getLastButton()` is the parameter `lastButton`;
 * the calls to the controls and the camera are recorded in `output`.
 */
module ActorsPlayer {
  import opened Wrappers
  import opened Geometry
  import opened Input
  import opened Movement
  import opened Actors
  import Ring
  import CommandQueue

  /** A queued `{ command: this.fire }`; `Blank` is the `{}` that `setup` fills every slot with. */
  datatype Command = Blank | FireCommand

  const EYES_ABOVE_GROUND: real := 2.0

  predicate OnlyFireCommands(q: seq<Command>)
  {
    forall i :: 0 <= i < |q| ==> q[i] == FireCommand
  }

  class Player {
    const actor: Actor
    const input: KeyboardPlayerInput
    const commands: CommandQueue.PlayerCommandQueue<Command>
    const initialPosition: Vec3
    const swingStep: real
    var position: Vec3
    var velocity: Vec3
    var swingAngle: real
    var output: seq<Output>

    ghost predicate Valid()
      reads this, actor, input, commands
    {
      && actor.Valid() && input.Valid() && commands.Valid()
      && IsStep(velocity.x) && IsStep(velocity.z) && velocity.y == 0.0
      && swingStep == 0.15
    }

    ghost function Queued(): seq<Command>
      reads this, commands, commands.queue
      requires commands.Valid()
    {
      commands.Contents()
    }

    /**
     * Position and initial position sit EYES_ABOVE_GROUND over the given point,
     * velocity and swing angle start at 0, and the queue is the shared instance.
     */
    constructor (initial: Vec3, input: KeyboardPlayerInput, statics: CommandQueue.CommandQueueStatics<Command>)
      requires input.Valid() && statics.Valid()
      modifies statics
      ensures Valid() && fresh(actor) && actor.observers == []
      ensures this.input == input && commands == statics.instance
      ensures old(statics.instance) != null ==> commands == old(statics.instance)
      ensures old(statics.instance) == null ==> fresh(commands) && fresh(commands.queue) && Queued() == []
      ensures initialPosition == Vec3(initial.x, initial.y + EYES_ABOVE_GROUND, initial.z)
      ensures position == initialPosition
      ensures velocity == Vec3(0.0, 0.0, 0.0) && swingAngle == 0.0 && output == []
    {
      actor := new Actor();
      this.input := input;
      initialPosition := Vec3(initial.x, initial.y + EYES_ABOVE_GROUND, initial.z);
      position := Vec3(initial.x, initial.y + EYES_ABOVE_GROUND, initial.z);
      velocity := Vec3(0.0, 0.0, 0.0);
      swingStep := 0.15;
      swingAngle := 0.0;
      output := [];
      var shared := statics.GetInstance();
      commands := shared;
    }

    /** `isMoving`: some horizontal velocity component is non-zero; as velocity never has a y part, the player is moving exactly when its velocity is not zero. */
    predicate IsMoving()
      reads this
      ensures velocity.y == 0.0 ==> (IsMoving() <==> velocity != Vec3(0.0, 0.0, 0.0))
    {
      velocity.x != 0.0 || velocity.z != 0.0
    }

    /** `handleInput`: queue a fire command if due, then resolve both axes. */
    method HandleInput(lastButton: Option<string>)
      requires Valid()
      modifies this, commands, commands.queue
      ensures Valid() && Queued() == (if lastButton == Some(input.keyFire) then Ring.Accept(old(Queued()), FireCommand) else old(Queued()))
      ensures velocity == Vec3(LeftRight(input.buttons), 0.0, ForwardBackward(input.buttons))
      ensures position == old(position) && swingAngle == old(swingAngle) && output == old(output)
      ensures IsMoving() <==> input.buttons[Up].pressed || input.buttons[Down].pressed || input.buttons[Left].pressed || input.buttons[Right].pressed
    {
      HandleInputQueue(lastButton);
      HandleInputForwardBackward();
      HandleInputLeftRight();
      MovingIffButtonHeld(input.buttons);
    }

    /** `handleInputQueue`: one fire command is added exactly when the last button is the fire key. */
    method HandleInputQueue(lastButton: Option<string>)
      requires Valid()
      modifies commands, commands.queue
      ensures Valid() && commands.head == old(commands.head)
      ensures lastButton == Some(input.keyFire) ==> Queued() == Ring.Accept(old(Queued()), FireCommand)
      ensures lastButton != Some(input.keyFire) ==> Queued() == old(Queued()) && commands.tail == old(commands.tail) && commands.queue[..] == old(commands.queue[..])
    {
      if lastButton == Some(input.keyFire) {
        commands.Add(FireCommand);
      }
    }

    /** `fire`: notify every observer with the player-fire event. */
    method Fire() returns (calls: seq<Delivery>)
      ensures |calls| == |actor.observers|
      ensures forall i :: 0 <= i < |calls| ==> calls[i] == Delivery(actor.observers[i], actor, Notification(EventPlayerFire))
    {
      calls := actor.Notify(Notification(EventPlayerFire));
    }

    /** `handleInputForwardBackward`: `velocity.z` from the up and down buttons. */
    method HandleInputForwardBackward()
      requires Valid()
      modifies this
      ensures Valid() && velocity == old(velocity).(z := ForwardBackward(input.buttons))
      ensures position == old(position) && swingAngle == old(swingAngle) && output == old(output)
    {
      if input.buttons[Up].pressed || input.buttons[Down].pressed {
        if input.buttons[Down].time > input.buttons[Up].time {
          velocity := velocity.(z := -0.25);
        } else {
          velocity := velocity.(z := 0.25);
        }
      } else {
        velocity := velocity.(z := 0.0);
      }
    }

    /** `handleInputLeftRight`: `velocity.x` from the left and right buttons. */
    method HandleInputLeftRight()
      requires Valid()
      modifies this
      ensures Valid() && velocity == old(velocity).(x := LeftRight(input.buttons))
      ensures position == old(position) && swingAngle == old(swingAngle) && output == old(output)
    {
      if input.buttons[Left].pressed || input.buttons[Right].pressed {
        if input.buttons[Left].time > input.buttons[Right].time {
          velocity := velocity.(x := -0.25);
        } else {
          velocity := velocity.(x := 0.25);
        }
      } else {
        velocity := velocity.(x := 0.0);
      }
    }

    /**
     * `handleCommands`: take at most one command; on an empty queue nothing
     * happens, otherwise the command (a fire) is run and notifies the observers.
     */
    method HandleCommands() returns (calls: seq<Delivery>)
      requires Valid() && OnlyFireCommands(Queued())
      modifies commands
      ensures Valid() && OnlyFireCommands(Queued())
      ensures Queued() == Ring.Drop(old(Queued()))
      ensures old(Queued()) == [] ==> calls == [] && commands.head == old(commands.head)
      ensures old(Queued()) != [] ==> (|calls| == |actor.observers| &&
        forall i :: 0 <= i < |calls| ==> calls[i] == Delivery(actor.observers[i], actor, Notification(EventPlayerFire)))
    {
      var lastCommand := commands.Get();
      if lastCommand.None? {
        return [];
      }
      assert lastCommand.value == FireCommand;
      calls := Fire();
    }

    /** `calculateYPositionForSwing`: only while moving, advance the angle and bob `position.y`. */
    method CalculateYPositionForSwing(trig: Trig)
      requires Valid()
      modifies this
      ensures Valid() && velocity == old(velocity) && output == old(output)
      ensures old(IsMoving()) ==> (swingAngle == old(swingAngle) + 0.15 &&
        position == old(position).(y := initialPosition.y + trig.sin(swingAngle) / 4.0))
      ensures !old(IsMoving()) ==> swingAngle == old(swingAngle) && position == old(position)
    {
      if IsMoving() {
        swingAngle := swingAngle + swingStep;
        position := position.(y := initialPosition.y + trig.sin(swingAngle) / 4.0);
      }
    }

    /** `updatePosition`: `moveRight(velocity.x)`, `moveForward(velocity.z)`, camera y := `position.y`. */
    method UpdatePosition()
      requires Valid()
      modifies this
      ensures Valid() && velocity == old(velocity) && position == old(position) && swingAngle == old(swingAngle)
      ensures output == old(output) + [MoveRight(velocity.x), MoveForward(velocity.z), SetCameraY(position.y)]
    {
      output := output + [MoveRight(velocity.x), MoveForward(velocity.z), SetCameraY(position.y)];
    }

    /** `update`: run at most one command, bob if moving, then issue the moves. */
    method Update(dt: real, et: real, trig: Trig) returns (calls: seq<Delivery>)
      requires Valid() && OnlyFireCommands(Queued())
      modifies this, commands
      ensures Valid() && OnlyFireCommands(Queued())
      ensures Queued() == Ring.Drop(old(Queued()))
      ensures old(Queued()) == [] ==> calls == []
      ensures old(Queued()) != [] ==> (|calls| == |actor.observers| &&
        forall i :: 0 <= i < |calls| ==> calls[i] == Delivery(actor.observers[i], actor, Notification(EventPlayerFire)))
      ensures velocity == old(velocity)
      ensures old(IsMoving()) ==> (swingAngle == old(swingAngle) + 0.15 &&
        position == old(position).(y := initialPosition.y + trig.sin(swingAngle) / 4.0))
      ensures !old(IsMoving()) ==> swingAngle == old(swingAngle) && position == old(position)
      ensures output == old(output) + [MoveRight(velocity.x), MoveForward(velocity.z), SetCameraY(position.y)]
    {
      calls := HandleCommands();
      CalculateYPositionForSwing(trig);
      UpdatePosition();
    }
  }

  /** A new player with a new, empty shared queue, observed by two new actors registered in order. */
  method ObservedPlayer(input: KeyboardPlayerInput) returns (player: Player, a: Actor, b: Actor)
    requires input.Valid()
    ensures fresh(player) && fresh(player.actor) && fresh(player.commands) && fresh(player.commands.queue)
    ensures fresh(a) && fresh(b) && a != b && a != player.actor && b != player.actor
    ensures player.Valid() && player.input == input && player.Queued() == []
    ensures player.actor.observers == [a, b]
  {
    var statics := new CommandQueue.CommandQueueStatics(Blank);
    player := new Player(Vec3(0.0, 0.0, -30.0), input, statics);
    a := new Actor();
    b := new Actor();
    player.actor.AddObserver(a);
    player.actor.AddObserver(b);
  }

  /**
   * The end-to-end frame: a fire key activation is queued by `handleInput` and
   * the next `update` notifies both observers once each, in registration order.
   */
  method FireReachesObservers(input: KeyboardPlayerInput, trig: Trig) returns (player: Player, a: Actor, b: Actor, calls: seq<Delivery>)
    requires input.Valid()
    ensures fresh(a) && fresh(b) && a != b && a != player.actor && b != player.actor
    ensures calls == [Delivery(a, player.actor, Notification(EventPlayerFire)), Delivery(b, player.actor, Notification(EventPlayerFire))]
  {
    player, a, b := ObservedPlayer(input);
    player.HandleInput(Some(input.keyFire));
    calls := player.Update(0.0, 0.0, trig);
  }
}
