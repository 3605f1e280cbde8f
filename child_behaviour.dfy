/** The child that follows the parent around, cries when neglected, runs
    away when neglected too long, and wanders on its own until found. */
module ChildBehaviour {
  import opened Movements
  import opened ChildSpec

  class Child {
    // Tunables (inspector fields).
    const initialComfort: int
    const cryAt: int
    const runAwayAt: int
    const moveTime: Duration
    const turnTime: Duration

    var isFollowing: bool
    var isCrying: bool
    var comfort: int
    var stepsWandering: nat
    /** The movement queue; its head is the step in progress. */
    var movements: seq<Movement>
    /** Seconds spent on the head of the queue. */
    var movementT: real
    /** Every call made into the audio controller, the exit gate and the
        particle controller, oldest first. */
    var trace: seq<Event>

    function Settings(): Config {
      Config(initialComfort, cryAt, runAwayAt, moveTime, turnTime)
    }

    function State(): ChildState
      reads this
    {
      ChildState(comfort, isFollowing, isCrying, stepsWandering, movements, movementT, trace)
    }

    /** With ordered thresholds, the mood invariant of ChildSpec holds
        between any two calls. */
    ghost predicate Valid()
      reads this
    {
      Ordered(Settings()) ==> Inv(Settings(), State())
    }

    /** Field initialisers followed by the scene's start. */
    constructor (initialComfort: int, cryAt: int, runAwayAt: int, moveTime: Duration, turnTime: Duration)
      ensures Settings() == Config(initialComfort, cryAt, runAwayAt, moveTime, turnTime)
      ensures State() == Started(Settings())
      ensures Valid()
    {
      this.initialComfort := initialComfort;
      this.cryAt := cryAt;
      this.runAwayAt := runAwayAt;
      this.moveTime := moveTime;
      this.turnTime := turnTime;
      isFollowing := true;
      movements := [];
      movementT := 0.0;
      stepsWandering := 0;
      trace := [];
      comfort := initialComfort;
      isCrying := false;
      new;
      if Ordered(Settings()) {
        StartedInv(Settings());
      }
    }

    /** One frame: advance the step in progress, if any. */
    method Update(dt: real, probe: Probe)
      requires Valid()
      modifies this
      ensures State() == AfterUpdate(Settings(), old(State()), dt, probe)
      ensures Valid()
    {
      if |movements| > 0 {
        HandleMove(dt, probe);
      }
    }

    method HandleMove(dt: real, probe: Probe)
      requires movements != []
      modifies this
      ensures State() == AfterMove(Settings(), old(State()), dt, probe)
    {
      var movement := movements[0];
      movementT := movementT + dt;
      var t := movementT / movement.duration;

      if t > 1.0 {
        movementT := 0.0;
        movements := movements[1..];
        MoveCompleted(movement, probe);
      }
      // Interpolating the pose at `t` is engine work outside this model.
    }

    method MoveCompleted(movement: Movement, probe: Probe)
      modifies this
      ensures State() == AfterMoveCompleted(Settings(), old(State()), movement, probe)
    {
      if |movements| == 0 && !isFollowing {
        ComputeNextMove(movement, probe);
      }
    }

    method ComputeNextMove(previous: Movement, probe: Probe)
      modifies this
      ensures movements == old(movements) + NextSteps(moveTime, turnTime, previous, probe)
      ensures State() == old(State()).(movements := movements)
    {
      // After a walk, keep walking while nothing is in front.
      if previous.Move? && probe.canForward {
        assert NextSteps(moveTime, turnTime, previous, probe) == [MakeMovement(moveTime, Forward)];
        movements := movements + [MakeMovement(moveTime, Forward)];
        return;
      }

      var options := Candidates(probe);

      if |options| == 0 {
        // Boxed in: turn round.
        assert NextSteps(moveTime, turnTime, previous, probe) == [MakeRotation(turnTime, 180)];
        movements := movements + [MakeRotation(turnTime, 180)];
      } else {
        // Prefer the free spot furthest from the parent.
        var go := options[BestIndex(options, probe)];
        ghost var queued := movements;
        if go == Left {
          movements := movements + [MakeRotation(turnTime, -90)];
        } else if go == Right {
          movements := movements + [MakeRotation(turnTime, 90)];
        }
        assert movements == queued + TurnTowards(turnTime, go);
        movements := movements + [MakeMovement(moveTime, go)];
        assert NextSteps(moveTime, turnTime, previous, probe)
            == TurnTowards(turnTime, go) + [MakeMovement(moveTime, go)];
        assert movements == queued + (TurnTowards(turnTime, go) + [MakeMovement(moveTime, go)]);
      }
    }

    /** The free directions, added to the list in the order left, right,
        forward. */
    static method Candidates(probe: Probe) returns (options: seq<Direction>)
      ensures options == FreeDirections(probe)
    {
      options := [];
      if probe.canLeft { options := options + [Left]; }
      if probe.canRight { options := options + [Right]; }
      if probe.canForward { options := options + [Forward]; }
    }

    method OnTriggerEnter(isPlayer: bool)
      requires Valid()
      modifies this
      ensures State() == AfterTrigger(Settings(), old(State()), isPlayer)
      ensures Valid()
    {
      if !isFollowing && isPlayer {
        OnJoining();
      }
      if Ordered(Settings()) {
        ApplyKeepsInv(Settings(), old(State()), Contact(isPlayer));
      }
    }

    /** Called for every step the parent takes. */
    method DecrementComfort()
      requires Valid()
      modifies this
      ensures State() == AfterDecrement(Settings(), old(State()))
      ensures Valid()
    {
      if isFollowing {
        comfort := comfort - 1;

        if comfort <= runAwayAt {
          OnLeaving();
          // Turn round and run away from the parent.
          movements := movements + [MakeRotation(turnTime, 180)];
        } else if comfort <= cryAt {
          OnCrying();
        }
      } else {
        stepsWandering := stepsWandering + 1;
        if CSharp.CsRem(stepsWandering, 8) == 6 {
          trace := trace + [ChildWandering];
        }
      }
      if Ordered(Settings()) {
        ApplyKeepsInv(Settings(), old(State()), Step);
      }
    }

    method GiveCandy(at: Point)
      requires Valid()
      modifies this
      ensures State() == AfterCandy(Settings(), old(State()), at)
      ensures Valid()
    {
      if isFollowing {
        OnHappy();
        trace := trace + [Burst(at)];
        trace := trace + [CollectAt(at)];
      }
      // A child that ran away ignores candy.
      if Ordered(Settings()) {
        ApplyKeepsInv(Settings(), old(State()), Candy(at));
      }
    }

    method OnCrying()
      modifies this
      ensures State() == AfterCrying(Settings(), old(State()))
    {
      isCrying := true;
      trace := trace + [SetSad];
      // A sob every fifth step below the threshold.
      if CSharp.CsRem(comfort - cryAt, 5) == 0 {
        trace := trace + [ChildSad];
      }
    }

    method OnHappy()
      modifies this
      ensures State() == AfterHappy(Settings(), old(State()))
    {
      comfort := initialComfort;
      isCrying := false;
      trace := trace + [SetHappy];
      trace := trace + [CollectCandy];
    }

    method OnLeaving()
      modifies this
      ensures State() == AfterLeaving(Settings(), old(State()))
    {
      isFollowing := false;
      isCrying := false;

      if comfort == runAwayAt {
        trace := trace + [ChildLeave];
        stepsWandering := 0;
      }

      trace := trace + [SetFollowing(false)];
      trace := trace + [SetLost];
    }

    method OnJoining()
      modifies this
      ensures State() == AfterJoining(Settings(), old(State()))
    {
      isFollowing := true;
      isCrying := true;
      comfort := cryAt;

      trace := trace + [SetFollowing(true)];
      trace := trace + [SetSad];
      trace := trace + [Join];
    }
  }
}
