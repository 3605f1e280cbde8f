/** Movement steps of the child and the choice of its next autonomous step. */
module Movements {

  /** Seconds; a step with no positive duration has no interpolation fraction. */
  type Duration = r: real | r > 0.0 witness 1.0

  /** The three horizontal probe directions, in the child's frame when the
      probe is taken. */
  datatype Direction = Left | Right | Forward

  /** One queued step. A Move walks one unit along `offset`; a Rotate
      turns `angle` degrees about the vertical axis. The engine poses the
      step interpolates between are sampled when it is made and are not part
      of this model. */
  datatype Movement =
    | Move(duration: Duration, offset: Direction)
    | Rotate(duration: Duration, angle: int)

  /** What the three raycasts and the distance scoring report when the
      child decides where to go next: `canX` is true when nothing was hit
      within the probe length, `scoreX` is the squared distance between the
      parent and the spot one step in that direction. */
  datatype Probe = Probe(
    canLeft: bool, canRight: bool, canForward: bool,
    scoreLeft: real, scoreRight: real, scoreForward: real)

  /** The probe found no obstacle in direction `d`. */
  predicate Free(p: Probe, d: Direction) {
    match d
    case Left => p.canLeft
    case Right => p.canRight
    case Forward => p.canForward
  }

  function Score(p: Probe, d: Direction): real {
    match d
    case Left => p.scoreLeft
    case Right => p.scoreRight
    case Forward => p.scoreForward
  }

  predicate AnyFree(p: Probe) {
    p.canLeft || p.canRight || p.canForward
  }

  /** The order in which the candidate list is built: left, right, forward. */
  function Rank(d: Direction): nat {
    match d
    case Left => 0
    case Right => 1
    case Forward => 2
  }

  /** A step walking one unit along `offset`. */
  function MakeMovement(moveTime: Duration, offset: Direction): (m: Movement)
    ensures m.Move? && m.offset == offset && m.duration == moveTime
  {
    Move(moveTime, offset)
  }

  /** A step turning `angle` degrees about the vertical axis. */
  function MakeRotation(turnTime: Duration, angle: int): (m: Movement)
    ensures m.Rotate? && m.angle == angle && m.duration == turnTime
  {
    Rotate(turnTime, angle)
  }

  /** The candidate list: the free directions in the order they are added. */
  function FreeDirections(p: Probe): (options: seq<Direction>)
    ensures forall d :: d in options <==> Free(p, d)
    ensures forall i, j :: 0 <= i < j < |options| ==> Rank(options[i]) < Rank(options[j])
    ensures options == [] <==> !AnyFree(p)
  {
    (if p.canLeft then [Left] else [])
    + (if p.canRight then [Right] else [])
    + (if p.canForward then [Forward] else [])
  }

  /** The position a stable descending sort by score puts first: the
      first candidate whose score no other candidate exceeds. */
  function BestIndex(options: seq<Direction>, p: Probe): (k: nat)
    requires |options| > 0
    ensures k < |options|
    ensures forall i :: 0 <= i < |options| ==> Score(p, options[i]) <= Score(p, options[k])
    ensures forall i :: 0 <= i < k ==> Score(p, options[i]) < Score(p, options[k])
  {
    if |options| == 1 then 0
    else
      var k := BestIndex(options[1..], p) + 1;
      if Score(p, options[0]) >= Score(p, options[k]) then 0 else k
  }

  /** `d` is the direction the child should take: free, scored at least as
      high as every free direction, and strictly higher than every free
      direction that comes before it in the candidate order. */
  ghost predicate IsBestChoice(p: Probe, d: Direction) {
    && Free(p, d)
    && (forall e :: Free(p, e) ==> Score(p, e) <= Score(p, d))
    && (forall e :: Free(p, e) && Rank(e) < Rank(d) ==> Score(p, e) < Score(p, d))
  }

  /** The turn that makes `d` the facing direction before walking. */
  function TurnTowards(turnTime: Duration, d: Direction): seq<Movement> {
    match d
    case Left => [MakeRotation(turnTime, -90)]
    case Right => [MakeRotation(turnTime, 90)]
    case Forward => []
  }

  /** The steps appended when the child, wandering on its own, has just
      finished `previous` and the queue has run empty. */
  function NextSteps(moveTime: Duration, turnTime: Duration, previous: Movement, p: Probe): (steps: seq<Movement>)
    // keep walking straight on after a walk when nothing is in front
    ensures previous.Move? && p.canForward ==> steps == [Move(moveTime, Forward)]
    // boxed in on all three sides: turn round
    ensures !(previous.Move? && p.canForward) && !AnyFree(p) ==> steps == [Rotate(turnTime, 180)]
    // otherwise at most a turn, then one walk (see NextStepsChoosesBest)
    ensures !(previous.Move? && p.canForward) && AnyFree(p) ==>
      1 <= |steps| <= 2 && steps[|steps| - 1].Move?
  {
    if previous.Move? && p.canForward then
      [MakeMovement(moveTime, Forward)]
    else
      var options := FreeDirections(p);
      if |options| == 0 then
        [MakeRotation(turnTime, 180)]
      else
        var go := options[BestIndex(options, p)];
        TurnTowards(turnTime, go) + [MakeMovement(moveTime, go)]
  }

  /** Unless it walks straight on or is boxed in, the child faces the best
      free direction and takes one step along it. */
  lemma NextStepsChoosesBest(moveTime: Duration, turnTime: Duration, previous: Movement, p: Probe)
    requires !(previous.Move? && p.canForward) && AnyFree(p)
    ensures exists d ::
              && IsBestChoice(p, d)
              && NextSteps(moveTime, turnTime, previous, p) == TurnTowards(turnTime, d) + [Move(moveTime, d)]
  {
    var options := FreeDirections(p);
    var k := BestIndex(options, p);
    ChosenIsBest(p, options, k);
    assert IsBestChoice(p, options[k]);
  }

  /** What the stable sort picks from the candidate list is the best choice. */
  lemma ChosenIsBest(p: Probe, options: seq<Direction>, k: nat)
    requires options == FreeDirections(p)
    requires k < |options|
    requires forall i :: 0 <= i < |options| ==> Score(p, options[i]) <= Score(p, options[k])
    requires forall i :: 0 <= i < k ==> Score(p, options[i]) < Score(p, options[k])
    ensures IsBestChoice(p, options[k])
  {
  }

  /** The best choice is unique: the same probe always yields the same
      direction. */
  lemma BestChoiceUnique(p: Probe, d: Direction, e: Direction)
    requires IsBestChoice(p, d) && IsBestChoice(p, e)
    ensures d == e
  {
  }
}
