/**
 * The pen's fields stay in range: every operation, generators and warps
 * included, keeps the heading strictly inside a full turn and the stroke
 * width positive, starting from a new pen.
 */
module RangeFacts {
  import opened Angles
  import opened Turtle
  import opened TurtleFacts
  import opened GeneratorFacts

  /** A new pen is in range. */
  lemma InitialInRange()
    ensures InRange(Initial)
  {
  }

  /** Replaying calls keeps the heading inside a full turn: every turn stores a remainder. */
  lemma {:induction false} ReplayKeepsHeading(m: Machine, p: Placement, calls: seq<Call>)
    requires -FullTurn < m.pen.heading < FullTurn
    requires calls == [] || Drawable(m.pen, p)
    ensures -FullTurn < Replay(m, p, calls).pen.heading < FullTurn
    decreases |calls|
  {
    if calls != [] {
      var c := calls[0];
      var next := Perform(m, p, c);
      if c.TurnBy? {
        SetHeadingStores(m, p, m.pen.heading + c.degrees);
      }
      assert -FullTurn < next.pen.heading < FullTurn;
      ReplayKeepsHeading(next, p, calls[1..]);
      assert Replay(m, p, calls) == Replay(next, p, calls[1..]);
    }
  }

  /** `tree` and `sierpinski` keep the pen in range. */
  lemma GenerateKeepsRange(m: Machine, p: Placement, g: Generator)
    requires InRange(m.pen) && CanGenerate(m.pen, p, g)
    ensures InRange(Generate(m, p, g).pen)
  {
    match g
    case SierpinskiGen(length, min) =>
      SierpinskiReplays(m, p, length, min);
      ReplayKeepsHeading(m, p, SierpinskiCalls(length, min));
    case TreeGen(level, length, angle) =>
      TreeReplays(m, p, level, length, angle);
      ReplayKeepsHeading(m, p, TreeCalls(level, length, angle));
  }

  /**
   * Every operation keeps the pen in range; `setHeading` and `turn` bring
   * any heading into range, whatever it was before.
   */
  lemma StepKeepsRange(m: Machine, p: Placement, op: Op)
    requires InRange(m.pen) && CanStep(m.pen, p, op)
    ensures InRange(Step(m, p, op).pen)
  {
    match op
    case SetHeadingOp(degrees) => SetHeadingStores(m, p, degrees);
    case TurnOp(degrees) => SetHeadingStores(m, p, m.pen.heading + degrees);
    case GenerateOp(g) => GenerateKeepsRange(m, p, g);
    case _ =>
  }

  lemma {:induction false} RunKeepsRange(m: Machine, p: Placement, ops: seq<Op>)
    requires InRange(m.pen) && CanRun(m, p, ops)
    ensures InRange(Run(m, p, ops).pen)
    decreases |ops|
  {
    if ops != [] {
      StepKeepsRange(m, p, ops[0]);
      RunKeepsRange(Step(m, p, ops[0]), p, ops[1..]);
    }
  }

  /** A warp around any procedure keeps the pen in range. */
  lemma WarpKeepsRange(m: Machine, p: Placement, body: seq<Op>)
    requires InRange(m.pen) && p != Orphan && CanRun(StartWarp(m), p, body)
    ensures InRange(Warp(m, p, body).pen)
  {
    RunKeepsRange(StartWarp(m), p, body);
  }
}
