/**
 * The warp gate: between `startWarp` and `endWarp` the pen suppresses its
 * own redraws, damage and notices, and `endWarp` makes up for them with at
 * most one icon regeneration and exactly one notice to the parent.
 */
module WarpFacts {
  import opened Angles
  import opened Effects
  import opened Turtle
  import opened TurtleFacts
  import opened GeneratorFacts

  /**
   * `warpOp` around a generator: the moves and strokes happen, but the
   * icon is regenerated once at the end if the generator turned at all,
   * the parent is notified exactly once, and no damage and no child
   * notice is caused. The pen ends unwarped, facing as it started.
   */
  lemma WarpedGenerator(m: Machine, p: Placement, g: Generator)
    requires p != Orphan && WellFormed(g)
    ensures CanRun(StartWarp(m), p, [GenerateOp(g)])
    ensures var r := Warp(m, p, [GenerateOp(g)]);
      && !r.pen.isWarped && !r.pen.wantsRedraw
      && r.pen.isDown == m.pen.isDown && r.pen.penPoint == m.pen.penPoint
      && Congruent(r.pen.heading, m.pen.heading)
      && m.log <= r.log
      && Count(r.log, Icons) == Count(m.log, Icons) + (if GeneratorTurns(g) > 0 then 1 else 0)
      && Count(r.log, Damages) == Count(m.log, Damages)
      && Count(r.log, ChildNotices) == Count(m.log, ChildNotices)
      && Count(r.log, ParentNotices) == Count(m.log, ParentNotices) + 1
      && Count(r.log, TrailClears) == Count(m.log, TrailClears)
      && Count(r.log, Strokes) == Count(m.log, Strokes) + (if m.pen.isDown then GeneratorForwards(g) else 0)
      && Count(r.log, Steps) == Count(m.log, Steps) + GeneratorForwards(g)
  {
    var body := [GenerateOp(g)];
    var warped := StartWarp(m);
    assert body[1..] == [];
    var done := Generate(warped, p, g);
    GenerateCounts(warped, p, g);
    assert Run(warped, p, body) == done;
    WarpAround(m, done, p, GeneratorTurns(g), GeneratorForwards(g));
  }

  /** Ending a warp around `turns` turns and `forwards` moves. */
  lemma WarpAround(m: Machine, done: Machine, p: Placement, turns: nat, forwards: nat)
    requires p != Orphan && Motion(StartWarp(m), done, p, turns, forwards)
    ensures var r := EndWarp(done, p);
      && !r.pen.isWarped && !r.pen.wantsRedraw
      && r.pen.isDown == m.pen.isDown && r.pen.penPoint == m.pen.penPoint
      && r.pen.heading == done.pen.heading
      && m.log <= r.log
      && Count(r.log, Icons) == Count(m.log, Icons) + (if turns > 0 then 1 else 0)
      && Count(r.log, Damages) == Count(m.log, Damages)
      && Count(r.log, ChildNotices) == Count(m.log, ChildNotices)
      && Count(r.log, ParentNotices) == Count(m.log, ParentNotices) + 1
      && Count(r.log, TrailClears) == Count(m.log, TrailClears)
      && Count(r.log, Strokes) == Count(m.log, Strokes) + (if m.pen.isDown then forwards else 0)
      && Count(r.log, Steps) == Count(m.log, Steps) + forwards
  {
    EndWarpFlushes(done, p);
    PrefixTransitive(m.log, done.log, EndWarp(done, p).log);
  }

  /** `warpTree`: one icon regeneration exactly when the tree has a positive level. */
  lemma WarpTreeOnce(m: Machine, p: Placement, level: int, length: real, angle: int)
    requires p != Orphan
    ensures var r := Warp(m, p, [GenerateOp(TreeGen(level, length, angle))]);
      && Count(r.log, Icons) == Count(m.log, Icons) + (if level > 0 then 1 else 0)
      && Count(r.log, ParentNotices) == Count(m.log, ParentNotices) + 1
      && Count(r.log, Damages) == Count(m.log, Damages)
      && Count(r.log, Steps) == Count(m.log, Steps) + TreeForwards(level)
  {
    WarpedGenerator(m, p, TreeGen(level, length, angle));
  }

  /** `warpSierpinski`: one icon regeneration exactly when `length > min`. */
  lemma WarpSierpinskiOnce(m: Machine, p: Placement, length: real, min: real)
    requires p != Orphan && (length <= min || min > 0.0)
    ensures var r := Warp(m, p, [GenerateOp(SierpinskiGen(length, min))]);
      && Count(r.log, Icons) == Count(m.log, Icons) + (if length > min then 1 else 0)
      && Count(r.log, ParentNotices) == Count(m.log, ParentNotices) + 1
      && Count(r.log, Damages) == Count(m.log, Damages)
  {
    WarpedGenerator(m, p, SierpinskiGen(length, min));
  }

  /** A procedure that does not itself start or end a warp. */
  predicate Flat(ops: seq<Op>)
  {
    forall i | 0 <= i < |ops| :: !ops[i].StartWarpOp? && !ops[i].EndWarpOp?
  }

  /** Whether an operation redraws the icon: the heading setters always, a generator if it turns. */
  predicate Redraws(op: Op)
  {
    match op
    case SetHeadingOp(_) => true
    case TurnOp(_) => true
    case GenerateOp(g) => WellFormed(g) && GeneratorTurns(g) > 0
    case _ => false
  }

  predicate AnyRedraw(ops: seq<Op>)
  {
    exists i | 0 <= i < |ops| :: Redraws(ops[i])
  }

  function Clears(ops: seq<Op>): nat
  {
    if ops == [] then 0 else (if ops[0].ClearOp? then 1 else 0) + Clears(ops[1..])
  }

  /**
   * One operation of a flat procedure on a warped pen: the pen stays
   * warped, a redraw is wanted if one was or the operation redraws, and
   * only clears reach the parent; no icon, damage or child notice.
   */
  lemma WarpedStep(m: Machine, p: Placement, op: Op)
    requires m.pen.isWarped && !op.StartWarpOp? && !op.EndWarpOp? && CanStep(m.pen, p, op)
    ensures var r := Step(m, p, op);
      && r.pen.isWarped
      && r.pen.wantsRedraw == (m.pen.wantsRedraw || Redraws(op))
      && Count(r.log, Icons) == Count(m.log, Icons)
      && Count(r.log, Damages) == Count(m.log, Damages)
      && Count(r.log, ChildNotices) == Count(m.log, ChildNotices)
      && Count(r.log, ParentNotices) == Count(m.log, ParentNotices) + (if op.ClearOp? then 1 else 0)
  {
    match op
    case SetHeadingOp(degrees) => WarpedSetHeading(m, p, degrees);
    case TurnOp(degrees) =>
      TurnCounts(m, p, degrees);
      WarpedMotion(m, Turn(m, p, degrees), p, 1, 0);
    case ForwardOp(steps) =>
      ForwardCounts(m, p, steps);
      WarpedMotion(m, Forward(m, p, steps), p, 0, 1);
    case UpOp =>
    case DownOp =>
    case ClearOp => ClearCounts(m, p);
    case GenerateOp(g) => WarpedGenerate(m, p, g);
  }

  /** A generator on a warped pen: no icon, damage or notice; a redraw is wanted if it turned. */
  lemma WarpedGenerate(m: Machine, p: Placement, g: Generator)
    requires m.pen.isWarped && CanGenerate(m.pen, p, g)
    ensures WellFormed(g)
    ensures var r := Generate(m, p, g);
      && r.pen.isWarped
      && r.pen.wantsRedraw == (m.pen.wantsRedraw || GeneratorTurns(g) > 0)
      && Count(r.log, Icons) == Count(m.log, Icons)
      && Count(r.log, Damages) == Count(m.log, Damages)
      && Count(r.log, ChildNotices) == Count(m.log, ChildNotices)
      && Count(r.log, ParentNotices) == Count(m.log, ParentNotices)
  {
    GenerateCounts(m, p, g);
    WarpedMotion(m, Generate(m, p, g), p, GeneratorTurns(g), GeneratorForwards(g));
  }

  /** Setting the heading while warped leaves the log alone and makes a redraw wanted. */
  lemma WarpedSetHeading(m: Machine, p: Placement, degrees: int)
    requires m.pen.isWarped
    ensures var r := SetHeading(m, p, degrees);
      r.pen.isWarped && r.pen.wantsRedraw && r.log == m.log
  {
    SetHeadingStores(m, p, degrees);
    SetHeadingEffects(m, p, degrees);
  }

  /** Turning and moving while warped causes no icon, damage or notice; a turn makes a redraw wanted. */
  lemma WarpedMotion(m: Machine, r: Machine, p: Placement, turns: nat, forwards: nat)
    requires m.pen.isWarped && Motion(m, r, p, turns, forwards)
    ensures r.pen.isWarped && r.pen.wantsRedraw == (m.pen.wantsRedraw || turns > 0)
    ensures Count(r.log, Icons) == Count(m.log, Icons)
    ensures Count(r.log, Damages) == Count(m.log, Damages)
    ensures Count(r.log, ChildNotices) == Count(m.log, ChildNotices)
    ensures Count(r.log, ParentNotices) == Count(m.log, ParentNotices)
  {
  }

  lemma {:induction false} WarpedRun(m: Machine, p: Placement, ops: seq<Op>)
    requires m.pen.isWarped && Flat(ops) && CanRun(m, p, ops)
    ensures var r := Run(m, p, ops);
      && r.pen.isWarped
      && r.pen.wantsRedraw == (m.pen.wantsRedraw || AnyRedraw(ops))
      && Count(r.log, Icons) == Count(m.log, Icons)
      && Count(r.log, Damages) == Count(m.log, Damages)
      && Count(r.log, ChildNotices) == Count(m.log, ChildNotices)
      && Count(r.log, ParentNotices) == Count(m.log, ParentNotices) + Clears(ops)
    decreases |ops|
  {
    if ops != [] {
      var rest := ops[1..];
      assert Flat(rest) by {
        forall i | 0 <= i < |rest| ensures !rest[i].StartWarpOp? && !rest[i].EndWarpOp? {
          assert rest[i] == ops[i + 1];
        }
      }
      var next := Step(m, p, ops[0]);
      WarpedStep(m, p, ops[0]);
      WarpedRun(next, p, rest);
      assert AnyRedraw(ops) == (Redraws(ops[0]) || AnyRedraw(rest)) by {
        if AnyRedraw(rest) {
          var i :| 0 <= i < |rest| && Redraws(rest[i]);
          assert ops[i + 1] == rest[i];
        }
        if AnyRedraw(ops) && !Redraws(ops[0]) {
          var i :| 0 <= i < |ops| && Redraws(ops[i]);
          assert rest[i - 1] == ops[i];
        }
      }
    }
  }

  /**
   * `warp(fun)` around a procedure that does not itself start or end a
   * warp: at most one icon regeneration, made exactly when the procedure
   * set or turned the heading; no damage and no child notice from the
   * body; and one parent notice for the warp besides one per clear.
   */
  lemma WarpBatches(m: Machine, p: Placement, body: seq<Op>)
    requires p != Orphan && Flat(body) && CanRun(StartWarp(m), p, body)
    ensures var r := Warp(m, p, body);
      && !r.pen.isWarped && !r.pen.wantsRedraw
      && Count(r.log, Icons) == Count(m.log, Icons) + (if AnyRedraw(body) then 1 else 0)
      && Count(r.log, Damages) == Count(m.log, Damages)
      && Count(r.log, ChildNotices) == Count(m.log, ChildNotices)
      && Count(r.log, ParentNotices) == Count(m.log, ParentNotices) + Clears(body) + 1
  {
    var done := Run(StartWarp(m), p, body);
    WarpedRun(StartWarp(m), p, body);
    EndWarpFlushes(done, p);
  }
}
