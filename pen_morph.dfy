/**
 * The pen morph: a LOGO-style turtle whose operations update its fields in
 * place. Every outside effect is appended to the ghost `log`; each method is
 * proved to leave the state and the log that the matching function of the
 * Turtle module describes.
 */
module PenMorph {
  import opened Icon
  import opened Effects
  import Turtle
  import opened Angles
  import RangeFacts

  class Pen {
    var heading: int
    var isDown: bool
    var size: real                // the stroke width
    var penPoint: PenPoint
    var isWarped: bool
    var wantsRedraw: bool

    /** Where the pen sits in the morph tree; the operations here never move it. */
    const placement: Turtle.Placement

    /** The effects so far: icon regenerations, damage, notices, strokes, moves. */
    ghost var log: seq<Effect>

    function State(): Turtle.PenState
      reads this
    {
      Turtle.PenState(heading, isDown, size, penPoint, isWarped, wantsRedraw)
    }

    /** The heading is inside a full turn and the stroke width positive. */
    predicate InRange()
      reads this
    {
      Turtle.InRange(State())
    }

    /** `initialize` and `init`: the pen's own fields start as `Turtle.Initial`. */
    constructor (placement: Turtle.Placement)
      ensures State() == Turtle.Initial && this.placement == placement && log == []
      ensures InRange()
    {
      isWarped := false;
      heading := 0;
      isDown := true;
      size := 1.0;
      wantsRedraw := false;
      penPoint := Tip;
      this.placement := placement;
      log := [];
    }

    /** The pen's fields and the log together, as the Turtle functions see them. */
    ghost function Machine(): Turtle.Machine
      reads this
    {
      Turtle.Machine(State(), log)
    }

    method Changed()
      modifies this
      ensures Machine() == Turtle.Changed(old(Machine()), placement)
    {
      if !isWarped {
        if placement == Turtle.OnStage {
          log := log + [Damage(OwnBounds)];
        }
        if placement != Turtle.Orphan {
          log := log + [ChildChanged];
        }
      }
    }

    method DrawNew(facing: Option<int>)
      modifies this
      ensures Machine() == Turtle.DrawNew(old(Machine()), facing)
    {
      var direction := Direction(facing, heading);
      if isWarped {
        wantsRedraw := true;
        return;
      }
      var apex, left, right;
      if penPoint == Tip {
        apex, left, right := Polar(0.75, direction - 180), Polar(1.0, direction + 195), Polar(1.0, direction - 195);
      } else {
        apex, left, right := Polar(0.75, direction), Polar(0.33, direction + 230), Polar(0.33, direction - 230);
      }
      log := log + [IconDrawn(Arrow(apex, left, right))];
    }

    method SetHeading(degrees: int)
      modifies this
      ensures Machine() == Turtle.SetHeading(old(Machine()), placement, degrees)
    {
      heading := if degrees >= 0 then degrees % 360 else -((-degrees) % 360);
      NormalizeIsJsRemainder(degrees);
      DrawNew(None);
      Changed();
    }

    method DrawLine(segment: Segment)
      requires Turtle.Drawable(State(), placement)
      modifies this
      ensures Machine() == Turtle.DrawLine(old(Machine()), placement, segment)
    {
      if isDown {
        log := log + [Stroke(segment, size)];
        if !isWarped {
          var margin := if size / 2.0 > 1.0 then size / 2.0 else 1.0;
          log := log + [Damage(SegmentBox(segment, margin))];
        }
      }
    }

    method Turn(degrees: int)
      modifies this
      ensures Machine() == Turtle.Turn(old(Machine()), placement, degrees)
    {
      SetHeading(heading + degrees);
    }

    method Forward(steps: real)
      requires Turtle.Drawable(State(), placement)
      modifies this
      ensures Machine() == Turtle.Forward(old(Machine()), placement, steps)
    {
      var segment;
      if steps >= 0.0 {
        segment := Segment(steps, heading);
      } else {
        segment := Segment(-steps, heading - 180);
      }
      log := log + [Moved(segment)];
      DrawLine(segment);
    }

    method Down()
      modifies this
      ensures Machine() == Turtle.Down(old(Machine()))
    {
      isDown := true;
    }

    method Up()
      modifies this
      ensures Machine() == Turtle.Up(old(Machine()))
    {
      isDown := false;
    }

    method Clear()
      requires placement != Turtle.Orphan
      modifies this
      ensures Machine() == Turtle.Clear(old(Machine()), placement)
    {
      log := log + [TrailsCleared];
      log := log + [ParentChanged];
    }

    method StartWarp()
      modifies this
      ensures Machine() == Turtle.StartWarp(old(Machine()))
    {
      wantsRedraw := false;
      isWarped := true;
    }

    method EndWarp()
      requires placement != Turtle.Orphan
      modifies this
      ensures Machine() == Turtle.EndWarp(old(Machine()), placement)
    {
      isWarped := false;
      if wantsRedraw {
        DrawNew(None);
        wantsRedraw := false;
      }
      log := log + [ParentChanged];
    }

    method Sierpinski(length: real, min: real)
      requires length <= min || (min > 0.0 && Turtle.Drawable(State(), placement))
      modifies this
      ensures Machine() == Turtle.Sierpinski(old(Machine()), placement, length, min)
      decreases Turtle.Depth(length, min)
    {
      if length > min {
        ghost var start := Machine();
        for i := 0 to 3
          invariant Turtle.Drawable(State(), placement)
          invariant Machine() == Turtle.SierpinskiRounds(start, placement, length, min, i)
        {
          Sierpinski(length * 0.5, min);
          Turn(120);
          Forward(length);
        }
      }
    }

    method Tree(level: int, length: real, angle: int)
      requires level <= 0 || Turtle.Drawable(State(), placement)
      modifies this
      ensures Machine() == Turtle.Tree(old(Machine()), placement, level, length, angle)
      decreases level, 1
    {
      if level > 0 {
        ghost var start := Machine();
        size := level as real;
        assert Machine() == start.(pen := start.pen.(size := level as real));
        Forward(length);
        ghost var trunk := Machine();
        assert trunk == Turtle.Forward(start.(pen := start.pen.(size := level as real)), placement, length);
        Branches(level, length, angle);
        Turn(angle);
        ghost var turned := Machine();
        assert turned == Turtle.Turn(Turtle.Branches(trunk, placement, level, length, angle), placement, angle);
        Forward(-length);
        assert Machine() == Turtle.Forward(turned, placement, -length);
      }
    }

    /** The two subtrees `tree` grows between drawing and retracing its trunk. */
    method Branches(level: int, length: real, angle: int)
      requires level > 0 && Turtle.Drawable(State(), placement)
      modifies this
      ensures Machine() == Turtle.Branches(old(Machine()), placement, level, length, angle)
      decreases level, 0
    {
      ghost var start := Machine();
      Turn(angle);
      Tree(level - 1, length * 0.75, angle);
      assert Machine() == Turtle.Tree(Turtle.Turn(start, placement, angle), placement, level - 1, length * 0.75, angle);
      ghost var first := Machine();
      Turn(angle * -2);
      Tree(level - 1, length * 0.75, angle);
      assert Machine() == Turtle.Tree(Turtle.Turn(first, placement, angle * -2), placement, level - 1, length * 0.75, angle);
    }

    /** Dispatch of `warpOp`'s selector to the generator it names. */
    method Generate(g: Turtle.Generator)
      requires Turtle.CanGenerate(State(), placement, g)
      modifies this
      ensures Machine() == Turtle.Generate(old(Machine()), placement, g)
    {
      match g
      case SierpinskiGen(length, min) => Sierpinski(length, min);
      case TreeGen(level, length, angle) => Tree(level, length, angle);
    }

    method Step(op: Turtle.Op)
      requires Turtle.CanStep(State(), placement, op)
      modifies this
      ensures Machine() == Turtle.Step(old(Machine()), placement, op)
      ensures old(InRange()) ==> InRange()
    {
      ghost var before := Machine();
      match op {
        case SetHeadingOp(degrees) => SetHeading(degrees);
        case TurnOp(degrees) => Turn(degrees);
        case ForwardOp(steps) => Forward(steps);
        case UpOp => Up();
        case DownOp => Down();
        case ClearOp => Clear();
        case StartWarpOp => StartWarp();
        case EndWarpOp => EndWarp();
        case GenerateOp(g) => Generate(g);
      }
      if Turtle.InRange(before.pen) {
        RangeFacts.StepKeepsRange(before, placement, op);
      }
    }

    /** The procedure handed to `warp`, called on the pen. */
    method Run(body: seq<Turtle.Op>)
      requires Turtle.CanRun(Machine(), placement, body)
      modifies this
      ensures Machine() == Turtle.Run(old(Machine()), placement, body)
      ensures old(InRange()) ==> InRange()
      decreases |body|
    {
      if body != [] {
        Step(body[0]);
        Run(body[1..]);
      }
    }

    method Warp(body: seq<Turtle.Op>)
      requires placement != Turtle.Orphan && Turtle.CanRun(Turtle.StartWarp(Machine()), placement, body)
      modifies this
      ensures Machine() == Turtle.Warp(old(Machine()), placement, body)
      ensures old(InRange()) ==> InRange()
    {
      StartWarp();
      Run(body);
      EndWarp();
    }

    /** `warpOp(selector, args)`: one generator call between `startWarp` and `endWarp`. */
    method WarpOp(g: Turtle.Generator)
      requires placement != Turtle.Orphan && Turtle.CanGenerate(Turtle.StartWarp(Machine()).pen, placement, g)
      modifies this
      ensures Machine() == Turtle.Warp(old(Machine()), placement, [Turtle.GenerateOp(g)])
    {
      ghost var body := [Turtle.GenerateOp(g)];
      StartWarp();
      ghost var warped := Machine();
      Generate(g);
      assert body[1..] == [];
      assert Turtle.Run(warped, placement, body) == Machine();
      EndWarp();
    }

    method WarpSierpinski(length: real, min: real)
      requires placement != Turtle.Orphan && (length <= min || min > 0.0)
      modifies this
      ensures Machine() == Turtle.Warp(old(Machine()), placement, [Turtle.GenerateOp(Turtle.SierpinskiGen(length, min))])
    {
      WarpOp(Turtle.SierpinskiGen(length, min));
    }

    method WarpTree(level: int, length: real, angle: int)
      requires placement != Turtle.Orphan
      modifies this
      ensures Machine() == Turtle.Warp(old(Machine()), placement, [Turtle.GenerateOp(Turtle.TreeGen(level, length, angle))])
    {
      WarpOp(Turtle.TreeGen(level, length, angle));
    }
  }
}
