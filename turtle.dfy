/**
 * The pen's operations as functions of a `Machine`: the pen's own fields
 * together with the log of the outside effects caused so far. Each function
 * gives the machine after the operation; effects are only ever appended to
 * the log. The `Pen` class in PenMorph is proved to follow these functions
 * step for step, and the lemmas in TurtleFacts state what they promise.
 */
module Turtle {
  import opened Angles
  import opened Icon
  import opened Effects

  /**
   * Where the pen sits in the morph tree: without a parent; under a parent
   * whose root is not a world; or under a world, whose `broken` list
   * collects damage.
   */
  datatype Placement = Orphan | Offstage | OnStage

  /** The fields the pen adds to a morph. */
  datatype PenState = PenState(heading: int, isDown: bool, size: real, penPoint: PenPoint,
                               isWarped: bool, wantsRedraw: bool)

  /** A new pen: heading 0, pen down, stroke width 1, pivot at the tip, not warped. */
  const Initial := PenState(0, true, 1.0, Tip, false, false)

  datatype Machine = Machine(pen: PenState, log: seq<Effect>)

  function Emit(m: Machine, e: Effect): Machine
  {
    m.(log := m.log + [e])
  }

  /**
   * The operations that dereference `this.parent` need one, and a stroke
   * drawn with damage tracking on needs a world to push its damage to.
   */
  predicate Drawable(s: PenState, p: Placement)
  {
    p != Orphan && (s.isDown && !s.isWarped ==> p == OnStage)
  }

  /** `changed`: nothing while warped; otherwise damage if under a world, and a notice to the parent. */
  function Changed(m: Machine, p: Placement): (r: Machine)
    ensures r.pen == m.pen && m.log <= r.log
  {
    if m.pen.isWarped then m
    else
      var damaged := if p == OnStage then Emit(m, Damage(OwnBounds)) else m;
      if p != Orphan then Emit(damaged, ChildChanged) else damaged
  }

  /** `drawNew(facing)`: while warped only note that a redraw is wanted. */
  function DrawNew(m: Machine, facing: Option<int>): (r: Machine)
    ensures r.pen == m.pen.(wantsRedraw := m.pen.wantsRedraw || m.pen.isWarped)
    ensures m.log <= r.log && |r.log| <= |m.log| + 1
  {
    if m.pen.isWarped then m.(pen := m.pen.(wantsRedraw := true))
    else Emit(m, IconDrawn(ArrowFor(m.pen.penPoint, Direction(facing, m.pen.heading))))
  }

  /** `setHeading(degrees)`: store the truncated remainder, redraw the icon, report the change. */
  function SetHeading(m: Machine, p: Placement, degrees: int): (r: Machine)
    ensures SameMode(r.pen, m.pen) && r.pen.size == m.pen.size && m.log <= r.log
  {
    Changed(DrawNew(m.(pen := m.pen.(heading := Normalize(degrees))), None), p)
  }

  /** `turn(degrees)`: set the heading to the current one plus `degrees`. */
  function Turn(m: Machine, p: Placement, degrees: int): (r: Machine)
    ensures SameMode(r.pen, m.pen) && r.pen.size == m.pen.size
  {
    SetHeading(m, p, m.pen.heading + degrees)
  }

  /** The (magnitude, angle) `forward(steps)` hands to `distanceAngle`. */
  function Travel(heading: int, steps: real): (r: Segment)
    ensures r.magnitude >= 0.0 && (r.magnitude == steps || r.magnitude == -steps)
    ensures steps >= 0.0 ==> r.angle == heading
    ensures steps < 0.0 ==> r.angle == heading - 180
  {
    if steps >= 0.0 then Segment(steps, heading) else Segment(-steps, heading - 180)
  }

  /** How far a stroke's damage box is expanded: half the width, at least one. */
  function Margin(size: real): (r: real)
    ensures r >= 1.0 && r >= size / 2.0
    ensures r == 1.0 || r == size / 2.0
  {
    if size / 2.0 > 1.0 then size / 2.0 else 1.0
  }

  /** `drawLine`: stroke only with the pen down; push damage only when not warped. */
  function DrawLine(m: Machine, p: Placement, segment: Segment): (r: Machine)
    requires Drawable(m.pen, p)
    ensures r.pen == m.pen && m.log <= r.log
  {
    if !m.pen.isDown then m
    else
      var stroked := Emit(m, Stroke(segment, m.pen.size));
      if m.pen.isWarped then stroked else Emit(stroked, Damage(SegmentBox(segment, Margin(m.pen.size))))
  }

  /** `forward(steps)`: move, then draw the line from the old centre to the new. */
  function Forward(m: Machine, p: Placement, steps: real): (r: Machine)
    requires Drawable(m.pen, p)
    ensures r.pen == m.pen
  {
    var segment := Travel(m.pen.heading, steps);
    DrawLine(Emit(m, Moved(segment)), p, segment)
  }

  /** `down()`: the pen is lowered and nothing else changes. */
  function Down(m: Machine): (r: Machine)
    ensures r.pen.isDown && r.pen.(isDown := m.pen.isDown) == m.pen && r.log == m.log
  {
    m.(pen := m.pen.(isDown := true))
  }

  /** `up()`: the pen is lifted and nothing else changes. */
  function Up(m: Machine): (r: Machine)
    ensures !r.pen.isDown && r.pen.(isDown := m.pen.isDown) == m.pen && r.log == m.log
  {
    m.(pen := m.pen.(isDown := false))
  }

  /** `clear`: the parent wipes its trails and reports a change; the pen is left alone. */
  function Clear(m: Machine, p: Placement): (r: Machine)
    requires p != Orphan
    ensures r.pen == m.pen && m.log <= r.log
  {
    Emit(Emit(m, TrailsCleared), ParentChanged)
  }

  /** `startWarp()`: the gate closes with no redraw pending; nothing is logged. */
  function StartWarp(m: Machine): (r: Machine)
    ensures r.pen.isWarped && !r.pen.wantsRedraw
    ensures r.pen.(isWarped := m.pen.isWarped, wantsRedraw := m.pen.wantsRedraw) == m.pen && r.log == m.log
  {
    m.(pen := m.pen.(wantsRedraw := false, isWarped := true))
  }

  /** `endWarp`: unwarp, regenerate the icon if a redraw was wanted, then notify the parent once. */
  function EndWarp(m: Machine, p: Placement): (r: Machine)
    requires p != Orphan
    ensures r.pen == m.pen.(isWarped := false, wantsRedraw := false) && m.log <= r.log
  {
    var open := m.(pen := m.pen.(isWarped := false));
    var redrawn :=
      if open.pen.wantsRedraw then
        var drawn := DrawNew(open, None);
        drawn.(pen := drawn.pen.(wantsRedraw := false))
      else open;
    Emit(redrawn, ParentChanged)
  }

  /** Halving `length` until it is at most `min`: how many levels `sierpinski` recurses. */
  function Depth(length: real, min: real): nat
    requires length <= min || min > 0.0
    decreases if length > min then (length / min).Floor else 0
  {
    if length <= min then 0
    else
      HalvingShrinks(length, min);
      1 + Depth(length * 0.5, min)
  }

  lemma HalvingShrinks(length: real, min: real)
    requires min > 0.0 && length > min
    ensures 1 <= (length / min).Floor
    ensures (length * 0.5 <= min) || ((length * 0.5) / min).Floor < (length / min).Floor
  {
    var x := length / min;
    assert x > 1.0;
    assert (length * 0.5) / min == x * 0.5;
    var n := x.Floor;
    assert n as real <= x < n as real + 1.0;
    var h := (x * 0.5).Floor;
    assert h as real <= x * 0.5;
    if x >= 2.0 {
      assert h as real <= x - 1.0;
      assert h as real < n as real;
    } else {
      assert n == 1;
      assert h as real < 1.0;
    }
  }

  /**
   * What the pen's own code keeps true of its fields: only `setHeading`
   * writes the heading, always as a truncated remainder by 360, and only
   * `tree` writes the width, always a positive level.
   */
  predicate InRange(s: PenState)
  {
    -FullTurn < s.heading < FullTurn && s.size > 0.0
  }

  /** The fields a generator leaves alone: the pen's up/down, warp and pivot settings. */
  predicate SameMode(a: PenState, b: PenState)
  {
    a.isDown == b.isDown && a.isWarped == b.isWarped && a.penPoint == b.penPoint
  }

  /**
   * `sierpinski(length, min)`: nothing unless `length > min`; otherwise three
   * rounds of recursing at half the length, turning 120 degrees and moving
   * `length` forward.
   */
  function Sierpinski(m: Machine, p: Placement, length: real, min: real): (r: Machine)
    requires length <= min || (min > 0.0 && Drawable(m.pen, p))
    ensures SameMode(r.pen, m.pen) && r.pen.size == m.pen.size
    decreases Depth(length, min), 4
  {
    if length <= min then m else SierpinskiRounds(m, p, length, min, 3)
  }

  /** The first `rounds` iterations of the loop in `sierpinski(length, min)`. */
  function SierpinskiRounds(m: Machine, p: Placement, length: real, min: real, rounds: nat): (r: Machine)
    requires min > 0.0 && length > min && Drawable(m.pen, p) && rounds <= 3
    ensures SameMode(r.pen, m.pen) && r.pen.size == m.pen.size
    decreases Depth(length, min), rounds
  {
    if rounds == 0 then m
    else
      var done := SierpinskiRounds(m, p, length, min, rounds - 1);
      var inner := Sierpinski(done, p, length * 0.5, min);
      Forward(Turn(inner, p, 120), p, length)
  }

  /**
   * `tree(level, length, angle)`: for a positive level, set the stroke width
   * to the level, draw the trunk, grow the two branches, turn back and
   * retrace the trunk.
   */
  function Tree(m: Machine, p: Placement, level: int, length: real, angle: int): (r: Machine)
    requires level <= 0 || Drawable(m.pen, p)
    ensures SameMode(r.pen, m.pen)
    ensures r.pen.size == if level > 0 then 1.0 else m.pen.size
    decreases level, 1
  {
    if level <= 0 then m
    else
      var trunk := Forward(m.(pen := m.pen.(size := level as real)), p, length);
      Forward(Turn(Branches(trunk, p, level, length, angle), p, angle), p, -length)
  }

  /**
   * The middle of `tree` at a positive level: turn left, grow a subtree one
   * level lower and three quarters as long, turn right twice as far, grow
   * another.
   */
  function Branches(m: Machine, p: Placement, level: int, length: real, angle: int): (r: Machine)
    requires level > 0 && Drawable(m.pen, p)
    ensures SameMode(r.pen, m.pen)
    ensures r.pen.size == if level > 1 then 1.0 else m.pen.size
    decreases level, 0
  {
    var first := Tree(Turn(m, p, angle), p, level - 1, length * 0.75, angle);
    Tree(Turn(first, p, angle * -2), p, level - 1, length * 0.75, angle)
  }

  /** The two recursive generators `warpOp` can be asked to run. */
  datatype Generator =
    | SierpinskiGen(length: real, min: real)
    | TreeGen(level: int, length: real, angle: int)

  predicate CanGenerate(s: PenState, p: Placement, g: Generator)
  {
    match g
    case SierpinskiGen(length, min) => length <= min || (min > 0.0 && Drawable(s, p))
    case TreeGen(level, _, _) => level <= 0 || Drawable(s, p)
  }

  /** `warpOp`'s `this[selector]`: run the generator the selector names. */
  function Generate(m: Machine, p: Placement, g: Generator): (r: Machine)
    requires CanGenerate(m.pen, p, g)
    ensures SameMode(r.pen, m.pen)
    ensures g.SierpinskiGen? ==> r.pen.size == m.pen.size
    ensures g.TreeGen? ==> r.pen.size == if g.level > 0 then 1.0 else m.pen.size
  {
    match g
    case SierpinskiGen(length, min) => Sierpinski(m, p, length, min)
    case TreeGen(level, length, angle) => Tree(m, p, level, length, angle)
  }

  /** A call a procedure handed to `warp` can make on the pen. */
  datatype Op =
    | SetHeadingOp(degrees: int)
    | TurnOp(degrees: int)
    | ForwardOp(steps: real)
    | UpOp
    | DownOp
    | ClearOp
    | StartWarpOp
    | EndWarpOp
    | GenerateOp(generator: Generator)

  /** What an operation demands of the pen's state and placement. */
  predicate CanStep(s: PenState, p: Placement, op: Op)
  {
    match op
    case ForwardOp(_) => Drawable(s, p)
    case ClearOp => p != Orphan
    case EndWarpOp => p != Orphan
    case GenerateOp(g) => CanGenerate(s, p, g)
    case _ => true
  }

  /**
   * One call on the pen. No call moves the pivot; only `up` and `down` move
   * the pen, and only `startWarp` and `endWarp` open or close the gate.
   */
  function Step(m: Machine, p: Placement, op: Op): (r: Machine)
    requires CanStep(m.pen, p, op)
    ensures r.pen.penPoint == m.pen.penPoint
    ensures r.pen.isDown == if op.UpOp? then false else if op.DownOp? then true else m.pen.isDown
    ensures r.pen.isWarped == if op.StartWarpOp? then true else if op.EndWarpOp? then false else m.pen.isWarped
  {
    match op
    case SetHeadingOp(degrees) => SetHeading(m, p, degrees)
    case TurnOp(degrees) => Turn(m, p, degrees)
    case ForwardOp(steps) => Forward(m, p, steps)
    case UpOp => Up(m)
    case DownOp => Down(m)
    case ClearOp => Clear(m, p)
    case StartWarpOp => StartWarp(m)
    case EndWarpOp => EndWarp(m, p)
    case GenerateOp(g) => Generate(m, p, g)
  }

  /** Every call of the sequence meets its demands in the state the earlier ones leave. */
  predicate CanRun(m: Machine, p: Placement, ops: seq<Op>)
    decreases |ops|
  {
    ops == [] || (CanStep(m.pen, p, ops[0]) && CanRun(Step(m, p, ops[0]), p, ops[1..]))
  }

  /** The calls of a procedure, one after another. */
  function Run(m: Machine, p: Placement, ops: seq<Op>): (r: Machine)
    requires CanRun(m, p, ops)
    ensures r.pen.penPoint == m.pen.penPoint
    ensures (forall i | 0 <= i < |ops| :: !ops[i].UpOp? && !ops[i].DownOp?) ==> r.pen.isDown == m.pen.isDown
    ensures (forall i | 0 <= i < |ops| :: !ops[i].StartWarpOp? && !ops[i].EndWarpOp?) ==> r.pen.isWarped == m.pen.isWarped
    decreases |ops|
  {
    if ops == [] then m else Run(Step(m, p, ops[0]), p, ops[1..])
  }

  /** `warp(body)`: start warping, run the body, end warping. */
  function Warp(m: Machine, p: Placement, body: seq<Op>): (r: Machine)
    requires p != Orphan && CanRun(StartWarp(m), p, body)
    ensures !r.pen.isWarped && !r.pen.wantsRedraw
  {
    EndWarp(Run(StartWarp(m), p, body), p)
  }
}
