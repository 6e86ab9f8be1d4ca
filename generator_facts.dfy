/**
 * The recursive generators as sequences of primitive calls. `tree` and
 * `sierpinski` each amount to replaying a list of stroke-width changes,
 * turns and moves; counting that list gives how many turns and moves a
 * generator makes and the direction it ends up facing.
 */
module GeneratorFacts {
  import opened Angles
  import opened Effects
  import opened Turtle
  import opened TurtleFacts

  /** A primitive call a generator makes on the pen. */
  datatype Call = Resize(size: real) | TurnBy(degrees: int) | MoveBy(steps: real)

  function Perform(m: Machine, p: Placement, c: Call): (r: Machine)
    requires c.MoveBy? ==> Drawable(m.pen, p)
    ensures SameMode(r.pen, m.pen)
  {
    match c
    case Resize(size) => m.(pen := m.pen.(size := size))
    case TurnBy(degrees) => Turn(m, p, degrees)
    case MoveBy(steps) => Forward(m, p, steps)
  }

  /** The calls one after another. */
  function Replay(m: Machine, p: Placement, calls: seq<Call>): (r: Machine)
    requires calls == [] || Drawable(m.pen, p)
    ensures SameMode(r.pen, m.pen)
    decreases |calls|
  {
    if calls == [] then m else Replay(Perform(m, p, calls[0]), p, calls[1..])
  }

  /** Replaying two lists is replaying their concatenation. */
  lemma {:induction false} ReplayAppend(m: Machine, p: Placement, a: seq<Call>, b: seq<Call>)
    requires a + b == [] || Drawable(m.pen, p)
    ensures Replay(m, p, a + b) == Replay(Replay(m, p, a), p, b)
    decreases |a|
  {
    if a == [] {
      assert a + b == b;
    } else {
      assert (a + b)[0] == a[0] && (a + b)[1..] == a[1..] + b;
      ReplayAppend(Perform(m, p, a[0]), p, a[1..], b);
    }
  }

  lemma ReplaySingle(m: Machine, p: Placement, c: Call)
    requires Drawable(m.pen, p)
    ensures Replay(m, p, [c]) == Perform(m, p, c)
  {
    assert [c][1..] == [];
  }

  lemma ReplayPair(m: Machine, p: Placement, c: Call, d: Call)
    requires Drawable(m.pen, p)
    ensures Replay(m, p, [c, d]) == Perform(Perform(m, p, c), p, d)
  {
    assert [c, d][1..] == [d];
    ReplaySingle(Perform(m, p, c), p, d);
  }

  function CallTurns(c: Call): nat
  {
    if c.TurnBy? then 1 else 0
  }

  function CallMoves(c: Call): nat
  {
    if c.MoveBy? then 1 else 0
  }

  function CallDegrees(c: Call): int
  {
    if c.TurnBy? then c.degrees else 0
  }

  function TurnCount(calls: seq<Call>): nat
  {
    if calls == [] then 0 else CallTurns(calls[0]) + TurnCount(calls[1..])
  }

  function MoveCount(calls: seq<Call>): nat
  {
    if calls == [] then 0 else CallMoves(calls[0]) + MoveCount(calls[1..])
  }

  /** The degrees of all the turns added up. */
  function TurnTotal(calls: seq<Call>): int
  {
    if calls == [] then 0 else CallDegrees(calls[0]) + TurnTotal(calls[1..])
  }

  lemma {:induction false} CountsAppend(a: seq<Call>, b: seq<Call>)
    ensures TurnCount(a + b) == TurnCount(a) + TurnCount(b)
    ensures MoveCount(a + b) == MoveCount(a) + MoveCount(b)
    ensures TurnTotal(a + b) == TurnTotal(a) + TurnTotal(b)
    decreases |a|
  {
    if a == [] {
      assert a + b == b;
    } else {
      assert (a + b)[0] == a[0] && (a + b)[1..] == a[1..] + b;
      CountsAppend(a[1..], b);
    }
  }

  lemma CountsSingle(c: Call)
    ensures TurnCount([c]) == CallTurns(c) && MoveCount([c]) == CallMoves(c) && TurnTotal([c]) == CallDegrees(c)
  {
    assert [c][1..] == [];
  }

  lemma CountsPair(c: Call, d: Call)
    ensures TurnCount([c, d]) == CallTurns(c) + CallTurns(d)
    ensures MoveCount([c, d]) == CallMoves(c) + CallMoves(d)
    ensures TurnTotal([c, d]) == CallDegrees(c) + CallDegrees(d)
  {
    assert [c, d][1..] == [d];
    CountsSingle(d);
  }

  /** One call: a resize is nothing, a turn one turn, a move one move. */
  lemma PerformCounts(m: Machine, p: Placement, c: Call)
    requires c.MoveBy? ==> Drawable(m.pen, p)
    ensures Motion(m, Perform(m, p, c), p, CallTurns(c), CallMoves(c))
    ensures Congruent(Perform(m, p, c).pen.heading, m.pen.heading + CallDegrees(c))
  {
    match c
    case Resize(size) => MotionStill(m, Perform(m, p, c), p);
    case TurnBy(degrees) => TurnCounts(m, p, degrees);
    case MoveBy(steps) => ForwardCounts(m, p, steps);
  }

  /**
   * Replaying calls makes exactly their turns and moves, and turns the
   * heading by the sum of their degrees, up to full turns.
   */
  lemma ReplayCounts(m: Machine, p: Placement, calls: seq<Call>)
    requires calls == [] || Drawable(m.pen, p)
    ensures Motion(m, Replay(m, p, calls), p, TurnCount(calls), MoveCount(calls))
    ensures Congruent(Replay(m, p, calls).pen.heading, m.pen.heading + TurnTotal(calls))
  {
    ReplayMotion(m, p, calls);
    ReplayTurns(m, p, calls);
  }

  lemma {:induction false} ReplayMotion(m: Machine, p: Placement, calls: seq<Call>)
    requires calls == [] || Drawable(m.pen, p)
    ensures Motion(m, Replay(m, p, calls), p, TurnCount(calls), MoveCount(calls))
    decreases |calls|
  {
    if calls == [] {
      MotionStill(m, m, p);
    } else {
      var c := calls[0];
      var rest := calls[1..];
      var next := Perform(m, p, c);
      var r := Replay(next, p, rest);
      assert Replay(m, p, calls) == r;
      PerformCounts(m, p, c);
      ReplayMotion(next, p, rest);
      MotionCons(m, next, r, p, calls);
    }
  }

  /** The first call's motion followed by the rest's is the motion of the whole list. */
  lemma MotionCons(m: Machine, next: Machine, r: Machine, p: Placement, calls: seq<Call>)
    requires calls != []
    requires Motion(m, next, p, CallTurns(calls[0]), CallMoves(calls[0]))
    requires Motion(next, r, p, TurnCount(calls[1..]), MoveCount(calls[1..]))
    ensures Motion(m, r, p, TurnCount(calls), MoveCount(calls))
  {
    assert TurnCount(calls) == CallTurns(calls[0]) + TurnCount(calls[1..]);
    assert MoveCount(calls) == CallMoves(calls[0]) + MoveCount(calls[1..]);
    MotionCompose(m, next, r, p, CallTurns(calls[0]), CallMoves(calls[0]), TurnCount(calls[1..]), MoveCount(calls[1..]));
  }

  lemma {:induction false} ReplayTurns(m: Machine, p: Placement, calls: seq<Call>)
    requires calls == [] || Drawable(m.pen, p)
    ensures Congruent(Replay(m, p, calls).pen.heading, m.pen.heading + TurnTotal(calls))
    decreases |calls|
  {
    if calls != [] {
      var c := calls[0];
      var rest := calls[1..];
      var next := Perform(m, p, c);
      var r := Replay(next, p, rest);
      PerformCounts(m, p, c);
      ReplayTurns(next, p, rest);
      CongruentShift(next.pen.heading, m.pen.heading + CallDegrees(c), TurnTotal(rest));
      CongruentTransitive(r.pen.heading, next.pen.heading + TurnTotal(rest), m.pen.heading + TurnTotal(calls));
    }
  }

  // ----- tree -----

  /** The calls `tree(level, length, angle)` makes, in order. */
  function TreeCalls(level: int, length: real, angle: int): seq<Call>
    decreases level, 1
  {
    if level <= 0 then []
    else [Resize(level as real), MoveBy(length)] + BranchCalls(level, length, angle) + [TurnBy(angle), MoveBy(-length)]
  }

  function BranchCalls(level: int, length: real, angle: int): seq<Call>
    requires level > 0
    decreases level, 0
  {
    [TurnBy(angle)] + TreeCalls(level - 1, length * 0.75, angle) + [TurnBy(angle * -2)]
      + TreeCalls(level - 1, length * 0.75, angle)
  }

  /** `tree` is the replay of its calls. */
  lemma {:induction false} TreeReplays(m: Machine, p: Placement, level: int, length: real, angle: int)
    requires level <= 0 || Drawable(m.pen, p)
    ensures Tree(m, p, level, length, angle) == Replay(m, p, TreeCalls(level, length, angle))
    decreases level, 1
  {
    if level > 0 {
      var front := [Resize(level as real), MoveBy(length)];
      var middle := BranchCalls(level, length, angle);
      var back := [TurnBy(angle), MoveBy(-length)];
      var trunk := Forward(m.(pen := m.pen.(size := level as real)), p, length);
      ReplayPair(m, p, Resize(level as real), MoveBy(length));
      BranchesReplays(trunk, p, level, length, angle);
      ReplayPair(Branches(trunk, p, level, length, angle), p, TurnBy(angle), MoveBy(-length));
      ReplayAppend(m, p, front + middle, back);
      ReplayAppend(m, p, front, middle);
    }
  }

  lemma {:induction false} BranchesReplays(m: Machine, p: Placement, level: int, length: real, angle: int)
    requires level > 0 && Drawable(m.pen, p)
    ensures Branches(m, p, level, length, angle) == Replay(m, p, BranchCalls(level, length, angle))
    decreases level, 0
  {
    var sub := TreeCalls(level - 1, length * 0.75, angle);
    var first := Tree(Turn(m, p, angle), p, level - 1, length * 0.75, angle);
    assert BranchCalls(level, length, angle) == ([TurnBy(angle)] + sub) + ([TurnBy(angle * -2)] + sub);
    TurnThenTreeReplays(m, p, angle, level - 1, length * 0.75, angle);
    TurnThenTreeReplays(first, p, angle * -2, level - 1, length * 0.75, angle);
    ReplayAppend(m, p, [TurnBy(angle)] + sub, [TurnBy(angle * -2)] + sub);
  }

  /** A turn followed by a subtree is the replay of the turn's call and the subtree's. */
  lemma {:induction false} TurnThenTreeReplays(m: Machine, p: Placement, degrees: int, level: int, length: real, angle: int)
    requires Drawable(m.pen, p)
    ensures Tree(Turn(m, p, degrees), p, level, length, angle)
         == Replay(m, p, [TurnBy(degrees)] + TreeCalls(level, length, angle))
    decreases level, 2
  {
    ReplaySingle(m, p, TurnBy(degrees));
    ReplayAppend(m, p, [TurnBy(degrees)], TreeCalls(level, length, angle));
    TreeReplays(Turn(m, p, degrees), p, level, length, angle);
  }

  function Pow2(n: nat): (r: nat)
    ensures r >= 1
  {
    if n == 0 then 1 else 2 * Pow2(n - 1)
  }

  /** `tree(level, ...)` turns three times per node: `3 * (2^level - 1)` turns. */
  function TreeTurns(level: int): nat
  {
    if level <= 0 then 0 else 3 * (Pow2(level) - 1)
  }

  /** `tree(level, ...)` draws and retraces a trunk per node: `2 * (2^level - 1)` moves. */
  function TreeForwards(level: int): nat
  {
    if level <= 0 then 0 else 2 * (Pow2(level) - 1)
  }

  /** Per node: three turns adding up to nothing, and two moves. */
  lemma {:induction false} TreeCallCounts(level: int, length: real, angle: int)
    ensures var calls := TreeCalls(level, length, angle);
      && TurnCount(calls) == TreeTurns(level)
      && MoveCount(calls) == TreeForwards(level)
      && TurnTotal(calls) == 0
    decreases level
  {
    if level > 0 {
      var front := [Resize(level as real), MoveBy(length)];
      var middle := BranchCalls(level, length, angle);
      var back := [TurnBy(angle), MoveBy(-length)];
      BranchCallCounts(level, length, angle);
      CountsPair(Resize(level as real), MoveBy(length));
      CountsPair(TurnBy(angle), MoveBy(-length));
      CountsAppend(front, middle);
      CountsAppend(front + middle, back);
      assert Pow2(level) == 2 * Pow2(level - 1);
    }
  }

  /** Between trunk and retrace: two subtrees, two turns, the turns adding up to `-angle`. */
  lemma {:induction false} BranchCallCounts(level: int, length: real, angle: int)
    requires level > 0
    ensures var calls := BranchCalls(level, length, angle);
      && TurnCount(calls) == 2 * TreeTurns(level - 1) + 2
      && MoveCount(calls) == 2 * TreeForwards(level - 1)
      && TurnTotal(calls) == -angle
    decreases level, 0
  {
    var sub := TreeCalls(level - 1, length * 0.75, angle);
    TreeCallCounts(level - 1, length * 0.75, angle);
    CountsSingle(TurnBy(angle));
    CountsSingle(TurnBy(angle * -2));
    CountsAppend([TurnBy(angle)], sub);
    CountsAppend([TurnBy(angle)] + sub, [TurnBy(angle * -2)]);
    CountsAppend([TurnBy(angle)] + sub + [TurnBy(angle * -2)], sub);
  }

  /**
   * A tree makes `3 * (2^level - 1)` turns and `2 * (2^level - 1)` moves
   * and nothing else, and faces afterwards in the direction it started in.
   */
  lemma TreeCounts(m: Machine, p: Placement, level: int, length: real, angle: int)
    requires level <= 0 || Drawable(m.pen, p)
    ensures Motion(m, Tree(m, p, level, length, angle), p, TreeTurns(level), TreeForwards(level))
    ensures Congruent(Tree(m, p, level, length, angle).pen.heading, m.pen.heading)
  {
    TreeReplays(m, p, level, length, angle);
    ReplayCounts(m, p, TreeCalls(level, length, angle));
    TreeCallCounts(level, length, angle);
  }

  /**
   * Congruent is as far as it goes: from heading 350, a one-level tree
   * with angle 20 ends at heading -10, not back at 350.
   */
  lemma TreeHeadingNotRestored(m: Machine)
    requires m.pen.heading == 350 && m.pen.isDown && !m.pen.isWarped
    ensures Tree(m, OnStage, 1, 10.0, 20).pen.heading == -10
  {
    var trunk := Forward(m.(pen := m.pen.(size := 1.0)), OnStage, 10.0);
    var left := Turn(trunk, OnStage, 20);
    SetHeadingStores(trunk, OnStage, 370);
    var right := Turn(left, OnStage, -40);
    SetHeadingStores(left, OnStage, -30);
    assert Branches(trunk, OnStage, 1, 10.0, 20) == right;
    SetHeadingStores(right, OnStage, -10);
  }

  // ----- sierpinski -----

  /** The calls `sierpinski(length, min)` makes, in order. */
  function SierpinskiCalls(length: real, min: real): seq<Call>
    requires length <= min || min > 0.0
    decreases Depth(length, min), 4
  {
    if length <= min then [] else RoundCalls(length, min, 3)
  }

  /** The calls of the first `rounds` iterations of the loop in `sierpinski`. */
  function RoundCalls(length: real, min: real, rounds: nat): seq<Call>
    requires min > 0.0 && length > min && rounds <= 3
    decreases Depth(length, min), rounds
  {
    if rounds == 0 then []
    else RoundCalls(length, min, rounds - 1) + SierpinskiCalls(length * 0.5, min) + [TurnBy(120), MoveBy(length)]
  }

  /** `sierpinski` is the replay of its calls. */
  lemma {:induction false} SierpinskiReplays(m: Machine, p: Placement, length: real, min: real)
    requires length <= min || (min > 0.0 && Drawable(m.pen, p))
    ensures Sierpinski(m, p, length, min) == Replay(m, p, SierpinskiCalls(length, min))
    decreases Depth(length, min), 4
  {
    if length > min {
      RoundsReplay(m, p, length, min, 3);
    }
  }

  lemma {:induction false} RoundsReplay(m: Machine, p: Placement, length: real, min: real, rounds: nat)
    requires min > 0.0 && length > min && Drawable(m.pen, p) && rounds <= 3
    ensures SierpinskiRounds(m, p, length, min, rounds) == Replay(m, p, RoundCalls(length, min, rounds))
    decreases Depth(length, min), rounds
  {
    if rounds > 0 {
      var before := RoundCalls(length, min, rounds - 1);
      var inner := SierpinskiCalls(length * 0.5, min);
      RoundsReplay(m, p, length, min, rounds - 1);
      var done := SierpinskiRounds(m, p, length, min, rounds - 1);
      SierpinskiReplays(done, p, length * 0.5, min);
      ReplayPair(Sierpinski(done, p, length * 0.5, min), p, TurnBy(120), MoveBy(length));
      ReplayAppend(m, p, before + inner, [TurnBy(120), MoveBy(length)]);
      ReplayAppend(m, p, before, inner);
    }
  }

  /** Turns (and moves) of `sierpinski` recursing `depth` levels: three per call, three calls per level. */
  function SierpinskiSteps(depth: nat): nat
  {
    if depth == 0 then 0 else 3 * SierpinskiSteps(depth - 1) + 3
  }

  function Pow3(n: nat): (r: nat)
    ensures r >= 1
  {
    if n == 0 then 1 else 3 * Pow3(n - 1)
  }

  /** In closed form: `3 * (3^depth - 1) / 2` turns and as many moves. */
  lemma {:induction false} SierpinskiStepsClosed(depth: nat)
    ensures 2 * SierpinskiSteps(depth) + 3 == 3 * Pow3(depth)
  {
    if depth > 0 {
      SierpinskiStepsClosed(depth - 1);
    }
  }

  lemma {:induction false} SierpinskiCallCounts(length: real, min: real)
    requires length <= min || min > 0.0
    ensures var calls := SierpinskiCalls(length, min);
      && TurnCount(calls) == SierpinskiSteps(Depth(length, min))
      && MoveCount(calls) == SierpinskiSteps(Depth(length, min))
      && Congruent(TurnTotal(calls), 0)
    decreases Depth(length, min), 4
  {
    if length > min {
      var calls := SierpinskiCalls(length, min);
      assert calls == RoundCalls(length, min, 3);
      RoundCallCounts(length, min, 3);
      assert Depth(length, min) == 1 + Depth(length * 0.5, min);
      assert SierpinskiSteps(Depth(length, min)) == 3 * (SierpinskiSteps(Depth(length * 0.5, min)) + 1);
      assert Congruent(FullTurn, 0);
      CongruentTransitive(TurnTotal(calls), FullTurn, 0);
    }
  }

  /** Each round: the half-size figure, one turn of 120 degrees, one move. */
  lemma {:induction false} RoundCallCounts(length: real, min: real, rounds: nat)
    requires min > 0.0 && length > min && rounds <= 3
    ensures var calls := RoundCalls(length, min, rounds);
      var inner := SierpinskiSteps(Depth(length * 0.5, min));
      && TurnCount(calls) == rounds * (inner + 1)
      && MoveCount(calls) == rounds * (inner + 1)
      && Congruent(TurnTotal(calls), 120 * rounds)
    decreases Depth(length, min), rounds
  {
    if rounds > 0 {
      var before := RoundCalls(length, min, rounds - 1);
      var half := SierpinskiCalls(length * 0.5, min);
      var inner := SierpinskiSteps(Depth(length * 0.5, min));
      RoundCallCounts(length, min, rounds - 1);
      HalvingShrinks(length, min);
      SierpinskiCallCounts(length * 0.5, min);
      CountsPair(TurnBy(120), MoveBy(length));
      CountsAppend(before, half);
      CountsAppend(before + half, [TurnBy(120), MoveBy(length)]);
      RoundArithmetic(rounds, inner);
      CongruentAdd(TurnTotal(before), 120 * (rounds - 1), TurnTotal(half) + 120, 120);
    }
  }

  lemma RoundArithmetic(rounds: nat, inner: nat)
    requires rounds > 0
    ensures (rounds - 1) * (inner + 1) + inner + 1 == rounds * (inner + 1)
    ensures 120 * (rounds - 1) + 120 == 120 * rounds
  {
  }

  /**
   * `sierpinski(length, min)` does nothing when `length <= min`; otherwise it
   * makes `SierpinskiSteps(Depth(length, min))` turns and as many moves, and
   * faces afterwards in the direction it started in.
   */
  lemma SierpinskiCounts(m: Machine, p: Placement, length: real, min: real)
    requires length <= min || (min > 0.0 && Drawable(m.pen, p))
    ensures var steps := SierpinskiSteps(Depth(length, min));
      Motion(m, Sierpinski(m, p, length, min), p, steps, steps)
    ensures Congruent(Sierpinski(m, p, length, min).pen.heading, m.pen.heading)
    ensures length <= min ==> Sierpinski(m, p, length, min) == m
  {
    SierpinskiReplays(m, p, length, min);
    ReplayCounts(m, p, SierpinskiCalls(length, min));
    SierpinskiCallCounts(length, min);
    CongruentShift(TurnTotal(SierpinskiCalls(length, min)), 0, m.pen.heading);
  }

  /** Halving 8 down to at most 1 takes three levels (8, 4, 2): 39 turns and 39 moves. */
  lemma SierpinskiOfEight()
    ensures Depth(8.0, 1.0) == 3 && SierpinskiSteps(Depth(8.0, 1.0)) == 39
  {
    assert Depth(1.0, 1.0) == 0;
    assert Depth(2.0, 1.0) == 1;
    assert Depth(4.0, 1.0) == 2;
    assert SierpinskiSteps(3) == 3 * SierpinskiSteps(2) + 3;
  }

  // ----- generators -----

  /** A `sierpinski` request that terminates. */
  predicate WellFormed(g: Generator)
  {
    g.SierpinskiGen? ==> g.length <= g.min || g.min > 0.0
  }

  /** How many turns, and how many moves, a generator makes. */
  function GeneratorTurns(g: Generator): nat
    requires WellFormed(g)
  {
    match g
    case SierpinskiGen(length, min) => SierpinskiSteps(Depth(length, min))
    case TreeGen(level, _, _) => TreeTurns(level)
  }

  function GeneratorForwards(g: Generator): nat
    requires WellFormed(g)
  {
    match g
    case SierpinskiGen(length, min) => SierpinskiSteps(Depth(length, min))
    case TreeGen(level, _, _) => TreeForwards(level)
  }

  lemma GenerateCounts(m: Machine, p: Placement, g: Generator)
    requires WellFormed(g) && CanGenerate(m.pen, p, g)
    ensures Motion(m, Generate(m, p, g), p, GeneratorTurns(g), GeneratorForwards(g))
    ensures Congruent(Generate(m, p, g).pen.heading, m.pen.heading)
  {
    match g
    case SierpinskiGen(length, min) => SierpinskiCounts(m, p, length, min);
    case TreeGen(level, length, angle) => TreeCounts(m, p, level, length, angle);
  }
}
