/**
 * What the pen's operations promise, proved about the functions of the
 * Turtle module: the heading arithmetic, which effects each operation
 * causes with and without the warp gate, and the counts of the recursive
 * generators.
 */
module TurtleFacts {
  import opened Angles
  import opened Icon
  import opened Effects
  import opened Turtle

  /** Emitting one effect keeps the log so far and adds one to the count of its kind. */
  lemma EmitCount(m: Machine, e: Effect)
    ensures m.log <= Emit(m, e).log
    ensures forall k :: Count(Emit(m, e).log, k) == Count(m.log, k) + (if KindOf(e) == k then 1 else 0)
  {
    forall k {
      CountSnoc(m.log, e, k);
    }
  }

  // ----- setHeading and turn -----

  /**
   * `setHeading(d)` stores the truncated remainder of `d` by 360: less than a
   * full turn in magnitude, of the sign of `d` or zero, and naming the same
   * direction as `d`. Nothing else changes, except that a warped pen now
   * wants a redraw.
   */
  lemma SetHeadingStores(m: Machine, p: Placement, degrees: int)
    ensures var r := SetHeading(m, p, degrees);
      && r.pen.heading == JsRemainder(degrees)
      && -FullTurn < r.pen.heading < FullTurn
      && (degrees > 0 ==> r.pen.heading >= 0)
      && (degrees < 0 ==> r.pen.heading <= 0)
      && Congruent(r.pen.heading, degrees)
      && r.pen == m.pen.(heading := r.pen.heading, wantsRedraw := m.pen.wantsRedraw || m.pen.isWarped)
  {
    NormalizeProperties(degrees);
    NormalizeIsJsRemainder(degrees);
  }

  /** What an unwarped `setHeading` causes: the regenerated icon, damage under a world, a notice to a parent. */
  function ChangeEffects(icon: Effect, p: Placement): seq<Effect>
  {
    match p
    case OnStage => [icon, Damage(OwnBounds), ChildChanged]
    case Offstage => [icon, ChildChanged]
    case Orphan => [icon]
  }

  /**
   * Not warped, `setHeading` regenerates the icon once along the new
   * heading, pushes damage if the pen is under a world and notifies a
   * parent; warped, it causes nothing at all.
   */
  lemma SetHeadingEffects(m: Machine, p: Placement, degrees: int)
    ensures var r := SetHeading(m, p, degrees);
      r.log == if m.pen.isWarped then m.log
               else m.log + ChangeEffects(IconDrawn(ArrowFor(m.pen.penPoint, Normalize(degrees))), p)
  {
    var r := SetHeading(m, p, degrees);
    if !m.pen.isWarped {
      var icon := IconDrawn(ArrowFor(m.pen.penPoint, Normalize(degrees)));
      var drawn := m.log + [icon];
      assert DrawNew(m.(pen := m.pen.(heading := Normalize(degrees))), None).log == drawn;
      if p == OnStage {
        assert r.log == drawn + [Damage(OwnBounds)] + [ChildChanged];
        assert ChangeEffects(icon, p) == [icon] + [Damage(OwnBounds)] + [ChildChanged];
      } else if p == Offstage {
        assert r.log == drawn + [ChildChanged];
        assert ChangeEffects(icon, p) == [icon] + [ChildChanged];
      } else {
        assert r.log == drawn;
        assert ChangeEffects(icon, p) == [icon];
      }
    }
  }

  /** Those effects count as one turn of an unwarped pen. */
  lemma ChangeEffectsCount(icon: Effect, s: PenState, p: Placement, k: Kind)
    requires icon.IconDrawn? && !s.isWarped
    ensures Count(ChangeEffects(icon, p), k) == MotionCount(s, p, 1, 0, k)
  {
    var one := [icon];
    assert one == [] + [icon];
    CountSnoc([], icon, k);
    match p
    case OnStage =>
      assert ChangeEffects(icon, p) == one + [Damage(OwnBounds)] + [ChildChanged];
      CountSnoc(one, Damage(OwnBounds), k);
      CountSnoc(one + [Damage(OwnBounds)], ChildChanged, k);
    case Offstage =>
      assert ChangeEffects(icon, p) == one + [ChildChanged];
      CountSnoc(one, ChildChanged, k);
    case Orphan =>
  }

  /** `turn(0)` is not a no-op: an unwarped pen still regenerates its icon and reports a change. */
  lemma TurnZeroStillRedraws(m: Machine, p: Placement)
    requires !m.pen.isWarped && p != Orphan
    ensures var r := Turn(m, p, 0);
      && r.pen.heading == JsRemainder(m.pen.heading)
      && Count(r.log, Icons) == Count(m.log, Icons) + 1
      && Count(r.log, ChildNotices) == Count(m.log, ChildNotices) + 1
  {
    SetHeadingStores(m, p, m.pen.heading);
    TurnCounts(m, p, 0);
  }

  // ----- the cost of turning and moving -----

  /** What `turns` turns and `forwards` moves add to the count of kind `k`, for a pen in the mode of `s`. */
  function MotionCount(s: PenState, p: Placement, turns: nat, forwards: nat, k: Kind): nat
  {
    var seen := !s.isWarped;
    match k
    case Icons => if seen then turns else 0
    case Damages => (if seen && p == OnStage then turns else 0) + (if seen && s.isDown then forwards else 0)
    case ChildNotices => if seen && p != Orphan then turns else 0
    case Strokes => if s.isDown then forwards else 0
    case Steps => forwards
    case _ => 0
  }

  /**
   * From `m` to `r` the pen made `turns` turns and `forwards` moves and
   * nothing else: its mode is unchanged, it wants a redraw if it already
   * did or turned while warped, and the log grew by exactly their effects.
   */
  predicate Motion(m: Machine, r: Machine, p: Placement, turns: nat, forwards: nat)
  {
    && SameMode(r.pen, m.pen)
    && r.pen.wantsRedraw == (m.pen.wantsRedraw || (m.pen.isWarped && turns > 0))
    && m.log <= r.log
    && forall k :: Count(r.log, k) == Count(m.log, k) + MotionCount(m.pen, p, turns, forwards, k)
  }

  lemma MotionCompose(a: Machine, b: Machine, c: Machine, p: Placement, t1: nat, f1: nat, t2: nat, f2: nat)
    requires Motion(a, b, p, t1, f1) && Motion(b, c, p, t2, f2)
    ensures Motion(a, c, p, t1 + t2, f1 + f2)
  {
    PrefixTransitive(a.log, b.log, c.log);
    forall k ensures Count(c.log, k) == Count(a.log, k) + MotionCount(a.pen, p, t1 + t2, f1 + f2, k) {
      MotionAdds(a.pen, b.pen, p, t1, f1, t2, f2, k);
    }
  }

  lemma MotionAdds(s: PenState, t: PenState, p: Placement, t1: nat, f1: nat, t2: nat, f2: nat, k: Kind)
    requires SameMode(t, s)
    ensures MotionCount(s, p, t1, f1, k) + MotionCount(t, p, t2, f2, k) == MotionCount(s, p, t1 + t2, f1 + f2, k)
  {
  }

  lemma PrefixTransitive(x: seq<Effect>, y: seq<Effect>, z: seq<Effect>)
    requires x <= y && y <= z
    ensures x <= z
  {
    assert z[..|x|] == y[..|x|];
  }

  /** A change of the pen that leaves its mode, its redraw flag and the log alone counts as nothing. */
  lemma MotionStill(m: Machine, r: Machine, p: Placement)
    requires SameMode(r.pen, m.pen) && r.pen.wantsRedraw == m.pen.wantsRedraw && r.log == m.log
    ensures Motion(m, r, p, 0, 0)
  {
  }

  /** Appending entries adds their counts. */
  lemma CountsGrow(log: seq<Effect>, added: seq<Effect>, r: seq<Effect>)
    requires r == log + added
    ensures log <= r && forall k :: Count(r, k) == Count(log, k) + Count(added, k)
  {
    forall k {
      CountAppend(log, added, k);
    }
  }

  /** A turn is one turn, in any mode, and adds its argument to the heading's direction. */
  lemma TurnCounts(m: Machine, p: Placement, degrees: int)
    ensures Motion(m, Turn(m, p, degrees), p, 1, 0)
    ensures Congruent(Turn(m, p, degrees).pen.heading, m.pen.heading + degrees)
  {
    var r := Turn(m, p, degrees);
    SetHeadingStores(m, p, m.pen.heading + degrees);
    SetHeadingEffects(m, p, m.pen.heading + degrees);
    if !m.pen.isWarped {
      var icon := IconDrawn(ArrowFor(m.pen.penPoint, Normalize(m.pen.heading + degrees)));
      CountsGrow(m.log, ChangeEffects(icon, p), r.log);
      forall k ensures Count(r.log, k) == Count(m.log, k) + MotionCount(m.pen, p, 1, 0, k) {
        ChangeEffectsCount(icon, m.pen, p, k);
      }
    }
  }

  /** A move is one move: it strokes with the pen down and pushes damage only when not warped. */
  lemma ForwardCounts(m: Machine, p: Placement, steps: real)
    requires Drawable(m.pen, p)
    ensures Motion(m, Forward(m, p, steps), p, 0, 1)
  {
    var segment := Travel(m.pen.heading, steps);
    var moved := Emit(m, Moved(segment));
    EmitCount(m, Moved(segment));
    var stroked := Emit(moved, Stroke(segment, m.pen.size));
    EmitCount(moved, Stroke(segment, m.pen.size));
    EmitCount(stroked, Damage(SegmentBox(segment, Margin(m.pen.size))));
    PrefixTransitive(m.log, moved.log, stroked.log);
    PrefixTransitive(m.log, stroked.log, Emit(stroked, Damage(SegmentBox(segment, Margin(m.pen.size)))).log);
  }

  // ----- drawLine and forward -----

  /** The damage box of a stroke is expanded by at least one and at least half the stroke width. */
  lemma MarginBounds(size: real)
    ensures Margin(size) >= 1.0 && Margin(size) >= size / 2.0
    ensures Margin(size) == size / 2.0 || Margin(size) == 1.0
  {
  }

  /**
   * The three cases of `drawLine`: pen up, nothing; pen down and warped, one
   * stroke of the pen's width; pen down and not warped, that stroke and one
   * damage rectangle around the segment. The pen itself never changes.
   */
  lemma DrawLineCases(m: Machine, p: Placement, segment: Segment)
    requires Drawable(m.pen, p)
    ensures var r := DrawLine(m, p, segment);
      && r.pen == m.pen
      && (!m.pen.isDown ==> r.log == m.log)
      && (m.pen.isDown && m.pen.isWarped ==> r.log == m.log + [Stroke(segment, m.pen.size)])
      && (m.pen.isDown && !m.pen.isWarped ==>
            r.log == m.log + [Stroke(segment, m.pen.size), Damage(SegmentBox(segment, Margin(m.pen.size)))])
  {
    if m.pen.isDown && !m.pen.isWarped {
      assert m.log + [Stroke(segment, m.pen.size)] + [Damage(SegmentBox(segment, Margin(m.pen.size)))]
          == m.log + [Stroke(segment, m.pen.size), Damage(SegmentBox(segment, Margin(m.pen.size)))];
    }
  }

  /**
   * `forward(steps)` changes no field of the pen; it moves once, `steps`
   * along the heading when `steps >= 0` and `|steps|` along the opposite
   * direction otherwise, and then draws that same segment.
   */
  lemma ForwardMovesOnce(m: Machine, p: Placement, steps: real)
    requires Drawable(m.pen, p)
    ensures var r := Forward(m, p, steps);
      var segment := Travel(m.pen.heading, steps);
      && r.pen == m.pen
      && segment.magnitude == (if steps >= 0.0 then steps else -steps)
      && segment.angle == (if steps >= 0.0 then m.pen.heading else m.pen.heading - 180)
      && r == DrawLine(Emit(m, Moved(segment)), p, segment)
      && Count(r.log, Steps) == Count(m.log, Steps) + 1
  {
    ForwardCounts(m, p, steps);
  }

  /** Moving back the same distance travels as far, in the opposite direction. */
  lemma TravelReverses(heading: int, steps: real)
    requires steps != 0.0
    ensures Travel(heading, -steps).magnitude == Travel(heading, steps).magnitude > 0.0
    ensures Congruent(Travel(heading, -steps).angle, Travel(heading, steps).angle + 180)
  {
    if steps > 0.0 {
      assert Travel(heading, -steps).angle - (Travel(heading, steps).angle + 180) == -FullTurn;
    }
  }

  // ----- up, down, clear -----

  lemma UpDownOnlyPen(m: Machine)
    ensures Up(m) == m.(pen := m.pen.(isDown := false)) && !Up(m).pen.isDown
    ensures Down(m) == m.(pen := m.pen.(isDown := true)) && Down(m).pen.isDown
    ensures Up(m).log == m.log && Down(m).log == m.log
  {
  }

  /** `clear` leaves the pen alone and always notifies the parent, warped or not. */
  lemma ClearAlwaysNotifies(m: Machine, p: Placement)
    requires p != Orphan
    ensures Clear(m, p).pen == m.pen
    ensures Clear(m, p).log == m.log + [TrailsCleared, ParentChanged]
  {
    assert m.log + [TrailsCleared] + [ParentChanged] == m.log + [TrailsCleared, ParentChanged];
  }

  /** `clear` adds one trail wipe and one parent notice, and nothing else. */
  lemma ClearCounts(m: Machine, p: Placement)
    requires p != Orphan
    ensures Clear(m, p).pen == m.pen
    ensures forall k :: Count(Clear(m, p).log, k) == Count(m.log, k) + (if k == TrailClears || k == ParentNotices then 1 else 0)
  {
    EmitCount(m, TrailsCleared);
    EmitCount(Emit(m, TrailsCleared), ParentChanged);
  }

  // ----- the warp gate -----

  /**
   * `endWarp` ends suppression, regenerates the icon exactly when a redraw
   * was wanted, leaves no redraw pending, and notifies the parent exactly once.
   */
  lemma EndWarpFlushes(m: Machine, p: Placement)
    requires p != Orphan
    ensures var r := EndWarp(m, p);
      && !r.pen.isWarped && !r.pen.wantsRedraw
      && r.pen == m.pen.(isWarped := false, wantsRedraw := false)
      && r.log == m.log + (if m.pen.wantsRedraw then [IconDrawn(ArrowFor(m.pen.penPoint, m.pen.heading))] else [])
                        + [ParentChanged]
      && forall k :: Count(r.log, k) == Count(m.log, k) + (if k == Icons && m.pen.wantsRedraw then 1 else 0)
                                                        + (if k == ParentNotices then 1 else 0)
  {
    var icon := IconDrawn(ArrowFor(m.pen.penPoint, m.pen.heading));
    var open := m.(pen := m.pen.(isWarped := false));
    if m.pen.wantsRedraw {
      EmitCount(open, icon);
      EmitCount(Emit(open, icon), ParentChanged);
    } else {
      EmitCount(open, ParentChanged);
      assert m.log + [] + [ParentChanged] == m.log + [ParentChanged];
    }
  }

  /** A warp around nothing regenerates nothing and still notifies the parent once. */
  lemma EmptyWarp(m: Machine, p: Placement)
    requires p != Orphan
    ensures Warp(m, p, []).log == m.log + [ParentChanged]
    ensures Warp(m, p, []).pen == m.pen.(isWarped := false, wantsRedraw := false)
  {
    EndWarpFlushes(StartWarp(m), p);
  }

  /**
   * The gate is a flag, not a counter: an `endWarp` inside a warp ends the
   * suppression for the rest of the body, so a `turn(0)` after it damages
   * and notifies at once, and the parent hears of the warp twice.
   */
  lemma InnerEndWarpEndsSuppression(m: Machine)
    requires !m.pen.isWarped
    ensures Warp(m, OnStage, [EndWarpOp, TurnOp(0)]).log
         == m.log + [ParentChanged, IconDrawn(ArrowFor(m.pen.penPoint, Normalize(m.pen.heading))),
                     Damage(OwnBounds), ChildChanged, ParentChanged]
  {
    var body := [EndWarpOp, TurnOp(0)];
    var warped := StartWarp(m);
    var ended := EndWarp(warped, OnStage);
    assert ended.log == m.log + [ParentChanged];
    assert !ended.pen.isWarped && !ended.pen.wantsRedraw;
    var turned := Turn(ended, OnStage, 0);
    SetHeadingEffects(ended, OnStage, ended.pen.heading);
    assert turned.log == m.log + [ParentChanged, IconDrawn(ArrowFor(m.pen.penPoint, Normalize(m.pen.heading))),
                                  Damage(OwnBounds), ChildChanged];
    assert body[1..] == [TurnOp(0)] && body[1..][1..] == [];
    assert Run(warped, OnStage, body) == turned;
  }
}
