/**
 * The side effects of the pen, as entries of a log.
 *
 * Pixels and coordinates are not modelled: each entry records which outside
 * effect happened (an icon regeneration, a damage rectangle pushed onto the
 * world's `broken` list, a notice to the parent, a stroke onto the parent's
 * pen trails, a move) and the quantities the pen itself chose for it, such
 * as the arrowhead polygon a regenerated icon is filled with.
 */
module Effects {
  import opened Icon

  /** A displacement asked of `distanceAngle`: how far, and along which angle. */
  datatype Segment = Segment(magnitude: real, angle: int)

  /** What a damage rectangle covers. */
  datatype Area =
    | OwnBounds                                 // the pen's visible bounds, spread
    | SegmentBox(segment: Segment, margin: real) // a stroked line's box, expanded by `margin`

  datatype Effect =
    | IconDrawn(arrow: Arrow)                     // the icon canvas is regenerated with this arrowhead
    | Damage(area: Area)                        // a rectangle pushed onto the world's `broken` list
    | ChildChanged                              // `parent.childChanged(pen)`
    | TrailsCleared                             // `parent.drawNew()`: the pen trails are wiped
    | ParentChanged                             // `parent.changed()`
    | Stroke(segment: Segment, width: real)     // a line stroked onto the parent's pen trails
    | Moved(segment: Segment)                   // `setPosition` to the point the segment reaches

  /** The kinds of effect the pen's promises count. */
  datatype Kind = Icons | Damages | ChildNotices | TrailClears | ParentNotices | Strokes | Steps

  function KindOf(e: Effect): Kind
  {
    match e
    case IconDrawn(_) => Icons
    case Damage(_) => Damages
    case ChildChanged => ChildNotices
    case TrailsCleared => TrailClears
    case ParentChanged => ParentNotices
    case Stroke(_, _) => Strokes
    case Moved(_) => Steps
  }

  /** How many effects of kind `k` a log holds, counted from its end as it was written. */
  function Count(log: seq<Effect>, k: Kind): nat
  {
    if log == [] then 0
    else Count(log[..|log| - 1], k) + (if KindOf(log[|log| - 1]) == k then 1 else 0)
  }

  /** Counting a log with one more entry adds one for that entry's kind. */
  lemma CountSnoc(log: seq<Effect>, e: Effect, k: Kind)
    ensures Count(log + [e], k) == Count(log, k) + (if KindOf(e) == k then 1 else 0)
  {
    assert (log + [e])[..|log|] == log;
  }

  /** Counting a log split in two is counting each half. */
  lemma {:induction false} CountAppend(a: seq<Effect>, b: seq<Effect>, k: Kind)
    ensures Count(a + b, k) == Count(a, k) + Count(b, k)
    decreases |b|
  {
    if b == [] {
      assert a + b == a;
    } else {
      var init := b[..|b| - 1];
      var last := b[|b| - 1];
      assert a + b == (a + init) + [last];
      assert b == init + [last];
      CountSnoc(a + init, last, k);
      CountSnoc(init, last, k);
      CountAppend(a, init, k);
    }
  }
}
