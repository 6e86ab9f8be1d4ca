# PenMorph turtle

This project models the pen morph of a Morphic-style user interface. The pen morph is a LOGO turtle. It keeps:

- a heading in degrees;
- a pen that is up or down;
- a stroke width (`size`);
- a pivot convention for its arrowhead icon (`penPoint`);
- two flags for the warp gate, `isWarped` and `wantsRedraw`.

Its operations change these fields in place. They also cause outside effects:

- the icon is regenerated;
- a damage rectangle is pushed onto the world's `broken` list;
- the parent is told `childChanged`;
- the parent's trails are wiped (`parent.drawNew`);
- the parent is told `changed`;
- a line is stroked onto the parent's pen trails;
- the pen moves (`setPosition`).

The model records each effect as an entry of a log. Pixels, points and rectangles are not modelled. Each entry keeps only the quantities the pen chooses for it:

- the arrowhead polygon of the icon, fixed by its pivot and direction;
- the (magnitude, angle) pair handed to `distanceAngle`;
- the stroke width;
- the margin a line's damage box is expanded by.

The modules:

- `Angles`: headings are whole degrees. It holds JavaScript's truncated `%` by 360, which keeps the sign of the dividend, written out next to Dafny's Euclidean `%`. It also holds congruence modulo a full turn.
- `Icon`: the `facing || heading` fallback of `drawNew`, and the polar geometry of the arrowhead for the two pivot conventions. Each icon regeneration in the log carries the arrowhead it fills.
- `Effects`: the effect log, and counting its entries by kind.
- `Turtle`: every operation as a function from a `Machine` (the pen's fields plus the log) to the machine afterwards. This includes the two generators and `warp` around a procedure given as a sequence of calls.
- `PenMorph`: class `Pen`, the imperative pen. Its fields are updated in place by methods, including the `for` loop of `sierpinski` and the recursion of `tree`. Each method is proved to leave exactly the state and log the matching `Turtle` function gives.
  - Every function of the source has a method of the same name, except `initialize` and `init`, which are the constructor.
  - Four methods have no source function of their own. `Branches` is the middle of `tree` (its two subtrees), split off so that each recursion step stays small. `Generate` stands for `warpOp`'s dispatch on its selector. `Step` and `Run` stand for the calls a procedure handed to `warp` makes.
  - `Turtle` has functions for the same operations, with the same four helpers. `Turtle.Generate`, `Step`, `Run` and `Warp` describe those dispatches and procedures. `Turtle` has no function of its own for `warpOp`, `warpSierpinski` or `warpTree`: each is `Turtle.Warp(m, p, [GenerateOp(g)])` of the generator `g` it names.
- `RangeFacts`: every operation keeps the pen in range. The heading stays inside (-360, 360) and the stroke width stays positive (`Turtle.InRange`, and `Pen.InRange` on the class).
- `TurtleFacts`, `GeneratorFacts`, `WarpFacts`: what the operations promise. These cover:
  - the heading normalisation;
  - the redraw and notice cost of each turn and move;
  - the three cases of `drawLine`;
  - what `tree` and `sierpinski` do, counted call by call, including their net turn modulo 360;
  - the warp gate collapsing a whole run into at most one icon regeneration and one parent notice.

The pen's place in the morph tree is the constant `Placement`:

- `Orphan`: no parent;
- `Offstage`: a parent whose root is not a world;
- `OnStage`: under a world.

Operations that dereference `this.parent` require a parent. A stroke drawn with the pen down and the gate open pushes to `this.world()`, so it requires a world.

Some behaviours of the code a reader may not expect:

- A heading is the truncated remainder of the request by 360. So `setHeading(-90)` stores -90, and headings lie in (-360, 360).
- The warp gate is a flag, not a counter. An `endWarp` inside a warp ends suppression for the rest of the enclosing body, and the parent hears of the warp twice (`TurtleFacts.InnerEndWarpEndsSuppression`).
- `warp` has no guaranteed release. See "Left out".
- A warped `tree` of level 0 or less, and a warped `sierpinski` with `length <= min`, regenerate no icon at all. The parent is still notified once (`WarpFacts.WarpTreeOnce`, `WarpFacts.WarpSierpinskiOnce`).
- `tree` brings the heading back only modulo 360, not exactly (`GeneratorFacts.TreeHeadingNotRestored`).

## Model

| member | source | states |
|---|---|---|
| PenMorph.Pen.constructor | public/javascripts/new/PenMorph.js:11-28 | a new pen has heading 0, pen down, width 1, pivot at the tip, not warped, no redraw wanted, and an empty effect log; it is in range |
| PenMorph.Pen.Changed | public/javascripts/new/PenMorph.js:32-42 | the new state and log are those of `Turtle.Changed`: nothing while warped; otherwise damage under a world, and a child notice to a parent |
| PenMorph.Pen.DrawNew | public/javascripts/new/PenMorph.js:46-58 | the new state and log are those of `Turtle.DrawNew`: while warped only `wantsRedraw` is set; otherwise one icon along `facing \|\| heading`, whose arrowhead it picks by pivot as `Icon.ArrowFor` does |
| PenMorph.Pen.SetHeading | public/javascripts/new/PenMorph.js:95-99 | the new state and log are those of `Turtle.SetHeading`. The heading is stored with the sign-keeping remainder (`Angles.NormalizeIsJsRemainder`), then the icon is redrawn and the change reported |
| PenMorph.Pen.DrawLine | public/javascripts/new/PenMorph.js:103-125 | the new state and log are those of `Turtle.DrawLine`: a stroke only with the pen down, and damage expanded by `max(size/2, 1)` only when not warped |
| PenMorph.Pen.Turn | public/javascripts/new/PenMorph.js:129-131 | the new state and log are those of `Turtle.Turn`, that is `setHeading(heading + degrees)` |
| PenMorph.Pen.Forward | public/javascripts/new/PenMorph.js:133-147 | the new state and log are those of `Turtle.Forward`: one move along the heading (or its reverse for negative steps), then `drawLine` of that segment |
| PenMorph.Pen.Down | public/javascripts/new/PenMorph.js:149-151 | only `isDown` changes, to true; the log is untouched |
| PenMorph.Pen.Up | public/javascripts/new/PenMorph.js:153-155 | only `isDown` changes, to false; the log is untouched |
| PenMorph.Pen.Clear | public/javascripts/new/PenMorph.js:157-160 | no pen field changes; the log gains a trail wipe and a parent notice |
| PenMorph.Pen.StartWarp | public/javascripts/new/PenMorph.js:164-167 | `wantsRedraw` becomes false and `isWarped` true; nothing else changes |
| PenMorph.Pen.EndWarp | public/javascripts/new/PenMorph.js:169-176 | the new state and log are those of `Turtle.EndWarp`: unwarp, regenerate the icon if a redraw was wanted, then notify the parent |
| PenMorph.Pen.Sierpinski | public/javascripts/new/PenMorph.js:197-206 | the loop of three rounds leaves the state and log of `Turtle.Sierpinski`, with a loop invariant tying round `i` to `Turtle.SierpinskiRounds` |
| PenMorph.Pen.Tree | public/javascripts/new/PenMorph.js:212-223 | the recursion leaves the state and log of `Turtle.Tree` |
| PenMorph.Pen.Branches | public/javascripts/new/PenMorph.js:216-219 | the two subtrees leave the state and log of `Turtle.Branches` |
| PenMorph.Pen.Generate | public/javascripts/new/PenMorph.js:186 | dispatching a generator by name leaves the state and log of `Turtle.Generate` |
| PenMorph.Pen.Step | public/javascripts/new/PenMorph.js:180 | one call made by a procedure handed to `warp` leaves the state and log of `Turtle.Step`, and keeps the pen in range |
| PenMorph.Pen.Run | public/javascripts/new/PenMorph.js:180 | a procedure's calls in order leave the state and log of `Turtle.Run`, and keep the pen in range |
| PenMorph.Pen.Warp | public/javascripts/new/PenMorph.js:178-182 | start warping, run the procedure, end warping: the state and log of `Turtle.Warp`; the pen stays in range |
| PenMorph.Pen.WarpOp | public/javascripts/new/PenMorph.js:184-188 | one generator between `startWarp` and `endWarp` is `Turtle.Warp` of that single call |
| PenMorph.Pen.WarpSierpinski | public/javascripts/new/PenMorph.js:193-195 | `warpOp('sierpinski', …)`: `Turtle.Warp` of one Sierpinski call |
| PenMorph.Pen.WarpTree | public/javascripts/new/PenMorph.js:208-210 | `warpOp('tree', …)`: `Turtle.Warp` of one tree call |
| Turtle.Changed | public/javascripts/new/PenMorph.js:32-42 | `changed` never touches the pen's fields and only appends to the log |
| Turtle.DrawNew | public/javascripts/new/PenMorph.js:46-58 | `drawNew` changes no field except `wantsRedraw`, which it sets exactly when warped; it appends at most one entry to the log |
| Turtle.SetHeading | public/javascripts/new/PenMorph.js:95-99 | `setHeading` keeps the pen's mode (up/down, warp, pivot) and width, and only appends to the log |
| Turtle.DrawLine | public/javascripts/new/PenMorph.js:103-125 | `drawLine` never touches the pen's fields and only appends to the log |
| Turtle.Clear | public/javascripts/new/PenMorph.js:157-160 | `clear` never touches the pen's fields and only appends to the log |
| Turtle.EndWarp | public/javascripts/new/PenMorph.js:169-176 | `endWarp` leaves the pen unwarped with no redraw pending, every other field as it was, and only appends to the log |
| Turtle.Warp | public/javascripts/new/PenMorph.js:178-182 | after `warp(fun)` the pen is unwarped with no redraw pending, whatever the body did |
| Turtle.Turn | public/javascripts/new/PenMorph.js:129-131 | turning changes neither the pen's mode (up/down, warp, pivot) nor its width |
| Turtle.Forward | public/javascripts/new/PenMorph.js:133-147 | moving changes no field of the pen at all |
| Turtle.Sierpinski | public/javascripts/new/PenMorph.js:197-206 | the generator leaves the pen's mode and width as they were |
| Turtle.SierpinskiRounds | public/javascripts/new/PenMorph.js:200-204 | any number of loop rounds leaves the pen's mode and width as they were |
| Turtle.Tree | public/javascripts/new/PenMorph.js:212-223 | the pen's mode is kept; a positive level leaves width 1, any other level leaves the width unchanged |
| Turtle.Branches | public/javascripts/new/PenMorph.js:216-219 | the mode is kept; width is 1 after subtrees of positive level, else unchanged |
| Turtle.Travel | public/javascripts/new/PenMorph.js:137-144 | `forward(steps)` moves the magnitude of `steps`: along the heading for `steps >= 0`, along the heading minus 180 for negative steps |
| Turtle.Margin | public/javascripts/new/PenMorph.js:120 | the damage margin is `max(size/2, 1)`: at least both, and equal to one of them |
| Turtle.Down | public/javascripts/new/PenMorph.js:149-151 | `down` lowers the pen and changes no other field and no log entry |
| Turtle.Up | public/javascripts/new/PenMorph.js:153-155 | `up` lifts the pen and changes no other field and no log entry |
| Turtle.StartWarp | public/javascripts/new/PenMorph.js:164-167 | `startWarp` closes the gate with no redraw pending, and changes no other field and no log entry |
| Turtle.Generate | public/javascripts/new/PenMorph.js:186 | running the named generator keeps the pen's mode; Sierpinski keeps the width, a tree of positive level leaves width 1 |
| Turtle.Step | public/javascripts/new/PenMorph.js:180 | no call a procedure makes moves the pivot; only `up`/`down` change the pen's up/down state, and only `startWarp`/`endWarp` the gate |
| Turtle.Run | public/javascripts/new/PenMorph.js:180 | a procedure never moves the pivot; without `up`/`down` calls the pen stays as it was, and without `startWarp`/`endWarp` calls so does the gate |
| Turtle.HalvingShrinks | public/javascripts/new/PenMorph.js:199-201 | with `min > 0`, halving `length` strictly lowers `floor(length/min)` until `length <= min`, so the recursion ends |
| Angles.JsRemainder | public/javascripts/new/PenMorph.js:96 | JavaScript's `degrees % 360` is below 360 in magnitude, has the sign of `degrees` (or is 0), and is congruent to it modulo 360 |
| Angles.Normalize | public/javascripts/new/PenMorph.js:96 | the stored heading is below 360 in magnitude and has the sign of the request (or is 0) |
| Angles.NormalizeProperties | public/javascripts/new/PenMorph.js:96 | the stored heading is below 360 in magnitude, has the sign of the request or is 0, and is congruent to it modulo 360 |
| Angles.NormalizeIsJsRemainder | public/javascripts/new/PenMorph.js:96 | taking off full turns toward zero equals JavaScript's truncated `degrees % 360` |
| Angles.NormalizeCharacterized | public/javascripts/new/PenMorph.js:96 | a value is the stored heading if and only if it is below 360 in magnitude, of the request's sign and congruent to it |
| Angles.NormalizeFixes | public/javascripts/new/PenMorph.js:96 | every heading in (-360, 360), negative ones included, is stored unchanged |
| Angles.NormalizeIdempotent | public/javascripts/new/PenMorph.js:96 | setting a stored heading again stores the same heading |
| Icon.Direction | public/javascripts/new/PenMorph.js:53 | a missing `facing` or a `facing` of 0 gives the pen's heading; any other `facing` is used as given |
| Icon.ArrowFor | public/javascripts/new/PenMorph.js:64-72 | the apex lies at 3/4 of the half-width; the two wings are equally far out and mirror each other about the direction |
| Icon.ArrowTurnsWithDirection | public/javascripts/new/PenMorph.js:64-72 | turning the direction turns the whole arrowhead rigidly by the same angle |
| Icon.PivotsOpposite | public/javascripts/new/PenMorph.js:64-72 | the tip and middle conventions put the apex equally far out on opposite sides: with the tip pivot it trails the direction, with the middle pivot it leads; the tip wings reach further |
| TurtleFacts.SetHeadingStores | public/javascripts/new/PenMorph.js:95-99 | `setHeading(d)` stores JavaScript's `d % 360`, in (-360, 360), of the sign of `d`, congruent to `d`. No other field changes, except that a warped pen now wants a redraw |
| TurtleFacts.SetHeadingEffects | public/javascripts/new/PenMorph.js:95-99 | not warped: exactly one icon along the new heading, then damage under a world and a child notice to a parent; warped: no effect at all |
| TurtleFacts.ChangeEffectsCount | public/javascripts/new/PenMorph.js:32-42 | the effects of one unwarped redraw-and-change are, kind by kind, the cost of one turn |
| TurtleFacts.TurnZeroStillRedraws | public/javascripts/new/PenMorph.js:129-131 | `turn(0)` on an unwarped pen with a parent still regenerates the icon once and notifies the parent once |
| TurtleFacts.TurnCounts | public/javascripts/new/PenMorph.js:129-131 | a turn is one turn's worth of effects by kind: one icon, one damage under a world, one child notice, when not warped; none when warped. The heading moves by `degrees` modulo 360 |
| TurtleFacts.ForwardCounts | public/javascripts/new/PenMorph.js:133-147 | a move is one move's worth of effects: one step, a stroke if the pen is down, a damage if also not warped |
| TurtleFacts.MotionCompose | public/javascripts/new/PenMorph.js:129-147 | turns and moves done one after another add up their counts |
| TurtleFacts.MarginBounds | public/javascripts/new/PenMorph.js:120 | the damage margin is `max(size/2, 1)`: at least 1 and at least half the width, and equal to one of them |
| TurtleFacts.DrawLineCases | public/javascripts/new/PenMorph.js:103-125 | pen up: nothing. Pen down and warped: one stroke of the pen's width. Pen down and not warped: that stroke and one damage box. The pen never changes |
| TurtleFacts.ForwardMovesOnce | public/javascripts/new/PenMorph.js:133-147 | `forward` changes no pen field; it moves once, by `steps` along the heading or by `-steps` along heading − 180, and draws exactly that segment |
| TurtleFacts.TravelReverses | public/javascripts/new/PenMorph.js:137-144 | `forward(-s)` travels as far as `forward(s)` in the opposite direction |
| TurtleFacts.UpDownOnlyPen | public/javascripts/new/PenMorph.js:149-155 | `up` and `down` change only `isDown`, and cause no effect |
| TurtleFacts.ClearAlwaysNotifies | public/javascripts/new/PenMorph.js:157-160 | `clear` changes no pen field and, warped or not, wipes the trails and notifies the parent |
| TurtleFacts.ClearCounts | public/javascripts/new/PenMorph.js:157-160 | `clear` adds exactly one trail wipe and one parent notice, and nothing of any other kind |
| TurtleFacts.EndWarpFlushes | public/javascripts/new/PenMorph.js:169-176 | `endWarp` unwarps, clears `wantsRedraw`, and regenerates the icon if and only if a redraw was wanted. It notifies the parent exactly once and causes nothing else |
| TurtleFacts.EmptyWarp | public/javascripts/new/PenMorph.js:178-182 | a warp around nothing regenerates nothing and notifies the parent once |
| TurtleFacts.InnerEndWarpEndsSuppression | public/javascripts/new/PenMorph.js:164-176 | an `endWarp` nested in a warp ends suppression: a following `turn(0)` draws, damages and notifies at once, and the parent is notified twice |
| GeneratorFacts.ReplayCounts | public/javascripts/new/PenMorph.js:129-147 | any sequence of width settings, turns and moves costs its turn count and move count in effects, and moves the heading by its total turn modulo 360 |
| GeneratorFacts.TreeReplays | public/javascripts/new/PenMorph.js:212-223 | `tree` performs exactly the calls of `TreeCalls`, in order |
| GeneratorFacts.BranchesReplays | public/javascripts/new/PenMorph.js:216-219 | the branches perform exactly the calls of `BranchCalls`, in order |
| GeneratorFacts.TreeCallCounts | public/javascripts/new/PenMorph.js:212-223 | `tree(level, …)` makes `3·(2^level − 1)` turns summing to 0, and `2·(2^level − 1)` moves |
| GeneratorFacts.BranchCallCounts | public/javascripts/new/PenMorph.js:216-219 | the branches of a node turn a net `-angle` and make the turns and moves of two subtrees plus two turns |
| GeneratorFacts.TreeCounts | public/javascripts/new/PenMorph.js:212-223 | `tree` costs `3·(2^level − 1)` turns and `2·(2^level − 1)` moves in effects, keeps the pen's mode, and ends facing its start modulo 360 |
| GeneratorFacts.TreeHeadingNotRestored | public/javascripts/new/PenMorph.js:212-223 | from heading 350, `tree(1, 10, 20)` ends at -10: the same direction, but not the same value |
| GeneratorFacts.SierpinskiReplays | public/javascripts/new/PenMorph.js:197-206 | `sierpinski` performs exactly the calls of `SierpinskiCalls`, in order |
| GeneratorFacts.RoundsReplay | public/javascripts/new/PenMorph.js:200-204 | the loop's rounds perform exactly the calls of `RoundCalls` |
| GeneratorFacts.SierpinskiStepsClosed | public/javascripts/new/PenMorph.js:197-206 | a figure `d` levels deep makes `(3^(d+1) − 3)/2` turns |
| GeneratorFacts.SierpinskiCallCounts | public/javascripts/new/PenMorph.js:197-206 | `sierpinski` makes as many turns as moves, `SierpinskiSteps(depth)`, with a net turn of 0 modulo 360 |
| GeneratorFacts.RoundCallCounts | public/javascripts/new/PenMorph.js:200-204 | each round adds the half-size figure, one turn of 120 and one move |
| GeneratorFacts.SierpinskiCounts | public/javascripts/new/PenMorph.js:197-206 | `sierpinski` does nothing when `length <= min`; otherwise it costs its turns and moves in effects and ends facing its start modulo 360 |
| GeneratorFacts.SierpinskiOfEight | public/javascripts/new/PenMorph.js:197-206 | `sierpinski(8, 1)` recurses three levels and makes 39 turns and 39 moves |
| GeneratorFacts.GenerateCounts | public/javascripts/new/PenMorph.js:186 | either generator costs its turns and moves in effects and ends facing its start modulo 360 |
| WarpFacts.WarpedGenerator | public/javascripts/new/PenMorph.js:184-188 | `warpOp` around a generator: one icon if it turned at all, else none. One parent notice, no damage, no child notice. All its strokes and moves happen. The pen ends unwarped, facing its start modulo 360 |
| WarpFacts.WarpAround | public/javascripts/new/PenMorph.js:169-176 | ending a warp around any turns and moves gives at most one icon and exactly one parent notice, with no damage or child notice |
| WarpFacts.WarpTreeOnce | public/javascripts/new/PenMorph.js:208-210 | `warpTree` regenerates the icon once exactly when `level > 0`, notifies the parent once, pushes no damage, and moves `2·(2^level − 1)` times |
| WarpFacts.WarpSierpinskiOnce | public/javascripts/new/PenMorph.js:193-195 | `warpSierpinski` regenerates the icon once exactly when `length > min`, notifies the parent once, and pushes no damage |
| WarpFacts.WarpedSetHeading | public/javascripts/new/PenMorph.js:55-58 | while warped, `setHeading` causes no effect and leaves a redraw wanted |
| WarpFacts.WarpedMotion | public/javascripts/new/PenMorph.js:116 | while warped, turns and moves cause no icon, damage, child notice or parent notice; turning leaves a redraw wanted |
| WarpFacts.WarpedStep | public/javascripts/new/PenMorph.js:32-58 | on a warped pen, any call other than start/end warp keeps it warped and causes no icon, damage or child notice. Only `clear` reaches the parent. A redraw is wanted exactly if it already was or the call redraws |
| WarpFacts.WarpedRun | public/javascripts/new/PenMorph.js:180 | a whole procedure on a warped pen: same as one call, summed, with a redraw wanted if any call redraws |
| WarpFacts.WarpBatches | public/javascripts/new/PenMorph.js:178-182 | `warp(fun)` gives one icon exactly when the body set or turned the heading, else none. No damage and no child notice from the body. One parent notice for the warp, plus one per `clear` |
| WarpFacts.WarpedGenerate | public/javascripts/new/PenMorph.js:197-223 | a generator on a warped pen causes no icon, damage or notice, and leaves a redraw wanted exactly when it turned |
| GeneratorFacts.ReplayMotion | public/javascripts/new/PenMorph.js:129-147 | any sequence of width settings, turns and moves costs, kind by kind, its turn count and move count in effects |
| GeneratorFacts.ReplayTurns | public/javascripts/new/PenMorph.js:129-131 | any such sequence moves the heading by its total turn, modulo 360 |
| RangeFacts.ReplayKeepsHeading | public/javascripts/new/PenMorph.js:96 | a sequence of width settings, turns and moves keeps the heading strictly inside a full turn |
| RangeFacts.GenerateKeepsRange | public/javascripts/new/PenMorph.js:197-223 | `tree` and `sierpinski` keep the heading inside a full turn and the width positive; `tree` only ever sets the width to a positive level |
| RangeFacts.StepKeepsRange | public/javascripts/new/PenMorph.js:95-188 | every pen operation keeps the pen in range |
| RangeFacts.RunKeepsRange | public/javascripts/new/PenMorph.js:180 | a whole procedure keeps the pen in range |
| RangeFacts.WarpKeepsRange | public/javascripts/new/PenMorph.js:178-182 | a warp around any procedure keeps the pen in range |
| RangeFacts.InitialInRange | public/javascripts/new/PenMorph.js:19-24 | a new pen is in range: heading 0, width 1 |

## Left out

- Raster work is not modelled: canvases, `getContext`, fill and stroke styles, colours, pixels and `parent.penTrails()`. These are recorded only as log entries.
- Points and trigonometry are not modelled: `distanceAngle`, `center`, `position`, `subtract`. `forward` records the (magnitude, angle) it asks for.
- `setPosition` is logged as one move and nothing more. `Morph` is not part of this model, so any change notices it raises through this pen's `changed` are not counted. The counts in `TurtleFacts.ForwardCounts`, `GeneratorFacts.TreeCounts`, `GeneratorFacts.SierpinskiCounts` and the warp lemmas are those of PenMorph.js's own code.
- Rectangle geometry is not modelled: `rectangle`, `expandBy`, `intersect`, `spread`, `visibleBounds`. A damage entry records whether it covers the pen's own bounds or a stroked segment, together with the margin.
- `root()`, `world()` and `instanceOf('WorldMorph')` walk the morph tree, which is not part of this model. The answer is the constant `Placement`. The pen is never moved between parents.
- PenMorph.Pen.constructor: it sets the six fields of `init` and starts with an empty log. `init`'s `$super()` and `setExtent` run `Morph`'s code. That code can call back into this pen's overridden `drawNew` and `changed`, which is why `init` sets `isWarped` and `heading` first. The icon rendering and notices this triggers are not logged, because `Morph` is not part of this model. `MorphicPreferences.handleSize` only sizes the icon. `initialize` only calls `init`.
- Numeric coercion is not modelled. Headings and turn angles are whole degrees, so `parseFloat` and NaN do not arise; lengths and widths are exact reals.
- PenMorph.Pen.Warp: a procedure that throws leaves the gate engaged in the source (there is no `finally`). Dafny has no exceptions, so the model's procedures always finish. A procedure is a sequence of pen calls (`Turtle.Op`), not arbitrary code.
- PenMorph.Pen.Generate: `warpOp` looks up its method by name (`this[selector]`). The model uses the enum `Turtle.Generator` of the two generators, so unknown names and wrong argument lists are not modelled.
- PenMorph.Pen.Sierpinski: the source recurses without end when `length > min` and `min <= 0`. The model requires `min > 0` whenever `length > min`.
- PenMorph.Pen.DrawLine: it requires a parent, and requires a world when it would push damage. Where the source would throw on a missing parent or world, the model excludes the call. The same holds for `Forward`, `Clear` and `EndWarp`, which all dereference `this.parent`.
- PenMorph.Pen.Tree: `level` is a whole number. A fractional level in the source would set a fractional width; that is not modelled.
- The implicit global `rect` assigned in `drawLine` has no effect on the pen and is not modelled.
