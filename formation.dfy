/** The enemy formation's march: one rigid horizontal shift per frame, and a
    reversal with a step down when any enemy reaches a side wall. */
module Formation {
  import opened Entities
  import opened Lists

  function ShiftBy(dx: real): Enemy -> Enemy
  {
    (e: Enemy) => e.(x := e.x + dx)
  }

  function LowerBy(dy: real): Enemy -> Enemy
  {
    (e: Enemy) => e.(y := e.y + dy)
  }

  /** moveX = enemyDirection * enemySpeed * dt. */
  function MarchOffset(direction: int, speed: real, dt: real): real
  {
    direction as real * speed * dt
  }

  /** The enemy's right edge reaches the right wall or its left edge reaches 0. */
  predicate AtWall(e: Enemy, canvasWidth: real)
  {
    e.x + e.width >= canvasWidth || e.x <= 0.0
  }

  predicate AnyAtWall(es: seq<Enemy>, canvasWidth: real)
  {
    exists i :: 0 <= i < |es| && AtWall(es[i], canvasWidth)
  }

  /** The formation after a march, and whether it reversed. */
  datatype March = March(enemies: seq<Enemy>, reversed: bool)

  /** One march: shift every enemy by dx; if any shifted enemy is at a wall, reverse
      and step every enemy down by dy. */
  function Step(es: seq<Enemy>, dx: real, dy: real, canvasWidth: real): March
  {
    var shifted := Apply(es, ShiftBy(dx));
    var reversed := AnyAtWall(shifted, canvasWidth);
    March(if reversed then Apply(shifted, LowerBy(dy)) else shifted, reversed)
  }

  /** What a march does: every enemy moves by the same dx; the formation reverses, and
      every enemy moves down by dy, exactly when some enemy after the move has its left
      edge at or past 0 or its right edge at or past the right wall. */
  lemma StepMeaning(es: seq<Enemy>, dx: real, dy: real, canvasWidth: real)
    ensures var m := Step(es, dx, dy, canvasWidth);
      && |m.enemies| == |es|
      && (m.reversed <==> exists i :: 0 <= i < |es| && (es[i].x + dx + es[i].width >= canvasWidth || es[i].x + dx <= 0.0))
      && forall i :: 0 <= i < |es| ==>
           m.enemies[i] == es[i].(x := es[i].x + dx, y := es[i].y + (if m.reversed then dy else 0.0))
  {
    var shifted := Apply(es, ShiftBy(dx));
    ApplyAt(es, ShiftBy(dx));
    ApplyAt(shifted, LowerBy(dy));
    if AnyAtWall(shifted, canvasWidth) {
      var i :| 0 <= i < |shifted| && AtWall(shifted[i], canvasWidth);
      assert es[i].x + dx + es[i].width >= canvasWidth || es[i].x + dx <= 0.0;
    }
    if exists i :: 0 <= i < |es| && (es[i].x + dx + es[i].width >= canvasWidth || es[i].x + dx <= 0.0) {
      var i :| 0 <= i < |es| && (es[i].x + dx + es[i].width >= canvasWidth || es[i].x + dx <= 0.0);
      assert AtWall(shifted[i], canvasWidth);
    }
  }

  /** The march is rigid: the distance between any two enemies is unchanged,
      and so are their sizes and kinds. */
  lemma StepIsRigid(es: seq<Enemy>, dx: real, dy: real, canvasWidth: real, i: nat, j: nat)
    requires i < |es| && j < |es|
    ensures var m := Step(es, dx, dy, canvasWidth).enemies;
      && m[i].x - m[j].x == es[i].x - es[j].x
      && m[i].y - m[j].y == es[i].y - es[j].y
      && m[i].width == es[i].width && m[i].height == es[i].height && m[i].kind == es[i].kind
  {
    StepMeaning(es, dx, dy, canvasWidth);
  }

  /** A formation strictly clear of both walls after the move keeps its direction and its height. */
  lemma ClearOfWallsKeepsGoing(es: seq<Enemy>, dx: real, dy: real, canvasWidth: real)
    requires forall i :: 0 <= i < |es| ==> es[i].x + dx > 0.0 && es[i].x + dx + es[i].width < canvasWidth
    ensures !Step(es, dx, dy, canvasWidth).reversed
    ensures forall i :: 0 <= i < |es| ==> Step(es, dx, dy, canvasWidth).enemies[i].y == es[i].y
  {
    StepMeaning(es, dx, dy, canvasWidth);
  }

  /** The first forEach of the march: shift every enemy, noting whether any of them,
      once moved, is at a wall. */
  method ShiftAll(es: seq<Enemy>, dx: real, canvasWidth: real) returns (r: seq<Enemy>, shouldReverse: bool)
    ensures r == Apply(es, ShiftBy(dx))
    ensures shouldReverse == AnyAtWall(r, canvasWidth)
  {
    r := es;
    shouldReverse := false;
    var i := 0;
    while i < |r|
      invariant 0 <= i <= |r| == |es|
      invariant forall j :: 0 <= j < i ==> r[j] == es[j].(x := es[j].x + dx)
      invariant forall j :: i <= j < |r| ==> r[j] == es[j]
      invariant shouldReverse <==> exists j :: 0 <= j < i && AtWall(r[j], canvasWidth)
    {
      r := r[i := r[i].(x := r[i].x + dx)];
      if AtWall(r[i], canvasWidth) {
        shouldReverse := true;
      }
      i := i + 1;
    }
    ApplyAt(es, ShiftBy(dx));
    assert forall j :: 0 <= j < |r| ==> r[j] == Apply(es, ShiftBy(dx))[j];
  }

  /** The second forEach of the march: every enemy steps down by dy. */
  method LowerAll(es: seq<Enemy>, dy: real) returns (r: seq<Enemy>)
    ensures r == Apply(es, LowerBy(dy))
  {
    r := es;
    var i := 0;
    while i < |r|
      invariant 0 <= i <= |r| == |es|
      invariant forall j :: 0 <= j < i ==> r[j] == es[j].(y := es[j].y + dy)
      invariant forall j :: i <= j < |r| ==> r[j] == es[j]
    {
      r := r[i := r[i].(y := r[i].y + dy)];
      i := i + 1;
    }
    ApplyAt(es, LowerBy(dy));
    assert forall j :: 0 <= j < |r| ==> r[j] == Apply(es, LowerBy(dy))[j];
  }
}
