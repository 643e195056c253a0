/** The player's ship: movement with clamping, the fire cooldown, the power-up timer
    and the spread shot. */
module PlayerShip {
  import opened Entities

  const ShipWidth: real := 40.0
  const ShipHeight: real := 20.0
  const ShipSpeed: real := 300.0
  const BottomMargin: real := 50.0
  const CooldownTime: real := 0.3
  const PowerUpDuration: real := 5.0

  /** Math.max(0, Math.min(canvasWidth - width, x)): the ship's left edge kept on the
      playfield, whatever x was before. */
  function Clamp(x: real, canvasWidth: real, width: real): (r: real)
    ensures r >= 0.0
    ensures width <= canvasWidth ==> r <= canvasWidth - width
    ensures 0.0 <= x <= canvasWidth - width ==> r == x
    ensures x < 0.0 ==> r == 0.0
    ensures 0.0 <= canvasWidth - width < x ==> r == canvasWidth - width
    ensures canvasWidth < width ==> r == 0.0
  {
    Max(0.0, Min(canvasWidth - width, x))
  }

  /** The bullets one shot fires at power-up level `level`: a single bullet at the
      ship's centre, or level + 1 bullets from the left edge to the right edge. */
  function Volley(x: real, y: real, width: real, level: nat): seq<Bullet>
  {
    if level == 0 then [Bullet(x + width / 2.0, y, PlayerBulletSpeed)]
    else seq(level + 1, (i: int) => Bullet(x + i as real * (width / level as real), y, PlayerBulletSpeed))
  }

  /** A shot fires level + 1 upward bullets from the ship's nose line; one sits at the
      centre, several are evenly spaced with the first at the left edge and the last at
      the right edge. */
  lemma VolleyLayout(x: real, y: real, width: real, level: nat)
    ensures |Volley(x, y, width, level)| == level + 1
    ensures forall i :: 0 <= i <= level ==>
              Volley(x, y, width, level)[i].y == y && Volley(x, y, width, level)[i].speed == -400.0
    ensures level == 0 ==> Volley(x, y, width, level)[0].x == x + width / 2.0
    ensures level > 0 ==> Volley(x, y, width, level)[0].x == x
    ensures level > 0 ==> Volley(x, y, width, level)[level].x == x + width
    ensures level > 0 ==> forall i :: 0 <= i < level ==>
              Volley(x, y, width, level)[i + 1].x - Volley(x, y, width, level)[i].x == width / level as real
  {
    if level > 0 {
      var v := Volley(x, y, width, level);
      var step := width / level as real;
      assert level as real * step == width;
      forall i | 0 <= i < level
        ensures v[i + 1].x - v[i].x == step
      {
        assert (i + 1) as real * step == i as real * step + step;
      }
    }
  }

  /** Where the held keys take the left edge: back by d while left is held, then on by
      d while right is held, so holding both cancels out. */
  function Steer(x: real, left: bool, right: bool, d: real): real
  {
    (if left then x - d else x) + (if right then d else 0.0)
  }

  class Player {
    var x: real
    var y: real
    const width: real := ShipWidth
    const height: real := ShipHeight
    const speed: real := ShipSpeed
    var shootCooldown: real
    const cooldownTime: real := CooldownTime
    var powerUpLevel: nat
    var powerUpTimer: real

    /** The ship centred at the bottom of the playfield, 50 above the lower edge. */
    constructor (canvasWidth: real, canvasHeight: real)
      ensures width == ShipWidth && height == ShipHeight && speed == ShipSpeed
      ensures x == canvasWidth / 2.0 - width / 2.0
      ensures y == canvasHeight - height - BottomMargin
      ensures shootCooldown == 0.0 && cooldownTime == CooldownTime
      ensures powerUpLevel == 0 && powerUpTimer == 0.0
    {
      x := canvasWidth / 2.0 - ShipWidth / 2.0;
      y := canvasHeight - ShipHeight - BottomMargin;
      shootCooldown := 0.0;
      powerUpLevel := 0;
      powerUpTimer := 0.0;
    }

    /** shoot: the bullets to push onto the player-bullet list; nothing else changes. */
    method Shoot() returns (shots: seq<Bullet>)
      ensures shots == Volley(x, y, width, powerUpLevel)
      ensures |shots| == powerUpLevel + 1
    {
      var bulletCount := powerUpLevel + 1;
      if bulletCount == 1 {
        shots := [Bullet(x + width / 2.0, y, PlayerBulletSpeed)];
      } else {
        var startX := x;
        var endX := x + width;
        var step := (endX - startX) / (bulletCount - 1) as real;
        shots := [];
        for i := 0 to bulletCount
          invariant |shots| == i
          invariant forall j :: 0 <= j < i ==> shots[j] == Bullet(startX + j as real * step, y, PlayerBulletSpeed)
        {
          shots := shots + [Bullet(startX + i as real * step, y, PlayerBulletSpeed)];
        }
        assert step == width / powerUpLevel as real;
        assert forall j :: 0 <= j < |shots| ==> shots[j] == Volley(x, y, width, powerUpLevel)[j];
      }
    }

    /** The pointer and touch handlers put the ship's centre under the pointer;
        the next update clamps it. */
    method DragTo(pointerX: real)
      modifies this`x
      ensures x == pointerX - width / 2.0
    {
      x := pointerX - width / 2.0;
    }

    /** Player.update: move by the held keys and clamp; count the cooldown down and fire
        when the fire input is held and the cooldown has run out; count the power-up down
        and drop back to level 0 when it expires. Returns the bullets fired. */
    method Update(left: bool, right: bool, fire: bool, dt: real, canvasWidth: real) returns (shots: seq<Bullet>)
      modifies this`x, this`shootCooldown, this`powerUpLevel, this`powerUpTimer
      ensures x == Clamp(Steer(old(x), left, right, speed * dt), canvasWidth, width)
      ensures 0.0 <= x && (width <= canvasWidth ==> x <= canvasWidth - width)
      ensures var fired := fire && old(shootCooldown) - dt <= 0.0;
              && shots == (if fired then Volley(x, y, width, old(powerUpLevel)) else [])
              && shootCooldown == (if fired then cooldownTime else old(shootCooldown) - dt)
      ensures powerUpTimer == if old(powerUpLevel) > 0 then old(powerUpTimer) - dt else old(powerUpTimer)
      ensures powerUpLevel == if old(powerUpLevel) > 0 && old(powerUpTimer) - dt <= 0.0 then 0 else old(powerUpLevel)
    {
      if left {
        x := x - speed * dt;
      }
      if right {
        x := x + speed * dt;
      }
      x := Clamp(x, canvasWidth, width);
      shootCooldown := shootCooldown - dt;
      shots := [];
      if fire && shootCooldown <= 0.0 {
        shots := Shoot();
        shootCooldown := cooldownTime;
      }
      if powerUpLevel > 0 {
        powerUpTimer := powerUpTimer - dt;
        if powerUpTimer <= 0.0 {
          powerUpLevel := 0;
        }
      }
    }
  }
}
