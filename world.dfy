/** The game world: every list and scalar the simulation step reads and writes, the
    per-frame step itself, the level setup, and the button handlers and frame gate
    that drive the game-state machine. */
module SpaceWar {
  import opened Entities
  import opened Lists
  import opened Levels
  import opened Formation
  import opened Combat
  import opened PlayerShip
  import opened Scoreboard

  datatype GameState = Menu | Playing | GameOver | LevelComplete

  const InitialEnemySpeed: real := 20.0
  const EnemyStepDown: real := 10.0
  const InitialFireInterval: int := 2000

  /** Math.floor(Math.random() * n): the index of the enemy that fires. */
  function ShooterIndex(roll: real, n: nat): (k: nat)
    requires 0.0 <= roll < 1.0 && n > 0
    ensures k < n
    ensures k as real <= roll * n as real < k as real + 1.0
  {
    var scaled := roll * n as real;
    assert scaled < n as real;
    scaled.Floor
  }

  /** For a distance d >= 0, comparing d with a reach is the same as comparing d * d
      with the reach squared when the reach is positive, and always false otherwise. */
  lemma SquaredDistanceAgrees(d: real, reach: real)
    requires d >= 0.0
    ensures d < reach <==> (0.0 < reach && d * d < reach * reach)
  {
    if 0.0 < reach {
      if d < reach {
        assert reach - d > 0.0 && reach + d > 0.0;
        assert (reach - d) * (reach + d) > 0.0;
        assert (reach - d) * (reach + d) == reach * reach - d * d;
      } else {
        assert d * d >= reach * d >= reach * reach;
      }
    }
  }

  /** keys[k] is truthy: the key was pressed and not released since; a key never
      pressed is undefined, hence not held. */
  predicate Held(keys: map<string, bool>, k: string)
  {
    k in keys && keys[k]
  }

  /** The ship steers left while ArrowLeft or a is held. */
  predicate SteersLeft(keys: map<string, bool>)
  {
    Held(keys, "ArrowLeft") || Held(keys, "a")
  }

  /** The ship steers right while ArrowRight or d is held. */
  predicate SteersRight(keys: map<string, bool>)
  {
    Held(keys, "ArrowRight") || Held(keys, "d")
  }

  /** The ship fires while the space bar or the on-screen fire button is held. */
  predicate Fires(keys: map<string, bool>, shooting: bool)
  {
    Held(keys, " ") || Held(keys, "Spacebar") || shooting
  }

  /** The state of the game that a frame reads and writes: the lists, the scalars, the
      ship's fields and the inputs. */
  datatype Scene = Scene(playerBullets: seq<Bullet>, enemyBullets: seq<Bullet>, enemies: seq<Enemy>,
                         powerUps: seq<PowerUp>, particles: seq<Particle>,
                         score: int, highScore: int, scoreboard: seq<int>, state: GameState,
                         currentLevel: int, enemyDirection: int, enemyShootTimer: real,
                         shipX: real, shipY: real, shootCooldown: real, powerUpLevel: nat, powerUpTimer: real,
                         keys: map<string, bool>, dragging: bool, shooting: bool)

  /** player.update on a scene: the ship steers by the held keys and is clamped, fires
      onto the player-bullet list when fire is held and the cooldown has run out, and
      counts its power-up down. */
  function Steered(s: Scene, dt: real, canvasWidth: real): Scene
  {
    var x := Clamp(Steer(s.shipX, SteersLeft(s.keys), SteersRight(s.keys), ShipSpeed * dt), canvasWidth, ShipWidth);
    var fired := Fires(s.keys, s.shooting) && s.shootCooldown - dt <= 0.0;
    s.(playerBullets := s.playerBullets + (if fired then Volley(x, s.shipY, ShipWidth, s.powerUpLevel) else []),
       shipX := x,
       shootCooldown := if fired then CooldownTime else s.shootCooldown - dt,
       powerUpLevel := if s.powerUpLevel > 0 && s.powerUpTimer - dt <= 0.0 then 0 else s.powerUpLevel,
       powerUpTimer := if s.powerUpLevel > 0 then s.powerUpTimer - dt else s.powerUpTimer)
  }

  /** The player bullets move and those that left through the top are dropped. */
  function PlayerBulletsFlown(s: Scene, dt: real): Scene
  {
    s.(playerBullets := Filter(Apply(s.playerBullets, BulletMover(dt)), KeepPlayerBullet()))
  }

  /** The enemy bullets move and those that left through the bottom are dropped. */
  function EnemyBulletsFlown(s: Scene, dt: real, canvasHeight: real): Scene
  {
    s.(enemyBullets := Filter(Apply(s.enemyBullets, BulletMover(dt)), KeepEnemyBullet(canvasHeight)))
  }

  /** The formation marches at the level's speed, turning and stepping down at a wall. */
  function Marched(s: Scene, dt: real, canvasWidth: real): Scene
  {
    var m := Step(s.enemies, MarchOffset(s.enemyDirection, EnemySpeed(s.currentLevel), dt), EnemyStepDown, canvasWidth);
    s.(enemies := m.enemies, enemyDirection := if m.reversed then -s.enemyDirection else s.enemyDirection)
  }

  /** The fire timer counts down by dt seconds; once it has run out and enemies are
      left, the enemy the roll picks fires from its bottom centre and the timer restarts
      at the level's interval. */
  function Fired(s: Scene, dt: real, roll: real): Scene
    requires 0.0 <= roll < 1.0
  {
    var t := s.enemyShootTimer - dt * 1000.0;
    if t <= 0.0 && |s.enemies| > 0 then
      var e := s.enemies[ShooterIndex(roll, |s.enemies|)];
      s.(enemyBullets := s.enemyBullets + [Bullet(e.x + e.width / 2.0, e.y + e.height, EnemyBulletSpeed)],
         enemyShootTimer := FireInterval(s.currentLevel) as real)
    else s.(enemyShootTimer := t)
  }

  /** The movement phases of a frame, in the game's order. */
  function Moved(s: Scene, dt: real, shooterRoll: real, canvasWidth: real, canvasHeight: real): Scene
    requires 0.0 <= shooterRoll < 1.0
  {
    var flown := EnemyBulletsFlown(PlayerBulletsFlown(Steered(s, dt, canvasWidth), dt), dt, canvasHeight);
    Fired(Marched(flown, dt, canvasWidth), dt, shooterRoll)
  }

  /** The player-bullet/enemy pass with its rewards: the kills leave the formation, score
      10 each, raise the high score when it is passed, and leave sparks and drops. */
  function Struck(s: Scene, dropRolls: seq<real>): Scene
  {
    var r := ResolveHits(s.playerBullets, s.enemies);
    var score := s.score + KillAward * |r.kills|;
    s.(playerBullets := r.bullets, enemies := r.enemies, score := score,
       highScore := if |r.kills| > 0 && score > s.highScore then score else s.highScore,
       particles := s.particles + Debris(r.kills), powerUps := s.powerUps + Drops(r.kills, dropRolls))
  }

  /** The enemy-bullet/ship pass: every bullet inside the ship is removed, ends the game
      and records the score. */
  function ShipStruck(s: Scene): Scene
  {
    var survivors := Filter(s.enemyBullets, MissesShip(s.shipX, s.shipY, ShipWidth, ShipHeight));
    var hits := |s.enemyBullets| - |survivors|;
    s.(enemyBullets := survivors, state := if hits > 0 then GameOver else s.state,
       scoreboard := RecordTimes(s.scoreboard, s.score, hits))
  }

  /** The collision phases of a frame, in the game's order. */
  function Collided(s: Scene, dropRolls: seq<real>): Scene
  {
    ShipStruck(Struck(s, dropRolls))
  }

  /** The corrected pickup pass: power-ups fall, and each one the ship reaches is removed
      and raises the power-up level by one with a full timer. */
  function Collected(s: Scene, dt: real): Scene
  {
    var kept := Filter(Apply(s.powerUps, PowerUpMover(dt)), MissedBy(s.shipX, s.shipY, ShipWidth, ShipHeight));
    s.(powerUps := kept, powerUpLevel := s.powerUpLevel + (|s.powerUps| - |kept|),
       powerUpTimer := if |kept| < |s.powerUps| then PowerUpDuration else s.powerUpTimer)
  }

  /** The particles age and the spent ones are dropped. */
  function Aged(s: Scene, dt: real): Scene
  {
    s.(particles := Filter(Apply(s.particles, ParticleDecayer(dt)), KeepParticle()))
  }

  /** The outcome: every enemy at the ship's line ends the game and records the score,
      and an empty formation completes the level. */
  function Decided(s: Scene): Scene
  {
    var reached := ReachedCount(s.enemies, s.shipY);
    s.(scoreboard := RecordTimes(s.scoreboard, s.score, reached),
       state := if |s.enemies| == 0 then LevelComplete else if reached > 0 then GameOver else s.state)
  }

  /** The closing phases of a frame, in the game's order. */
  function Settled(s: Scene, dt: real): Scene
  {
    Decided(Aged(Collected(s, dt), dt))
  }

  /** update(dt) on a scene: the three groups of phases in the game's order. */
  function Advance(s: Scene, dt: real, shooterRoll: real, dropRolls: seq<real>, canvasWidth: real, canvasHeight: real): Scene
    requires 0.0 <= shooterRoll < 1.0
  {
    Settled(Collided(Moved(s, dt, shooterRoll, canvasWidth, canvasHeight), dropRolls), dt)
  }

  /** The bullet's centre is strictly inside the ship's rectangle. */
  predicate HitsShip(b: Bullet, s: Scene)
  {
    StrictlyInside(b.x, b.y, s.shipX, s.shipY, ShipWidth, ShipHeight)
  }

  /** A frame trades enemies for points one for one: the march keeps every enemy, each
      one shot down leaves the formation and scores 10, and nothing else moves the
      score. */
  lemma AdvanceTradesEnemiesForPoints(s: Scene, dt: real, shooterRoll: real, dropRolls: seq<real>,
                                      canvasWidth: real, canvasHeight: real)
    requires 0.0 <= shooterRoll < 1.0
    ensures var t := Advance(s, dt, shooterRoll, dropRolls, canvasWidth, canvasHeight);
            KillAward * |t.enemies| + t.score == KillAward * |s.enemies| + s.score
  {
    var f := EnemyBulletsFlown(PlayerBulletsFlown(Steered(s, dt, canvasWidth), dt), dt, canvasHeight);
    StepMeaning(f.enemies, MarchOffset(f.enemyDirection, EnemySpeed(f.currentLevel), dt), EnemyStepDown, canvasWidth);
    var m := Fired(Marched(f, dt, canvasWidth), dt, shooterRoll);
    assert |m.enemies| == |s.enemies| && m.score == s.score;
    var r := ResolveHits(m.playerBullets, m.enemies);
    var c := Collided(m, dropRolls);
    assert c.enemies == r.enemies && c.score == m.score + KillAward * |r.kills|;
  }

  /** From a scene whose score is within its high score, as the world keeps it: after
      a frame the high score is the larger of the new score and the old high score, the
      score never falls, and it stays within the high score. */
  lemma AdvanceRaisesHighScore(s: Scene, dt: real, shooterRoll: real, dropRolls: seq<real>,
                               canvasWidth: real, canvasHeight: real)
    requires 0.0 <= shooterRoll < 1.0 && s.score <= s.highScore
    ensures var t := Advance(s, dt, shooterRoll, dropRolls, canvasWidth, canvasHeight);
            && t.highScore == (if t.score > s.highScore then t.score else s.highScore)
            && t.score >= s.score
            && t.score <= t.highScore
  {
    var m := Moved(s, dt, shooterRoll, canvasWidth, canvasHeight);
    assert m.score == s.score && m.highScore == s.highScore;
    var c := Collided(m, dropRolls);
    var r := ResolveHits(m.playerBullets, m.enemies);
    assert c.score == m.score + KillAward * |r.kills|;
    assert c.highScore == (if |r.kills| > 0 && c.score > m.highScore then c.score else m.highScore);
  }

  /** After a frame the ship is on the playfield: never left of 0, and never past the
      right wall when it fits. */
  lemma AdvanceKeepsShipOnField(s: Scene, dt: real, shooterRoll: real, dropRolls: seq<real>,
                                canvasWidth: real, canvasHeight: real)
    requires 0.0 <= shooterRoll < 1.0
    ensures var t := Advance(s, dt, shooterRoll, dropRolls, canvasWidth, canvasHeight);
            0.0 <= t.shipX && (ShipWidth <= canvasWidth ==> t.shipX <= canvasWidth - ShipWidth)
  {
  }

  /** How a frame ends: with the level complete when no enemy is left; otherwise in a
      game over when an enemy has reached the ship's line or an enemy bullet, after it
      moved, is inside the ship, and else, with neither cause, in the state the frame
      started in. From play, the level is complete exactly when no enemy is left. */
  lemma AdvanceOutcome(s: Scene, dt: real, shooterRoll: real, dropRolls: seq<real>,
                       canvasWidth: real, canvasHeight: real)
    requires 0.0 <= shooterRoll < 1.0
    ensures var m := Moved(s, dt, shooterRoll, canvasWidth, canvasHeight);
            var t := Advance(s, dt, shooterRoll, dropRolls, canvasWidth, canvasHeight);
            && (|t.enemies| == 0 ==> t.state == LevelComplete)
            && (|t.enemies| > 0 && ReachedCount(t.enemies, t.shipY) > 0 ==> t.state == GameOver)
            && (|t.enemies| > 0 && (exists i :: 0 <= i < |m.enemyBullets| && HitsShip(m.enemyBullets[i], m))
                ==> t.state == GameOver)
            && (|t.enemies| > 0 && ReachedCount(t.enemies, t.shipY) == 0
                && (forall i :: 0 <= i < |m.enemyBullets| ==> !HitsShip(m.enemyBullets[i], m))
                ==> t.state == s.state)
            && (|t.enemies| > 0 ==> t.state == s.state || t.state == GameOver)
            && (s.state == Playing ==> (|t.enemies| == 0 <==> t.state == LevelComplete))
  {
    var m := Moved(s, dt, shooterRoll, canvasWidth, canvasHeight);
    var keep := MissesShip(m.shipX, m.shipY, ShipWidth, ShipHeight);
    if i :| 0 <= i < |m.enemyBullets| && HitsShip(m.enemyBullets[i], m) {
      FilterDrops(m.enemyBullets, keep, i);
    } else {
      FilterKeepsAll(m.enemyBullets, keep);
    }
  }

  /** A frame keeps the scoreboard a sorted top ten: at most ten entries when it had at
      most ten, and sorted when it was sorted. */
  lemma AdvanceKeepsBoard(s: Scene, dt: real, shooterRoll: real, dropRolls: seq<real>,
                          canvasWidth: real, canvasHeight: real)
    requires 0.0 <= shooterRoll < 1.0
    ensures var t := Advance(s, dt, shooterRoll, dropRolls, canvasWidth, canvasHeight);
            && (|s.scoreboard| <= MaxEntries ==> |t.scoreboard| <= MaxEntries)
            && (SortedDesc(s.scoreboard) ==> SortedDesc(t.scoreboard))
  {
    var m := Moved(s, dt, shooterRoll, canvasWidth, canvasHeight);
    var c := Collided(m, dropRolls);
    RecordTimesKeepsBoard(m.scoreboard, c.score, |m.enemyBullets| - |c.enemyBullets|);
    RecordTimesKeepsBoard(c.scoreboard, c.score, ReachedCount(c.enemies, c.shipY));
  }

  /** The enemy's lower edge has reached the ship's top. */
  predicate Reached(e: Enemy, lineY: real)
  {
    e.y + e.height >= lineY
  }

  /** How many enemies have reached the ship's line. */
  function ReachedCount(es: seq<Enemy>, lineY: real): (n: nat)
    ensures n <= |es|
    ensures n > 0 <==> exists i :: 0 <= i < |es| && Reached(es[i], lineY)
  {
    if es == [] then 0
    else
      var k := |es| - 1;
      assert forall i :: 0 <= i < k ==> es[..k][i] == es[i];
      ReachedCount(es[..k], lineY) + (if Reached(es[k], lineY) then 1 else 0)
  }

  /** The loop of the end-of-step checks: every enemy whose lower edge has reached the
      ship's line records the final score on the scoreboard once. */
  method Reckon(es: seq<Enemy>, lineY: real, board0: seq<int>, final: int) returns (board: seq<int>, reached: nat)
    ensures reached == ReachedCount(es, lineY)
    ensures board == RecordTimes(board0, final, reached)
  {
    board, reached := board0, 0;
    var i := 0;
    while i < |es|
      invariant 0 <= i <= |es|
      invariant reached == ReachedCount(es[..i], lineY)
      invariant board == RecordTimes(board0, final, reached)
    {
      assert es[..i + 1][..i] == es[..i];
      if es[i].y + es[i].height >= lineY {
        assert RecordTimes(board0, final, reached + 1) == UpdateLocalScoreboard(board, final);
        board := UpdateLocalScoreboard(board, final);
        reached := reached + 1;
      }
      i := i + 1;
    }
    assert es[..|es|] == es;
  }

  /** The loop of the enemy-bullet/ship pass: from the last bullet back, a bullet
      strictly inside the ship's rectangle is spliced out and the game-over screen
      records the final score on the scoreboard, once per such bullet. */
  method ShipHits(s: seq<Bullet>, px: real, py: real, pw: real, ph: real, board0: seq<int>, final: int)
    returns (kept: seq<Bullet>, board: seq<int>, hits: nat)
    ensures kept == Filter(s, MissesShip(px, py, pw, ph))
    ensures hits == |s| - |kept|
    ensures board == RecordTimes(board0, final, hits)
  {
    var keep := MissesShip(px, py, pw, ph);
    kept, board, hits := s, board0, 0;
    var i := |kept| - 1;
    while i >= 0
      invariant -1 <= i < |s|
      invariant kept == s[..i + 1] + Filter(s[i + 1..], keep)
      invariant hits == |s| - |kept|
      invariant board == RecordTimes(board0, final, hits)
    {
      FilterStep(s, i, kept, keep);
      var bullet := kept[i];
      if !keep(bullet) {
        kept := kept[..i] + kept[i + 1..];
        assert RecordTimes(board0, final, hits + 1) == UpdateLocalScoreboard(board, final);
        board := UpdateLocalScoreboard(board, final);
        hits := hits + 1;
      }
      i := i - 1;
    }
    assert s[0..] == s;
  }

  /** The loop of the power-up pass: from the last one back, each power-up falls; one
      within reach of the ship is collected (one more power-up level, the timer set to
      five seconds) and spliced out. */
  method Pickups(s: seq<PowerUp>, dt: real, px: real, py: real, pw: real, ph: real, level0: nat, timer0: real)
    returns (kept: seq<PowerUp>, level: nat, timer: real)
    ensures kept == Filter(Apply(s, PowerUpMover(dt)), MissedBy(px, py, pw, ph))
    ensures level == level0 + (|s| - |kept|)
    ensures timer == if |kept| < |s| then PowerUpDuration else timer0
  {
    var missed := MissedBy(px, py, pw, ph);
    kept, level, timer := s, level0, timer0;
    var i := |kept| - 1;
    while i >= 0
      invariant -1 <= i < |s|
      invariant kept == s[..i + 1] + Filter(Apply(s[i + 1..], PowerUpMover(dt)), missed)
      invariant level == level0 + (|s| - |kept|)
      invariant timer == if |kept| < |s| then PowerUpDuration else timer0
    {
      PruneStep(s, i, kept, PowerUpMover(dt), missed);
      var p := MovePowerUp(kept[i], dt);
      kept := kept[i := p];
      if Collects(p, px, py, pw, ph) {
        if p.kind == Double {
          level := level + 1;
          timer := PowerUpDuration;
        }
        kept := kept[..i] + kept[i + 1..];
      }
      i := i - 1;
    }
    assert s[0..] == s;
  }

  /** The power-ups and the ship's power-up state, as the two pickup loops of a frame
      leave them when run as written. */
  datatype Haul = Haul(powerUps: seq<PowerUp>, level: nat, timer: real, poweredUp: bool)

  /** The power-up pass of update as written: power-ups fall and those within reach are
      spliced out, but a catch only sets the timer and a poweredUp flag that nothing
      reads; the power-up level is left alone. */
  function WrittenUpdatePass(h: Haul, dt: real, px: real, py: real, pw: real, ph: real): (r: Haul)
    ensures r.level == h.level && |r.powerUps| <= |h.powerUps|
    ensures r.poweredUp <==> h.poweredUp || |r.powerUps| < |h.powerUps|
  {
    var kept := Filter(Apply(h.powerUps, PowerUpMover(dt)), MissedBy(px, py, pw, ph));
    if |kept| < |h.powerUps| then Haul(kept, h.level, PowerUpDuration, true) else h.(powerUps := kept)
  }

  /** The copy of the pickup loop inside Particle.update as written, run once per live
      spark: every round the power-ups fall again, and each catch adds a power-up level
      and sets the timer. */
  function WrittenSparkRounds(h: Haul, sparks: nat, dt: real, px: real, py: real, pw: real, ph: real): (r: Haul)
    ensures |r.powerUps| <= |h.powerUps|
    ensures r.level == h.level + (|h.powerUps| - |r.powerUps|)
    ensures r.poweredUp == h.poweredUp
    decreases sparks
  {
    if sparks == 0 then h
    else
      var kept := Filter(Apply(h.powerUps, PowerUpMover(dt)), MissedBy(px, py, pw, ph));
      var timer := if |kept| < |h.powerUps| then PowerUpDuration else h.timer;
      WrittenSparkRounds(Haul(kept, h.level + (|h.powerUps| - |kept|), timer, h.poweredUp), sparks - 1, dt, px, py, pw, ph)
  }

  /** As written, a power-up caught while no spark is alive is spliced out and sets the
      timer, yet the shot stays single; the corrected pass, the one the world runs,
      catches the same power-up and so raises the level by one. */
  lemma WrittenCatchGivesNoUpgrade()
    ensures var p := PowerUp(400.0, 540.0, PowerUpRadius, PowerUpFallSpeed, Double);
            var w := WrittenSparkRounds(WrittenUpdatePass(Haul([p], 0, 0.0, false), 0.0, 380.0, 530.0, ShipWidth, ShipHeight),
                                        0, 0.0, 380.0, 530.0, ShipWidth, ShipHeight);
            && w.powerUps == [] && w.level == 0 && w.timer == PowerUpDuration && w.poweredUp
            && Filter(Apply([p], PowerUpMover(0.0)), MissedBy(380.0, 530.0, ShipWidth, ShipHeight)) == []
  {
    var p := PowerUp(400.0, 540.0, PowerUpRadius, PowerUpFallSpeed, Double);
    assert Apply([p], PowerUpMover(0.0)) == [p];
    assert Collects(p, 380.0, 530.0, ShipWidth, ShipHeight);
    assert Filter([p], MissedBy(380.0, 530.0, ShipWidth, ShipHeight)) == [];
  }

  /** As written, a power-up out of the ship's reach falls once in the power-up pass and
      once more for every live spark: with one spark it falls twice as far in a frame. */
  lemma WrittenPowerUpFallsPerSpark()
    ensures var p := PowerUp(100.0, 100.0, PowerUpRadius, PowerUpFallSpeed, Double);
            var w := WrittenSparkRounds(WrittenUpdatePass(Haul([p], 0, 0.0, false), 1.0, 380.0, 530.0, ShipWidth, ShipHeight),
                                        1, 1.0, 380.0, 530.0, ShipWidth, ShipHeight);
            w.powerUps == [p.(y := 110.0)]
  {
    var p := PowerUp(100.0, 100.0, PowerUpRadius, PowerUpFallSpeed, Double);
    var q := p.(y := 105.0);
    var missed := MissedBy(380.0, 530.0, ShipWidth, ShipHeight);
    assert Apply([p], PowerUpMover(1.0)) == [q];
    assert !Collects(q, 380.0, 530.0, ShipWidth, ShipHeight);
    assert Filter([q], missed) == [q];
    assert Apply([q], PowerUpMover(1.0)) == [p.(y := 110.0)];
    assert !Collects(p.(y := 110.0), 380.0, 530.0, ShipWidth, ShipHeight);
    assert Filter([p.(y := 110.0)], missed) == [p.(y := 110.0)];
  }

  class World {
    const canvasWidth: real
    const canvasHeight: real
    const player: Player
    var playerBullets: seq<Bullet>
    var enemyBullets: seq<Bullet>
    var enemies: seq<Enemy>
    var powerUps: seq<PowerUp>
    var particles: seq<Particle>
    var score: int
    var highScore: int
    /** The persisted top-ten list of final scores. */
    var scoreboard: seq<int>
    var state: GameState
    var currentLevel: int
    var enemyDirection: int
    var enemySpeed: real
    var enemyMoveDown: real
    var enemyFireInterval: int
    /** Milliseconds until the next enemy shot. */
    var enemyShootTimer: real
    /** A mouse button or a finger is down on the canvas. */
    var dragging: bool
    /** The keys map: a key is held from its keydown (recorded only while playing) to
        its keyup. */
    var keys: map<string, bool>
    /** The on-screen fire button is held. */
    var shooting: bool
    /** The timestamp of the previous animation frame, 0 before the first. */
    var lastTime: real

    /** Levels count from 1, and the march speed, step and fire interval are those of
        the current level. */
    ghost predicate Tuned()
      reads this`currentLevel, this`enemySpeed, this`enemyMoveDown, this`enemyFireInterval
    {
      && currentLevel >= 1
      && enemySpeed == EnemySpeed(currentLevel) && enemyMoveDown == EnemyStepDown
      && enemyFireInterval == FireInterval(currentLevel)
    }

    /** The score never passes the high score, the formation moves right or left, and
        the level's parameters are tuned. */
    ghost predicate Valid()
      reads this`score, this`highScore, this`enemyDirection
      reads this`currentLevel, this`enemySpeed, this`enemyMoveDown, this`enemyFireInterval
    {
      && 0 <= score <= highScore
      && (enemyDirection == 1 || enemyDirection == -1)
      && Tuned()
    }

    /** The page at load: the menu is up, the high score and the scoreboard come from
        storage, and the ship is centred above the bottom margin, ready to fire, without
        a power-up. */
    constructor (width: real, height: real, storedHighScore: nat, storedScores: seq<int>)
      ensures Valid() && fresh(player)
      ensures canvasWidth == width && canvasHeight == height
      ensures state == Menu && score == 0 && highScore == storedHighScore && scoreboard == storedScores
      ensures currentLevel == 1 && enemyDirection == 1
      ensures enemySpeed == InitialEnemySpeed && enemyMoveDown == EnemyStepDown
      ensures enemyFireInterval == InitialFireInterval && enemyShootTimer == InitialFireInterval as real
      ensures playerBullets == [] && enemyBullets == [] && enemies == [] && powerUps == [] && particles == []
      ensures !dragging && lastTime == 0.0 && keys == map[] && !shooting
      ensures player.x == width / 2.0 - ShipWidth / 2.0 && player.y == height - ShipHeight - BottomMargin
      ensures player.shootCooldown == 0.0 && player.powerUpLevel == 0 && player.powerUpTimer == 0.0
    {
      canvasWidth := width;
      canvasHeight := height;
      player := new Player(width, height);
      score := 0;
      highScore := storedHighScore;
      scoreboard := storedScores;
      state := Menu;
      currentLevel := 1;
      enemyDirection := 1;
      enemySpeed := InitialEnemySpeed;
      enemyMoveDown := EnemyStepDown;
      enemyFireInterval := InitialFireInterval;
      enemyShootTimer := InitialFireInterval as real;
      playerBullets, enemyBullets, enemies, powerUps, particles := [], [], [], [], [];
      dragging, lastTime, keys, shooting := false, 0.0, map[], false;
    }

    /** player.update on the world: the held keys and the fire button steer and fire
        the ship, and its shots join the player-bullet list. The ship ends on the
        playfield. */
    method SteerShip(dt: real)
      requires Valid()
      modifies this`playerBullets, player`x, player`shootCooldown, player`powerUpLevel, player`powerUpTimer
      ensures Valid()
      ensures CurrentScene() == Steered(old(CurrentScene()), dt, canvasWidth)
      ensures 0.0 <= player.x && (player.width <= canvasWidth ==> player.x <= canvasWidth - player.width)
    {
      ghost var s0 := CurrentScene();
      var shots := player.Update(SteersLeft(keys), SteersRight(keys), Fires(keys, shooting), dt, canvasWidth);
      playerBullets := playerBullets + shots;
      assert CurrentScene() == s0.(playerBullets := playerBullets, shipX := player.x, shootCooldown := player.shootCooldown,
                                   powerUpLevel := player.powerUpLevel, powerUpTimer := player.powerUpTimer);
    }

    /** Move every player bullet and drop those that left through the top. */
    method AdvancePlayerBullets(dt: real)
      requires Valid()
      modifies this`playerBullets
      ensures Valid()
      ensures playerBullets == Filter(Apply(old(playerBullets), BulletMover(dt)), KeepPlayerBullet())
      ensures CurrentScene() == PlayerBulletsFlown(old(CurrentScene()), dt)
    {
      playerBullets := PruneBackward(playerBullets, BulletMover(dt), KeepPlayerBullet());
    }

    /** Move every enemy bullet and drop those that left through the bottom. */
    method AdvanceEnemyBullets(dt: real)
      requires Valid()
      modifies this`enemyBullets
      ensures Valid()
      ensures enemyBullets == Filter(Apply(old(enemyBullets), BulletMover(dt)), KeepEnemyBullet(canvasHeight))
      ensures CurrentScene() == EnemyBulletsFlown(old(CurrentScene()), dt, canvasHeight)
    {
      enemyBullets := PruneBackward(enemyBullets, BulletMover(dt), KeepEnemyBullet(canvasHeight));
    }

    /** Age every particle and drop the spent ones. */
    method AdvanceParticles(dt: real)
      requires Valid()
      modifies this`particles
      ensures Valid()
      ensures particles == Filter(Apply(old(particles), ParticleDecayer(dt)), KeepParticle())
      ensures CurrentScene() == Aged(old(CurrentScene()), dt)
    {
      particles := PruneBackward(particles, ParticleDecayer(dt), KeepParticle());
    }

    /** Shift the formation by direction * speed * dt; if any enemy is then at a wall,
        flip the direction and step every enemy down. */
    method MarchFormation(dt: real)
      requires Valid()
      modifies this`enemies, this`enemyDirection
      ensures Valid()
      ensures var m := Step(old(enemies), MarchOffset(old(enemyDirection), enemySpeed, dt), enemyMoveDown, canvasWidth);
              && enemies == m.enemies
              && |enemies| == |old(enemies)|
              && enemyDirection == (if m.reversed then -old(enemyDirection) else old(enemyDirection))
      ensures CurrentScene() == Marched(old(CurrentScene()), dt, canvasWidth)
    {
      var moveX := MarchOffset(enemyDirection, enemySpeed, dt);
      ghost var m := Step(enemies, moveX, enemyMoveDown, canvasWidth);
      var shifted, shouldReverse := ShiftAll(enemies, moveX, canvasWidth);
      assert shouldReverse == m.reversed;
      if shouldReverse {
        enemyDirection := -enemyDirection;
        enemies := LowerAll(shifted, enemyMoveDown);
      } else {
        enemies := shifted;
      }
      assert enemies == m.enemies;
    }

    /** Count the fire timer down by dt seconds; when it has run out and enemies are
        left, the enemy picked by the roll fires from its bottom centre and the timer
        restarts. */
    method EnemyFire(dt: real, shooterRoll: real)
      requires Valid() && 0.0 <= shooterRoll < 1.0
      modifies this`enemyBullets, this`enemyShootTimer
      ensures Valid()
      ensures var t := old(enemyShootTimer) - dt * 1000.0;
              if t <= 0.0 && |enemies| > 0 then
                var s := enemies[ShooterIndex(shooterRoll, |enemies|)];
                && enemyBullets == old(enemyBullets) + [Bullet(s.x + s.width / 2.0, s.y + s.height, EnemyBulletSpeed)]
                && enemyShootTimer == enemyFireInterval as real
              else
                enemyBullets == old(enemyBullets) && enemyShootTimer == t
      ensures CurrentScene() == Fired(old(CurrentScene()), dt, shooterRoll)
    {
      enemyShootTimer := enemyShootTimer - dt * 1000.0;
      if enemyShootTimer <= 0.0 && |enemies| > 0 {
        var shooter := enemies[ShooterIndex(shooterRoll, |enemies|)];
        enemyBullets := enemyBullets + [Bullet(shooter.x + shooter.width / 2.0, shooter.y + shooter.height, EnemyBulletSpeed)];
        enemyShootTimer := enemyFireInterval as real;
      }
    }

    /** The player-bullet/enemy pass: from the last bullet back, a bullet inside an enemy
        removes itself and the last such enemy, scores 10, raises the high score when it
        is passed, leaves 20 sparks and, on a roll below 0.2, a power-up. */
    method ResolvePlayerHits(dropRolls: seq<real>)
      requires Valid()
      modifies this`playerBullets, this`enemies, this`score, this`highScore, this`particles, this`powerUps
      ensures Valid()
      ensures var r := ResolveHits(old(playerBullets), old(enemies));
              && playerBullets == r.bullets && enemies == r.enemies
              && score == old(score) + KillAward * |r.kills|
              && highScore == (if score > old(highScore) then score else old(highScore))
              && particles == old(particles) + Debris(r.kills)
              && powerUps == old(powerUps) + Drops(r.kills, dropRolls)
      ensures CurrentScene() == Struck(old(CurrentScene()), dropRolls)
    {
      ghost var s0 := CurrentScene();
      var bullets, formation, points, best, sparks, drops :=
        ShootDown(playerBullets, enemies, dropRolls, score, highScore, particles, powerUps);
      assert Struck(s0, dropRolls) == s0.(playerBullets := bullets, enemies := formation, score := points,
                                          highScore := best, particles := sparks, powerUps := drops);
      RecordHits(bullets, formation);
      RecordDebris(sparks, drops);
      RecordScore(points, best);
    }

    /** Stores the bullets and the formation the player-bullet/enemy pass leaves. */
    method RecordHits(bullets: seq<Bullet>, formation: seq<Enemy>)
      requires Valid()
      modifies this`playerBullets, this`enemies
      ensures Valid()
      ensures CurrentScene() == old(CurrentScene()).(playerBullets := bullets, enemies := formation)
    {
      playerBullets, enemies := bullets, formation;
    }

    /** Stores the sparks and the power-ups the player-bullet/enemy pass leaves. */
    method RecordDebris(sparks: seq<Particle>, drops: seq<PowerUp>)
      requires Valid()
      modifies this`particles, this`powerUps
      ensures Valid()
      ensures CurrentScene() == old(CurrentScene()).(particles := sparks, powerUps := drops)
    {
      particles, powerUps := sparks, drops;
    }

    /** Stores the score and high score the player-bullet/enemy pass leaves. */
    method RecordScore(points: int, best: int)
      requires Valid() && 0 <= points <= best
      modifies this`score, this`highScore
      ensures Valid()
      ensures CurrentScene() == old(CurrentScene()).(score := points, highScore := best)
    {
      score, highScore := points, best;
    }

    /** The enemy-bullet/ship pass, ShipHits, on the world's lists; the game is
        over as soon as one bullet hits. */
    method ResolveEnemyHits()
      requires Valid()
      modifies this`enemyBullets, this`state, this`scoreboard
      ensures Valid()
      ensures enemyBullets == Filter(old(enemyBullets), MissesShip(player.x, player.y, player.width, player.height))
      ensures state == (if |enemyBullets| < |old(enemyBullets)| then GameOver else old(state))
      ensures scoreboard == RecordTimes(old(scoreboard), score, |old(enemyBullets)| - |enemyBullets|)
      ensures CurrentScene() == ShipStruck(old(CurrentScene()))
    {
      var kept, board, hits := ShipHits(enemyBullets, player.x, player.y, player.width, player.height, scoreboard, score);
      enemyBullets := kept;
      SetOutcome(if hits > 0 then GameOver else state, board);
    }

    /** The power-up pass, Pickups, on the world's list and the ship. */
    method CollectPowerUps(dt: real)
      requires Valid()
      modifies this`powerUps, player`powerUpLevel, player`powerUpTimer
      ensures Valid()
      ensures powerUps == Filter(Apply(old(powerUps), PowerUpMover(dt)), MissedBy(player.x, player.y, player.width, player.height))
      ensures player.powerUpLevel == old(player.powerUpLevel) + (|old(powerUps)| - |powerUps|)
      ensures player.powerUpTimer == (if |powerUps| < |old(powerUps)| then PowerUpDuration else old(player.powerUpTimer))
      ensures CurrentScene() == Collected(old(CurrentScene()), dt)
    {
      var kept, level, timer := Pickups(powerUps, dt, player.x, player.y, player.width, player.height,
                                        player.powerUpLevel, player.powerUpTimer);
      ghost var s0 := CurrentScene();
      assert Collected(s0, dt) == s0.(powerUps := kept, powerUpLevel := level, powerUpTimer := timer);
      powerUps := kept;
      player.powerUpLevel, player.powerUpTimer := level, timer;
      assert CurrentScene() == s0.(powerUps := powerUps, powerUpLevel := level, powerUpTimer := timer);
    }

    /** The end-of-step checks: every enemy whose lower edge has reached the ship's top
        ends the game and records the score once; then an empty formation completes the
        level, overriding a game over set earlier in the step. */
    method CheckOutcome()
      requires Valid()
      modifies this`state, this`scoreboard
      ensures Valid()
      ensures scoreboard == RecordTimes(old(scoreboard), score, ReachedCount(enemies, player.y))
      ensures state == (if |enemies| == 0 then LevelComplete
                        else if ReachedCount(enemies, player.y) > 0 then GameOver else old(state))
      ensures CurrentScene() == Decided(old(CurrentScene()))
    {
      var board, reached := Reckon(enemies, player.y, scoreboard, score);
      var st := if reached > 0 then GameOver else state;
      if |enemies| == 0 {
        st := LevelComplete;
      }
      SetOutcome(st, board);
    }

    /** Stores the game state and the scoreboard a check leaves. */
    method SetOutcome(st: GameState, board: seq<int>)
      requires Valid()
      modifies this`state, this`scoreboard
      ensures Valid()
      ensures state == st && scoreboard == board
      ensures CurrentScene() == old(CurrentScene()).(state := st, scoreboard := board)
    {
      state, scoreboard := st, board;
    }

    /** The movement phases of update, Moved on the world: the ship moves by the held
        keys and may fire, both bullet lists move and drop what left the playfield, the
        formation marches, and an enemy may fire. The ship ends on the playfield and no
        enemy is gained or lost. */
    method MovePhase(dt: real, shooterRoll: real)
      requires Valid() && 0.0 <= shooterRoll < 1.0
      modifies this`playerBullets, this`enemyBullets, this`enemies, this`enemyDirection, this`enemyShootTimer
      modifies player`x, player`shootCooldown, player`powerUpLevel, player`powerUpTimer
      ensures Valid()
      ensures CurrentScene() == Moved(old(CurrentScene()), dt, shooterRoll, canvasWidth, canvasHeight)
      ensures |enemies| == |old(enemies)|
      ensures 0.0 <= player.x && (player.width <= canvasWidth ==> player.x <= canvasWidth - player.width)
    {
      SteerShip(dt);
      AdvancePlayerBullets(dt);
      AdvanceEnemyBullets(dt);
      MarchFormation(dt);
      EnemyFire(dt, shooterRoll);
    }

    /** The collision phases of update, Collided on the world: player bullets against the
        formation, then enemy bullets against the ship. Every kill takes one enemy and
        gives 10 points, the high score follows the score, and the scoreboard stays a
        sorted top ten. */
    method CollidePhase(dropRolls: seq<real>)
      requires Valid()
      modifies this`playerBullets, this`enemies, this`score, this`highScore, this`particles, this`powerUps
      modifies this`enemyBullets, this`state, this`scoreboard
      ensures Valid()
      ensures CurrentScene() == Collided(old(CurrentScene()), dropRolls)
      ensures KillAward * |enemies| + score == KillAward * |old(enemies)| + old(score)
      ensures |old(scoreboard)| <= MaxEntries ==> |scoreboard| <= MaxEntries
      ensures SortedDesc(old(scoreboard)) ==> SortedDesc(scoreboard)
    {
      ResolvePlayerHits(dropRolls);
      ghost var board, incoming := scoreboard, |enemyBullets|;
      ResolveEnemyHits();
      RecordTimesKeepsBoard(board, score, incoming - |enemyBullets|);
    }

    /** The closing phases of update, Settled on the world: power-ups fall and are
        collected, particles age, and the outcome is decided. The scoreboard stays a
        sorted top ten. */
    method SettlePhase(dt: real)
      requires Valid()
      modifies this`powerUps, player`powerUpLevel, player`powerUpTimer, this`particles, this`state, this`scoreboard
      ensures Valid()
      ensures CurrentScene() == Settled(old(CurrentScene()), dt)
      ensures |old(scoreboard)| <= MaxEntries ==> |scoreboard| <= MaxEntries
      ensures SortedDesc(old(scoreboard)) ==> SortedDesc(scoreboard)
    {
      CollectPowerUps(dt);
      AdvanceParticles(dt);
      ghost var board := scoreboard;
      CheckOutcome();
      RecordTimesKeepsBoard(board, score, ReachedCount(enemies, player.y));
    }

    /** update(dt): one simulation step, Advance on the world. Kills trade enemies for
        points one for one, the high score follows the score, the ship stays on the
        playfield, the scoreboard stays a sorted top ten, an enemy at the ship's line
        ends the game, and the step ends with the level complete when no enemy
        is left, and otherwise in the state it started in or in a game over. */
    method Update(dt: real, shooterRoll: real, dropRolls: seq<real>)
      requires Valid() && 0.0 <= shooterRoll < 1.0
      modifies this`playerBullets, this`enemyBullets, this`enemies, this`enemyDirection, this`enemyShootTimer
      modifies this`score, this`highScore, this`particles, this`powerUps, this`state, this`scoreboard
      modifies player`x, player`shootCooldown, player`powerUpLevel, player`powerUpTimer
      ensures Valid()
      ensures CurrentScene() == Advance(old(CurrentScene()), dt, shooterRoll, dropRolls, canvasWidth, canvasHeight)
      ensures KillAward * |enemies| + score == KillAward * |old(enemies)| + old(score)
      ensures highScore == (if score > old(highScore) then score else old(highScore))
      ensures 0.0 <= player.x && (player.width <= canvasWidth ==> player.x <= canvasWidth - player.width)
      ensures |enemies| == 0 ==> state == LevelComplete
      ensures |enemies| > 0 && ReachedCount(enemies, player.y) > 0 ==> state == GameOver
      ensures |enemies| > 0 ==> state == old(state) || state == GameOver
      ensures |old(scoreboard)| <= MaxEntries ==> |scoreboard| <= MaxEntries
      ensures SortedDesc(old(scoreboard)) ==> SortedDesc(scoreboard)
    {
      ghost var s0 := CurrentScene();
      MovePhase(dt, shooterRoll);
      CollidePhase(dropRolls);
      SettlePhase(dt);
      AdvanceTradesEnemiesForPoints(s0, dt, shooterRoll, dropRolls, canvasWidth, canvasHeight);
      AdvanceRaisesHighScore(s0, dt, shooterRoll, dropRolls, canvasWidth, canvasHeight);
      AdvanceKeepsShipOnField(s0, dt, shooterRoll, dropRolls, canvasWidth, canvasHeight);
      AdvanceOutcome(s0, dt, shooterRoll, dropRolls, canvasWidth, canvasHeight);
      AdvanceKeepsBoard(s0, dt, shooterRoll, dropRolls, canvasWidth, canvasHeight);
    }

    ghost function CurrentScene(): Scene
      reads this, player
    {
      Scene(playerBullets, enemyBullets, enemies, powerUps, particles, score, highScore, scoreboard, state,
            currentLevel, enemyDirection, enemyShootTimer,
            player.x, player.y, player.shootCooldown, player.powerUpLevel, player.powerUpTimer,
            keys, dragging, shooting)
    }

    /** gameLoop: the time since the previous frame in seconds (0 on the first frame),
        and one update only while playing; in any other state the frame changes nothing
        but the remembered timestamp. */
    method Frame(timestamp: real, shooterRoll: real, dropRolls: seq<real>) returns (dt: real)
      requires Valid() && 0.0 <= shooterRoll < 1.0
      modifies this`lastTime
      modifies this`playerBullets, this`enemyBullets, this`enemies, this`enemyDirection, this`enemyShootTimer
      modifies this`score, this`highScore, this`particles, this`powerUps, this`state, this`scoreboard
      modifies player`x, player`shootCooldown, player`powerUpLevel, player`powerUpTimer
      ensures Valid()
      ensures dt == (if old(lastTime) == 0.0 then 0.0 else (timestamp - old(lastTime)) / 1000.0)
      ensures lastTime == timestamp
      ensures old(state) != Playing ==> CurrentScene() == old(CurrentScene())
      ensures old(state) == Playing ==>
                CurrentScene() == Advance(old(CurrentScene()), dt, shooterRoll, dropRolls, canvasWidth, canvasHeight)
      ensures old(state) == Playing ==> KillAward * |enemies| + score == KillAward * |old(enemies)| + old(score)
      ensures old(state) == Playing ==> highScore == (if score > old(highScore) then score else old(highScore))
      ensures old(state) == Playing ==>
                0.0 <= player.x && (player.width <= canvasWidth ==> player.x <= canvasWidth - player.width)
      ensures old(state) == Playing ==> (|enemies| == 0 <==> state == LevelComplete)
      ensures old(state) == Playing && |enemies| > 0 && ReachedCount(enemies, player.y) > 0 ==> state == GameOver
      ensures old(state) == Playing && |enemies| > 0 ==> state == Playing || state == GameOver
      ensures |old(scoreboard)| <= MaxEntries ==> |scoreboard| <= MaxEntries
      ensures SortedDesc(old(scoreboard)) ==> SortedDesc(scoreboard)
    {
      if lastTime == 0.0 {
        lastTime := timestamp;
      }
      dt := (timestamp - lastTime) / 1000.0;
      lastTime := timestamp;
      if state == Playing {
        Update(dt, shooterRoll, dropRolls);
      }
    }

    /** initLevel: empty the bullet, power-up and particle lists, put the ship back at
        its start, set the level's march speed, step and fire interval, spawn the level's
        grid, and drop the power-up level; the direction, the power-up timer and the fire
        cooldown carry over. */
    method InitLevel()
      modifies this`playerBullets, this`enemyBullets, this`powerUps, this`particles, this`enemies
      modifies this`enemySpeed, this`enemyMoveDown, this`enemyFireInterval, this`enemyShootTimer
      modifies player`x, player`y, player`powerUpLevel
      ensures playerBullets == [] && enemyBullets == [] && powerUps == [] && particles == []
      ensures player.x == canvasWidth / 2.0 - player.width / 2.0
      ensures player.y == canvasHeight - player.height - BottomMargin
      ensures enemies == Grid(currentLevel)
      ensures enemySpeed == EnemySpeed(currentLevel) && enemyMoveDown == EnemyStepDown
      ensures enemyFireInterval == FireInterval(currentLevel) && enemyShootTimer == enemyFireInterval as real
      ensures player.powerUpLevel == 0
    {
      playerBullets, enemyBullets, powerUps, particles := [], [], [], [];
      player.x := canvasWidth / 2.0 - player.width / 2.0;
      player.y := canvasHeight - player.height - BottomMargin;
      enemySpeed := EnemySpeed(currentLevel);
      enemyMoveDown := EnemyStepDown;
      enemyFireInterval := FireInterval(currentLevel);
      enemyShootTimer := enemyFireInterval as real;
      enemies := SpawnEnemies(currentLevel);
      player.powerUpLevel := 0;
    }

    /** The start and restart buttons: level 1, score 0, a fresh level, playing. The
        first level has 40 enemies marching at 20 and firing every 2000 ms, and the ship
        starts centred above the bottom margin without a power-up. */
    method NewGame()
      requires Valid()
      modifies this`playerBullets, this`enemyBullets, this`powerUps, this`particles, this`enemies
      modifies this`enemySpeed, this`enemyMoveDown, this`enemyFireInterval, this`enemyShootTimer
      modifies this`currentLevel, this`score, this`state
      modifies player`x, player`y, player`powerUpLevel
      ensures Valid()
      ensures state == Playing && currentLevel == 1 && score == 0
      ensures highScore == old(highScore) && scoreboard == old(scoreboard) && enemyDirection == old(enemyDirection)
      ensures enemies == Grid(1) && |enemies| == 40
      ensures enemySpeed == 20.0 && enemyFireInterval == 2000 && enemyShootTimer == 2000.0
      ensures playerBullets == [] && enemyBullets == [] && powerUps == [] && particles == []
      ensures player.x == canvasWidth / 2.0 - player.width / 2.0
      ensures player.y == canvasHeight - player.height - BottomMargin
      ensures player.powerUpLevel == 0
    {
      currentLevel := 1;
      score := 0;
      InitLevel();
      state := Playing;
      GridShape(1);
    }

    /** The next-level button: one level up with the score kept, a fresh level, playing.
        The new level never fires less often and always marches faster; the ship starts
        centred above the bottom margin without a power-up, and the march keeps the
        direction it had. */
    method NextLevel()
      requires Valid()
      modifies this`playerBullets, this`enemyBullets, this`powerUps, this`particles, this`enemies
      modifies this`enemySpeed, this`enemyMoveDown, this`enemyFireInterval, this`enemyShootTimer
      modifies this`currentLevel, this`state
      modifies player`x, player`y, player`powerUpLevel
      ensures Valid()
      ensures state == Playing && currentLevel == old(currentLevel) + 1
      ensures score == old(score) && highScore == old(highScore) && scoreboard == old(scoreboard)
      ensures enemyDirection == old(enemyDirection)
      ensures enemies == Grid(currentLevel)
      ensures enemyFireInterval <= old(enemyFireInterval) && enemySpeed > old(enemySpeed)
      ensures enemyShootTimer == enemyFireInterval as real
      ensures playerBullets == [] && enemyBullets == [] && powerUps == [] && particles == []
      ensures player.x == canvasWidth / 2.0 - player.width / 2.0
      ensures player.y == canvasHeight - player.height - BottomMargin
      ensures player.powerUpLevel == 0
    {
      currentLevel := currentLevel + 1;
      InitLevel();
      state := Playing;
      HarderWithLevel(currentLevel - 1, currentLevel);
    }

    /** keydown: the key is recorded as held, but only while playing. */
    method KeyDown(key: string)
      modifies this`keys
      ensures keys == if state == Playing then old(keys)[key := true] else old(keys)
    {
      if state == Playing {
        keys := keys[key := true];
      }
    }

    /** keyup: the key is released in any state. */
    method KeyUp(key: string)
      modifies this`keys
      ensures keys == old(keys)[key := false]
    {
      keys := keys[key := false];
    }

    /** The fire button's press and release, in any state. */
    method SetShooting(held: bool)
      modifies this`shooting
      ensures shooting == held
    {
      shooting := held;
    }

    /** mousedown and touchstart: while playing, start a drag and centre the ship under
        the pointer; otherwise nothing happens. */
    method PointerDown(pointerX: real)
      modifies this`dragging, player`x
      ensures old(state) == Playing ==> dragging && player.x == pointerX - player.width / 2.0
      ensures old(state) != Playing ==> dragging == old(dragging) && player.x == old(player.x)
    {
      if state == Playing {
        dragging := true;
        player.DragTo(pointerX);
      }
    }

    /** mousemove and touchmove: during a drag while playing, centre the ship under the
        pointer; otherwise nothing happens. */
    method PointerMove(pointerX: real)
      modifies player`x
      ensures dragging && state == Playing ==> player.x == pointerX - player.width / 2.0
      ensures !(dragging && state == Playing) ==> player.x == old(player.x)
    {
      if dragging && state == Playing {
        player.DragTo(pointerX);
      }
    }

    /** mouseup, mouseleave and touchend: the drag ends, in any state. */
    method PointerUp()
      modifies this`dragging
      ensures !dragging
    {
      dragging := false;
    }
  }
}
