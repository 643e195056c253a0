/** Collision resolution between player bullets and the enemy formation, and the
    sparks and power-ups a kill leaves behind. */
module Combat {
  import opened Entities
  import opened Lists

  const KillAward: int := 10
  const SparksPerKill: nat := 20
  const DropChance: real := 0.2

  /** The bullet's centre is strictly inside the enemy's rectangle. */
  predicate HitsEnemy(b: Bullet, e: Enemy)
  {
    StrictlyInside(b.x, b.y, e.x, e.y, e.width, e.height)
  }

  /** The enemy the inner backward loop stops at when it starts below index n: the
      highest index under n the bullet hits, or -1 when it hits none of them. */
  function LastHitBelow(b: Bullet, es: seq<Enemy>, n: nat): (k: int)
    requires n <= |es|
    ensures -1 <= k < n
    decreases n
  {
    if n == 0 then -1
    else if HitsEnemy(b, es[n - 1]) then n - 1
    else LastHitBelow(b, es, n - 1)
  }

  /** The enemy the inner loop stops at: the highest index the bullet hits, or -1. */
  function LastHit(b: Bullet, es: seq<Enemy>): (k: int)
    ensures -1 <= k < |es|
  {
    LastHitBelow(b, es, |es|)
  }

  /** The enemy found is one the bullet hits, and the bullet hits none after it below
      n; so -1 means it hits none of them at all. */
  lemma {:induction false} LastHitMeaning(b: Bullet, es: seq<Enemy>, n: nat)
    requires n <= |es|
    ensures LastHitBelow(b, es, n) >= 0 ==> HitsEnemy(b, es[LastHitBelow(b, es, n)])
    ensures forall j :: LastHitBelow(b, es, n) < j < n ==> !HitsEnemy(b, es[j])
    decreases n
  {
    if n > 0 && !HitsEnemy(b, es[n - 1]) {
      LastHitMeaning(b, es, n - 1);
    }
  }

  /** Those two facts pin the index down: any k with them is the one found. */
  lemma {:induction false} LastHitUnique(b: Bullet, es: seq<Enemy>, n: nat, k: int)
    requires n <= |es| && -1 <= k < n
    requires k >= 0 ==> HitsEnemy(b, es[k])
    requires forall j :: k < j < n ==> !HitsEnemy(b, es[j])
    ensures k == LastHitBelow(b, es, n)
    decreases n
  {
    if k < n - 1 {
      LastHitUnique(b, es, n - 1, k);
    }
  }

  /** The inner loop of the pass: search the formation from the back and stop at the
      first enemy the bullet hits. */
  method FindTarget(b: Bullet, es: seq<Enemy>) returns (k: int)
    ensures k == LastHit(b, es)
    ensures -1 <= k < |es|
  {
    k := |es| - 1;
    while k >= 0
      invariant -1 <= k < |es|
      invariant forall j :: k < j < |es| ==> !HitsEnemy(b, es[j])
    {
      if HitsEnemy(b, es[k]) {
        break;
      }
      k := k - 1;
    }
    LastHitUnique(b, es, |es|, k);
  }

  /** What is left after the bullet/enemy pass, and the enemies killed, in kill order. */
  datatype HitOutcome = HitOutcome(bullets: seq<Bullet>, enemies: seq<Enemy>, kills: seq<Enemy>)

  /** The bullet/enemy pass over the first n bullets: they are taken from bullet n - 1
      back; each removes the last enemy it hits (and itself) and then stops looking. */
  function ResolveFirst(bs: seq<Bullet>, n: nat, es: seq<Enemy>): (r: HitOutcome)
    requires n <= |bs|
    ensures |r.bullets| + |r.kills| == n
    ensures |r.enemies| + |r.kills| == |es|
    decreases n
  {
    if n == 0 then HitOutcome([], es, [])
    else
      var b := bs[n - 1];
      var k := LastHit(b, es);
      if k < 0 then
        var rest := ResolveFirst(bs, n - 1, es);
        HitOutcome(rest.bullets + [b], rest.enemies, rest.kills)
      else
        var rest := ResolveFirst(bs, n - 1, es[..k] + es[k + 1..]);
        HitOutcome(rest.bullets, rest.enemies, [es[k]] + rest.kills)
  }

  /** The whole pass, over every player bullet. */
  function ResolveHits(bs: seq<Bullet>, es: seq<Enemy>): (r: HitOutcome)
    ensures |r.bullets| + |r.kills| == |bs|
    ensures |r.enemies| + |r.kills| == |es|
  {
    ResolveFirst(bs, |bs|, es)
  }

  /** The enemies removed are exactly the kills: together with the survivors they make
      up the formation as it was. */
  lemma {:induction false} KillsAreRemovedEnemies(bs: seq<Bullet>, n: nat, es: seq<Enemy>)
    requires n <= |bs|
    ensures var r := ResolveFirst(bs, n, es);
            multiset(r.enemies) + multiset(r.kills) == multiset(es)
    decreases n
  {
    if n > 0 {
      var r := ResolveFirst(bs, n, es);
      var k := LastHit(bs[n - 1], es);
      if k < 0 {
        KillsAreRemovedEnemies(bs, n - 1, es);
        assert r.enemies == ResolveFirst(bs, n - 1, es).enemies;
        assert r.kills == ResolveFirst(bs, n - 1, es).kills;
      } else {
        var es' := es[..k] + es[k + 1..];
        var rest := ResolveFirst(bs, n - 1, es');
        KillsAreRemovedEnemies(bs, n - 1, es');
        RemoveOne(es, k);
        assert r.enemies == rest.enemies;
        assert r.kills == [es[k]] + rest.kills;
        assert multiset(r.kills) == multiset{es[k]} + multiset(rest.kills);
      }
    }
  }

  /** Taking enemy k out of the formation removes exactly one copy of it. */
  lemma RemoveOne(es: seq<Enemy>, k: int)
    requires 0 <= k < |es|
    ensures multiset(es[..k] + es[k + 1..]) + multiset{es[k]} == multiset(es)
  {
    assert es == es[..k] + [es[k]] + es[k + 1..];
  }

  /** The surviving bullets are input bullets: the pass adds none and never keeps one
      more often than the input holds it. */
  lemma {:induction false} SurvivorsAreInputBullets(bs: seq<Bullet>, n: nat, es: seq<Enemy>)
    requires n <= |bs|
    ensures multiset(ResolveFirst(bs, n, es).bullets) <= multiset(bs[..n])
    decreases n
  {
    if n > 0 {
      var k := LastHit(bs[n - 1], es);
      assert bs[..n] == bs[..n - 1] + [bs[n - 1]];
      if k < 0 {
        SurvivorsAreInputBullets(bs, n - 1, es);
      } else {
        SurvivorsAreInputBullets(bs, n - 1, es[..k] + es[k + 1..]);
      }
    }
  }

  /** After the pass no surviving bullet lies inside any surviving enemy. */
  lemma {:induction false} NoHitLeft(bs: seq<Bullet>, n: nat, es: seq<Enemy>)
    requires n <= |bs|
    ensures var r := ResolveFirst(bs, n, es);
            forall b, e :: b in r.bullets && e in r.enemies ==> !HitsEnemy(b, e)
    decreases n
  {
    if n > 0 {
      var k := LastHit(bs[n - 1], es);
      if k < 0 {
        NoHitLeft(bs, n - 1, es);
        MissHitsNoSurvivor(bs, n - 1, es);
      } else {
        NoHitLeft(bs, n - 1, es[..k] + es[k + 1..]);
      }
    }
  }

  /** A bullet that hits nothing in the formation hits none of the enemies the earlier
      bullets leave standing. */
  lemma MissHitsNoSurvivor(bs: seq<Bullet>, m: nat, es: seq<Enemy>)
    requires m < |bs|
    requires LastHit(bs[m], es) < 0
    ensures forall e :: e in ResolveFirst(bs, m, es).enemies ==> !HitsEnemy(bs[m], e)
  {
    var rest := ResolveFirst(bs, m, es);
    LastHitMeaning(bs[m], es, |es|);
    KillsAreRemovedEnemies(bs, m, es);
    forall e | e in rest.enemies
      ensures !HitsEnemy(bs[m], e)
    {
      assert e in multiset(rest.enemies);
      assert e in multiset(es);
    }
  }

  /** Every killed enemy was strictly hit by one of the bullets. */
  lemma {:induction false} KillsWereHit(bs: seq<Bullet>, n: nat, es: seq<Enemy>)
    requires n <= |bs|
    ensures forall e :: e in ResolveFirst(bs, n, es).kills ==> exists b :: b in bs[..n] && HitsEnemy(b, e)
    decreases n
  {
    if n > 0 {
      var b := bs[n - 1];
      var k := LastHit(b, es);
      var es' := if k < 0 then es else es[..k] + es[k + 1..];
      var rest := ResolveFirst(bs, n - 1, es');
      KillsWereHit(bs, n - 1, es');
      LastHitMeaning(b, es, |es|);
      assert bs[..n] == bs[..n - 1] + [b];
      forall e | e in ResolveFirst(bs, n, es).kills
        ensures exists b' :: b' in bs[..n] && HitsEnemy(b', e)
      {
        if k >= 0 && e == es[k] {
          assert b in bs[..n];
        } else {
          assert e in rest.kills;
          var b' :| b' in bs[..n - 1] && HitsEnemy(b', e);
          assert b' in bs[..n];
        }
      }
    }
  }

  /** The 20 sparks pushed at the centre of a killed enemy; their random velocities are
      replaced by zero. */
  function Burst(e: Enemy): (ps: seq<Particle>)
    ensures |ps| == SparksPerKill
  {
    seq(SparksPerKill, _ => Particle(CentreX(e), CentreY(e), 0.0, 0.0, ParticleLife))
  }

  /** All sparks of a sequence of kills, in kill order. */
  function Debris(kills: seq<Enemy>): (ps: seq<Particle>)
    ensures |ps| == SparksPerKill * |kills|
  {
    if kills == [] then [] else Debris(kills[..|kills| - 1]) + Burst(kills[|kills| - 1])
  }

  /** One more kill adds its burst at the end. */
  lemma DebrisSnoc(kills: seq<Enemy>, e: Enemy)
    ensures Debris(kills + [e]) == Debris(kills) + Burst(e)
  {
    assert (kills + [e])[..|kills|] == kills;
  }

  /** The power-up left at a kill's centre. */
  function DropAt(e: Enemy): PowerUp
  {
    PowerUp(CentreX(e), CentreY(e), PowerUpRadius, PowerUpFallSpeed, Double)
  }

  /** The power-ups of a sequence of kills: kill number k drops one when the k-th
      random roll is below 0.2 (a missing roll never drops). */
  function Drops(kills: seq<Enemy>, rolls: seq<real>): (ps: seq<PowerUp>)
    ensures |ps| <= |kills|
  {
    if kills == [] then []
    else
      var k := |kills| - 1;
      Drops(kills[..k], rolls) + (if k < |rolls| && rolls[k] < DropChance then [DropAt(kills[k])] else [])
  }

  /** One more kill adds its power-up at the end when its roll is below 0.2. */
  lemma DropsSnoc(kills: seq<Enemy>, e: Enemy, rolls: seq<real>)
    ensures Drops(kills + [e], rolls)
         == Drops(kills, rolls) + (if |kills| < |rolls| && rolls[|kills|] < DropChance then [DropAt(e)] else [])
  {
    assert (kills + [e])[..|kills|] == kills;
  }

  /** The 20 pushes of sparks for one kill. */
  method PushBurst(ps: seq<Particle>, e: Enemy) returns (r: seq<Particle>)
    ensures r == ps + Burst(e)
  {
    r := ps;
    for i := 0 to SparksPerKill
      invariant r == ps + Burst(e)[..i]
    {
      assert Burst(e)[..i + 1] == Burst(e)[..i] + [Burst(e)[i]];
      r := r + [Particle(CentreX(e), CentreY(e), 0.0, 0.0, ParticleLife)];
    }
    assert Burst(e)[..SparksPerKill] == Burst(e);
  }

  /** The outcome of a pass over the first bullets, completed by the bullets already
      kept behind them and the enemies already killed by those. */
  function Resume(r: HitOutcome, tail: seq<Bullet>, killed: seq<Enemy>): HitOutcome
  {
    HitOutcome(r.bullets + tail, r.enemies, killed + r.kills)
  }

  /** One step of the pass seen from bullet n - 1, when it hits nothing: it joins the
      bullets already kept behind it. */
  lemma PassMiss(bs: seq<Bullet>, n: nat, tail: seq<Bullet>, es: seq<Enemy>, killed: seq<Enemy>)
    requires 0 < n <= |bs|
    requires LastHit(bs[n - 1], es) < 0
    ensures Resume(ResolveFirst(bs, n, es), tail, killed) == Resume(ResolveFirst(bs, n - 1, es), [bs[n - 1]] + tail, killed)
  {
    var r := ResolveFirst(bs, n - 1, es);
    assert r.bullets + [bs[n - 1]] + tail == r.bullets + ([bs[n - 1]] + tail);
  }

  /** One step of the pass seen from bullet n - 1, when it hits enemy k: the enemy joins
      the kills and leaves the formation the earlier bullets see. */
  lemma PassHit(bs: seq<Bullet>, n: nat, tail: seq<Bullet>, es: seq<Enemy>, killed: seq<Enemy>, k: int)
    requires 0 < n <= |bs|
    requires k == LastHit(bs[n - 1], es) && k >= 0
    ensures Resume(ResolveFirst(bs, n, es), tail, killed)
         == Resume(ResolveFirst(bs, n - 1, es[..k] + es[k + 1..]), tail, killed + [es[k]])
  {
    var r := ResolveFirst(bs, n - 1, es[..k] + es[k + 1..]);
    assert killed + ([es[k]] + r.kills) == (killed + [es[k]]) + r.kills;
  }

  /** Where the backward pass stands before bullet b: the bullets up to b are untouched,
      those after it are the kept ones, and finishing the pass over the first b + 1
      bullets against what is left of the formation gives the whole pass. */
  predicate Midway(bs: seq<Bullet>, es: seq<Enemy>, b: int, tail: seq<Bullet>,
                   formation: seq<Enemy>, killed: seq<Enemy>, bullets: seq<Bullet>)
  {
    && -1 <= b < |bs|
    && bullets == bs[..b + 1] + tail
    && ResolveHits(bs, es) == Resume(ResolveFirst(bs, b + 1, formation), tail, killed)
  }

  /** The bullet the pass looks at next is the input's bullet b. */
  lemma MidwayAt(bs: seq<Bullet>, es: seq<Enemy>, b: int, tail: seq<Bullet>,
                 formation: seq<Enemy>, killed: seq<Enemy>, bullets: seq<Bullet>)
    requires Midway(bs, es, b, tail, formation, killed, bullets) && b >= 0
    ensures b < |bullets| && bullets[b] == bs[b]
  {
    assert bs[..b + 1] == bs[..b] + [bs[b]];
    SpliceAt(bullets, bs[..b], bs[b], tail, b);
  }

  /** A bullet that hits nothing stays where it is and joins the kept ones. */
  lemma MissKeeps(bs: seq<Bullet>, es: seq<Enemy>, b: int, tail: seq<Bullet>,
                  formation: seq<Enemy>, killed: seq<Enemy>, bullets: seq<Bullet>)
    requires Midway(bs, es, b, tail, formation, killed, bullets) && b >= 0
    requires LastHit(bs[b], formation) < 0
    ensures Midway(bs, es, b - 1, [bs[b]] + tail, formation, killed, bullets)
  {
    assert bs[..b + 1] == bs[..b] + [bs[b]];
    SpliceAt(bullets, bs[..b], bs[b], tail, b);
    PassMiss(bs, b + 1, tail, formation, killed);
  }

  /** A bullet that hits enemy e is spliced out together with that enemy, which joins
      the kills. */
  lemma HitKeeps(bs: seq<Bullet>, es: seq<Enemy>, b: int, tail: seq<Bullet>,
                 formation: seq<Enemy>, killed: seq<Enemy>, bullets: seq<Bullet>, e: int)
    requires Midway(bs, es, b, tail, formation, killed, bullets) && b >= 0
    requires e == LastHit(bs[b], formation) && e >= 0
    ensures b < |bullets| && e < |formation|
    ensures Midway(bs, es, b - 1, tail, formation[..e] + formation[e + 1..], killed + [formation[e]],
                   bullets[..b] + bullets[b + 1..])
  {
    assert bs[..b + 1] == bs[..b] + [bs[b]];
    SpliceAt(bullets, bs[..b], bs[b], tail, b);
    PassHit(bs, b + 1, tail, formation, killed, e);
  }

  /** The loop of the player-bullet/enemy pass: from the last bullet back, a bullet
      inside an enemy removes itself and the last such enemy, scores 10, raises the best
      score when it is passed, leaves 20 sparks and, when the kill's roll is below 0.2,
      a power-up. */
  method ShootDown(bs: seq<Bullet>, es: seq<Enemy>, dropRolls: seq<real>,
                   points0: int, best0: int, sparks0: seq<Particle>, drops0: seq<PowerUp>)
    returns (bullets: seq<Bullet>, formation: seq<Enemy>, points: int, best: int,
             sparks: seq<Particle>, drops: seq<PowerUp>)
    ensures var r := ResolveHits(bs, es);
            && bullets == r.bullets && formation == r.enemies
            && points == points0 + KillAward * |r.kills|
            && best == (if |r.kills| > 0 && points > best0 then points else best0)
            && sparks == sparks0 + Debris(r.kills)
            && drops == drops0 + Drops(r.kills, dropRolls)
  {
    bullets, formation, points, best, sparks, drops := bs, es, points0, best0, sparks0, drops0;
    ghost var killed: seq<Enemy> := [];
    ghost var tail: seq<Bullet> := [];
    var hits := 0;
    assert Drops([], dropRolls) == [] && Debris([]) == [];
    var b := |bullets| - 1;
    assert bs[..|bs|] == bs;
    while b >= 0
      invariant Midway(bs, es, b, tail, formation, killed, bullets)
      invariant hits == |killed|
      invariant Earned(killed, dropRolls, points0, best0, sparks0, drops0, points, best, sparks, drops)
    {
      MidwayAt(bs, es, b, tail, formation, killed, bullets);
      var bullet := bullets[b];
      var e := FindTarget(bullet, formation);
      if e >= 0 {
        HitKeeps(bs, es, b, tail, formation, killed, bullets, e);
        var enemy := formation[e];
        bullets := bullets[..b] + bullets[b + 1..];
        formation := formation[..e] + formation[e + 1..];
        EarnedStep(killed, enemy, dropRolls, points0, best0, sparks0, drops0, points, best, sparks, drops);
        points, best, sparks, drops := Reward(enemy, hits, dropRolls, points, best, sparks, drops);
        killed := killed + [enemy];
        hits := hits + 1;
      } else {
        MissKeeps(bs, es, b, tail, formation, killed, bullets);
        tail := [bullet] + tail;
      }
      b := b - 1;
    }
    assert Resume(ResolveFirst(bs, 0, formation), tail, killed) == HitOutcome(tail, formation, killed);
  }

  /** The rewards of the kills so far, on top of the starting values: 10 points each,
      the best score the larger of the starting best and the points once anything was
      killed, the sparks of every kill and the power-ups their rolls let drop. */
  predicate Earned(killed: seq<Enemy>, dropRolls: seq<real>,
                   points0: int, best0: int, sparks0: seq<Particle>, drops0: seq<PowerUp>,
                   points: int, best: int, sparks: seq<Particle>, drops: seq<PowerUp>)
  {
    && points == points0 + KillAward * |killed|
    && best == (if |killed| > 0 && points > best0 then points else best0)
    && sparks == sparks0 + Debris(killed)
    && drops == drops0 + Drops(killed, dropRolls)
  }

  /** Rewarding one more kill keeps the rewards those of the kills so far. */
  lemma EarnedStep(killed: seq<Enemy>, enemy: Enemy, dropRolls: seq<real>,
                   points0: int, best0: int, sparks0: seq<Particle>, drops0: seq<PowerUp>,
                   points: int, best: int, sparks: seq<Particle>, drops: seq<PowerUp>)
    requires Earned(killed, dropRolls, points0, best0, sparks0, drops0, points, best, sparks, drops)
    ensures Earned(killed + [enemy], dropRolls, points0, best0, sparks0, drops0,
                   points + KillAward, if points + KillAward > best then points + KillAward else best,
                   sparks + Burst(enemy),
                   drops + (if |killed| < |dropRolls| && dropRolls[|killed|] < DropChance then [DropAt(enemy)] else []))
  {
    DebrisSnoc(killed, enemy);
    DropsSnoc(killed, enemy, dropRolls);
  }

  /** What one kill earns: 10 points, the best score raised when passed, 20 sparks, and
      a power-up when the kill's roll is below 0.2. */
  method Reward(enemy: Enemy, hits: nat, dropRolls: seq<real>,
                points0: int, best0: int, sparks0: seq<Particle>, drops0: seq<PowerUp>)
    returns (points: int, best: int, sparks: seq<Particle>, drops: seq<PowerUp>)
    ensures points == points0 + KillAward
    ensures best == (if points > best0 then points else best0)
    ensures sparks == sparks0 + Burst(enemy)
    ensures drops == drops0 + (if hits < |dropRolls| && dropRolls[hits] < DropChance then [DropAt(enemy)] else [])
  {
    points := points0 + KillAward;
    best := best0;
    if points > best {
      best := points;
    }
    sparks := PushBurst(sparks0, enemy);
    drops := drops0;
    if hits < |dropRolls| && dropRolls[hits] < DropChance {
      drops := drops + [DropAt(enemy)];
    }
  }
}
