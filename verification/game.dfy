/** The game's mutable state and the callbacks that change it: the spawn
    interval, the wave start, the per-frame update, the end of the
    "get ready" message and the click handler. */
module GameState {
  import opened Tiers
  import opened Enemies
  import opened Passes
  import opened SpawnTimers

  /** The player's starting and largest life. */
  const MaxLife := 15

  class Game {
    /** Canvas size, used only to place new enemies on an edge. */
    const width: real
    const height: real

    var enemies: seq<Enemy>
    var score: int
    var wave: int
    var isSpawning: bool
    var enemiesToSpawn: int
    var enemiesDefeated: int
    var gameOver: bool
    var showWaveMessage: bool
    /** `player.life` */
    var life: int
    /** The interval installed by the last wave start. */
    var spawnTimer: SpawnTimer

    /** The invariant every callback keeps. Life only falls and the game is
        over exactly when it is used up; the quota belongs to the current
        wave, or to the previous one while the message shows; the enemies on
        the field plus those defeated are those this wave has spawned (fewer
        once the game is over, as ticks then spawn nothing). */
    ghost predicate Valid()
      reads this
    {
      (forall i :: 0 <= i < |enemies| ==> Live(enemies[i])) &&
      life <= MaxLife && (gameOver <==> life <= 0) &&
      0 <= score &&
      1 <= wave && (showWaveMessage ==> 2 <= wave) &&
      enemiesToSpawn == WaveQuota(if showWaveMessage then wave - 1 else wave) &&
      spawnTimer.spawned <= enemiesToSpawn &&
      (!spawnTimer.active ==> spawnTimer.spawned == enemiesToSpawn) &&
      0 <= enemiesDefeated &&
      enemiesDefeated + |enemies| <= spawnTimer.spawned &&
      (!gameOver ==> enemiesDefeated + |enemies| == spawnTimer.spawned)
    }

    /** `e` is the enemy a spawn with these draws pushes: built from the
        tier the draw selects, on the drawn edge point, at the drawn speed. */
    ghost predicate SpawnedFrom(e: Enemy, tierDraw: real, edgeDraw: real, posDraw: real, speedDraw: real)
    {
      exists i: nat :: TierFor(EnemyTypes, tierDraw, i) &&
        e == FromTier(EnemyTypes[i], SpawnPoint(edgeDraw, posDraw, width, height), SpawnSpeed(speedDraw))
    }

    /** Page load: the initial globals, then the first wave is started. */
    constructor (width: real, height: real)
      ensures Valid()
      ensures this.width == width && this.height == height
      ensures enemies == [] && score == 0 && wave == 1 && isSpawning
      ensures enemiesToSpawn == 15 && enemiesDefeated == 0
      ensures !gameOver && !showWaveMessage && life == MaxLife
      ensures spawnTimer == Started
    {
      this.width := width;
      this.height := height;
      showWaveMessage := false;
      life := MaxLife;
      enemies := [];
      score := 0;
      wave := 1;
      isSpawning := true;
      enemiesToSpawn := 15;
      enemiesDefeated := 0;
      gameOver := false;
      spawnTimer := SpawnTimer(0, false);
      new;
      StartWave();
    }

    /** Appends one enemy of the drawn tier, unless the game is over. */
    method SpawnEnemy(tierDraw: real, edgeDraw: real, posDraw: real, speedDraw: real)
      modifies this`enemies
      ensures old(gameOver) ==> enemies == old(enemies)
      ensures !old(gameOver) ==>
                |enemies| == |old(enemies)| + 1 && enemies[..|old(enemies)|] == old(enemies) &&
                SpawnedFrom(enemies[|old(enemies)|], tierDraw, edgeDraw, posDraw, speedDraw)
    {
      if gameOver {
        return;
      }
      var tier := SelectTier(EnemyTypes, tierDraw);
      var selectedType := EnemyTypes[tier];
      var pos := SpawnPoint(edgeDraw, posDraw, width, height);
      var e := FromTier(selectedType, pos, SpawnSpeed(speedDraw));
      enemies := enemies + [e];
      assert enemies[|old(enemies)|] == e;
    }

    /** Resets the wave's counters and list and installs a fresh spawn
        interval for the quota of the current wave. */
    method StartWave()
      modifies this`isSpawning, this`enemiesToSpawn, this`enemiesDefeated, this`enemies, this`spawnTimer
      ensures isSpawning && enemiesToSpawn == WaveQuota(wave) && enemiesDefeated == 0
      ensures enemies == [] && spawnTimer == Started
    {
      isSpawning := true;
      enemiesToSpawn := 15 + (wave - 1) * 3;
      enemiesDefeated := 0;
      enemies := [];
      spawnTimer := Started;
    }

    /** One firing of the spawn interval: spawns while the quota is not yet
        reached, otherwise clears the interval. */
    method SpawnTick(tierDraw: real, edgeDraw: real, posDraw: real, speedDraw: real)
      requires Valid() && spawnTimer.active
      modifies this`enemies, this`spawnTimer
      ensures Valid()
      ensures spawnTimer == Tick(old(spawnTimer), enemiesToSpawn)
      ensures old(spawnTimer.spawned) >= enemiesToSpawn || gameOver ==> enemies == old(enemies)
      ensures old(spawnTimer.spawned) < enemiesToSpawn && !gameOver ==>
                |enemies| == |old(enemies)| + 1 && enemies[..|old(enemies)|] == old(enemies) &&
                SpawnedFrom(enemies[|old(enemies)|], tierDraw, edgeDraw, posDraw, speedDraw)
    {
      if spawnTimer.spawned >= enemiesToSpawn {
        spawnTimer := spawnTimer.(active := false);
      } else {
        SpawnEnemy(tierDraw, edgeDraw, posDraw, speedDraw);
        spawnTimer := spawnTimer.(spawned := spawnTimer.spawned + 1);
        if !gameOver {
          var e := enemies[|old(enemies)|];
          ghost var i: nat :| TierFor(EnemyTypes, tierDraw, i) &&
            e == FromTier(EnemyTypes[i], SpawnPoint(edgeDraw, posDraw, width, height), SpawnSpeed(speedDraw));
          TableTiersLive(i, SpawnPoint(edgeDraw, posDraw, width, height), SpawnSpeed(speedDraw));
          assert enemies == old(enemies) + [e];
        }
      }
    }

    /** One animation frame: the contact pass, the game-over latch and the
        wave advance. Movement is `advance`, the distance test `touches`. */
    method Update(advance: Enemy -> Pos, touches: Enemy -> bool)
      requires Valid()
      modifies this`enemies, this`life, this`enemiesDefeated, this`gameOver, this`wave, this`showWaveMessage
      ensures Valid()
      ensures old(gameOver) ==> unchanged(this)
      ensures !old(gameOver) ==>
                var r := Sweep(old(enemies), Contact(advance, touches));
                enemies == r.kept &&
                life == old(life) - DamageOf(r.removed) &&
                enemiesDefeated == old(enemiesDefeated) + |r.removed| &&
                gameOver == (life <= 0)
      ensures !old(gameOver) ==>
                var advances := enemiesDefeated >= enemiesToSpawn && !gameOver && !old(showWaveMessage);
                wave == old(wave) + (if advances then 1 else 0) &&
                showWaveMessage == (old(showWaveMessage) || advances)
      ensures life <= old(life) && (old(gameOver) ==> gameOver)
      ensures wave != old(wave) ==>
                enemies == [] && enemiesDefeated == enemiesToSpawn == spawnTimer.spawned
    {
      if gameOver {
        return;
      }
      SweepKeepsLive(enemies, Contact(advance, touches));
      ContactPass(advance, touches);
      if life <= 0 {
        gameOver := true;
      }
      if enemiesDefeated >= enemiesToSpawn && !gameOver && !showWaveMessage {
        wave := wave + 1;
        showWaveMessage := true;
      }
    }

    /** The `forEach` of `update`: calls `ContactVisit` on each index of
        the list as it was when the walk began, while that index is still
        inside the (possibly shortened) list. */
    method ContactPass(advance: Enemy -> Pos, touches: Enemy -> bool)
      modifies this`enemies, this`life, this`enemiesDefeated
      ensures var r := Sweep(old(enemies), Contact(advance, touches));
              enemies == r.kept &&
              life == old(life) - DamageOf(r.removed) &&
              enemiesDefeated == old(enemiesDefeated) + |r.removed|
    {
      ghost var pass := Contact(advance, touches);
      ghost var total := Sweep(enemies, pass);
      ghost var life0, defeated0 := life, enemiesDefeated;
      WalkEnds(enemies, pass);
      var n := |enemies|;
      var k := 0;
      while k < n
        invariant 0 <= k <= n && |enemies| <= n
        invariant Settled(enemies, k) + Pending(enemies, k, pass).kept == total.kept
        invariant enemiesDefeated + |Pending(enemies, k, pass).removed| == defeated0 + |total.removed|
        invariant life - DamageOf(Pending(enemies, k, pass).removed) == life0 - DamageOf(total.removed)
      {
        if k < |enemies| {
          ghost var before := enemies;
          ContactVisit(advance, touches, k);
          if Visit(pass, before[k]).Drop? {
            DropStep(before, k, pass);
          } else {
            StayStep(before, k, pass);
          }
        }
        k := k + 1;
      }
      WalkEnds(enemies, pass);
    }

    /** The callback of `update`'s `forEach` at `index`: moves the enemy
        there, and if it then touches the player, charges its damage to the
        player's life, splices it out and counts it as defeated. */
    method ContactVisit(advance: Enemy -> Pos, touches: Enemy -> bool, index: nat)
      requires index < |enemies|
      modifies this`enemies, this`life, this`enemiesDefeated
      ensures match Visit(Contact(advance, touches), old(enemies)[index])
              case Stay(e) =>
                enemies == old(enemies)[index := e] &&
                life == old(life) && enemiesDefeated == old(enemiesDefeated)
              case Drop(e) =>
                enemies == old(enemies)[..index] + old(enemies)[index + 1..] &&
                life == old(life) - e.damage && enemiesDefeated == old(enemiesDefeated) + 1
    {
      var enemy := enemies[index];
      enemy := enemy.(pos := advance(enemy));
      enemies := enemies[index := enemy];
      if touches(enemy) {
        life := life - enemy.damage;
        enemies := enemies[..index] + enemies[index + 1..];
        enemiesDefeated := enemiesDefeated + 1;
      }
    }

    /** The `forEach` of the click handler: calls `HitVisit` on each index
        of the list as it was when the walk began, while that index is still
        inside the (possibly shortened) list. */
    method HitPass(hit: Enemy -> bool)
      modifies this`enemies, this`score, this`enemiesDefeated
      ensures var r := Sweep(old(enemies), Hit(hit));
              enemies == r.kept &&
              score == old(score) + PointsOf(r.removed) &&
              enemiesDefeated == old(enemiesDefeated) + |r.removed|
    {
      ghost var pass := Hit(hit);
      ghost var total := Sweep(enemies, pass);
      ghost var score0, defeated0 := score, enemiesDefeated;
      WalkEnds(enemies, pass);
      var n := |enemies|;
      var k := 0;
      while k < n
        invariant 0 <= k <= n && |enemies| <= n
        invariant Settled(enemies, k) + Pending(enemies, k, pass).kept == total.kept
        invariant enemiesDefeated + |Pending(enemies, k, pass).removed| == defeated0 + |total.removed|
        invariant score + PointsOf(Pending(enemies, k, pass).removed) == score0 + PointsOf(total.removed)
      {
        if k < |enemies| {
          ghost var before := enemies;
          HitVisit(hit, k);
          if Visit(pass, before[k]).Drop? {
            DropStep(before, k, pass);
          } else {
            StayStep(before, k, pass);
          }
        }
        k := k + 1;
      }
      WalkEnds(enemies, pass);
    }

    /** The callback of the click handler's `forEach` at `index`: an enemy
        under the click loses a hit point; left without hit points, it pays
        its points into the score, is spliced out and counts as defeated. */
    method HitVisit(hit: Enemy -> bool, index: nat)
      requires index < |enemies|
      modifies this`enemies, this`score, this`enemiesDefeated
      ensures match Visit(Hit(hit), old(enemies)[index])
              case Stay(e) =>
                enemies == old(enemies)[index := e] &&
                score == old(score) && enemiesDefeated == old(enemiesDefeated)
              case Drop(e) =>
                enemies == old(enemies)[..index] + old(enemies)[index + 1..] &&
                score == old(score) + e.points && enemiesDefeated == old(enemiesDefeated) + 1
    {
      var enemy := enemies[index];
      if hit(enemy) {
        enemy := enemy.(hp := enemy.hp - 1);
        enemies := enemies[index := enemy];
        if enemy.hp <= 0 {
          score := score + enemy.points;
          enemies := enemies[..index] + enemies[index + 1..];
          enemiesDefeated := enemiesDefeated + 1;
        }
      }
    }

    /** The timeout that ends the "get ready" message and starts the wave. */
    method EndWaveMessage()
      requires Valid() && showWaveMessage
      modifies this`showWaveMessage, this`isSpawning, this`enemiesToSpawn, this`enemiesDefeated, this`enemies, this`spawnTimer
      ensures Valid()
      ensures !showWaveMessage && isSpawning && enemiesToSpawn == WaveQuota(wave) && enemiesDefeated == 0
      ensures enemies == [] && spawnTimer == Started
    {
      showWaveMessage := false;
      StartWave();
    }

    /** The click handler: every examined enemy under the click loses a hit
        point; one left without hit points pays its points and is removed. */
    method Click(hit: Enemy -> bool)
      requires Valid()
      modifies this`enemies, this`score, this`enemiesDefeated
      ensures Valid()
      ensures old(gameOver) ==> unchanged(this)
      ensures !old(gameOver) ==>
                var r := Sweep(old(enemies), Hit(hit));
                enemies == r.kept &&
                score == old(score) + PointsOf(r.removed) &&
                enemiesDefeated == old(enemiesDefeated) + |r.removed|
      ensures score >= old(score)
      ensures (forall i :: 0 <= i < |old(enemies)| ==> !hit(old(enemies)[i])) ==> unchanged(this)
    {
      if gameOver {
        return;
      }
      SweepKeepsLive(enemies, Hit(hit));
      if forall i :: 0 <= i < |enemies| ==> !hit(enemies[i]) {
        MissedClickKeepsAll(enemies, hit);
      }
      HitPass(hit);
    }
  }
}
