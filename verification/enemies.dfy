/** A live enemy and how `spawnEnemy` builds one from a tier and the draws
    for edge, position and speed. */
module Enemies {
  import opened Tiers

  /** A point on the canvas. */
  datatype Pos = Pos(x: real, y: real)

  /** One enemy on the field; `hp` is decremented by clicks. */
  datatype Enemy = Enemy(pos: Pos, size: int, damage: int, hp: int, maxHp: int, speed: real, points: int)

  /** What holds of every enemy still in the list: it has hit points left,
      no more than it started with, and a positive damage and reward. */
  predicate Live(e: Enemy)
  {
    0 < e.hp <= e.maxHp && 0 < e.damage && 0 < e.points
  }

  /** The edge an enemy enters from: 0 left, 1 right, 2 top, anything else bottom. */
  function SpawnEdge(edgeDraw: real): (edge: int)
    ensures 0.0 <= edgeDraw < 1.0 ==> 0 <= edge <= 3
  {
    (edgeDraw * 4.0).Floor
  }

  /** The entry point: on the chosen edge, at `posDraw` of the way along it. */
  function SpawnPoint(edgeDraw: real, posDraw: real, width: real, height: real): (p: Pos)
    ensures p.x == 0.0 || p.x == width || p.y == 0.0 || p.y == height
    ensures 0.0 <= posDraw < 1.0 && 0.0 <= width && 0.0 <= height ==>
              0.0 <= p.x <= width && 0.0 <= p.y <= height
  {
    var edge := SpawnEdge(edgeDraw);
    ScaledWithin(posDraw, width);
    ScaledWithin(posDraw, height);
    if edge == 0 then Pos(0.0, posDraw * height)
    else if edge == 1 then Pos(width, posDraw * height)
    else if edge == 2 then Pos(posDraw * width, 0.0)
    else Pos(posDraw * width, height)
  }

  /** A draw in [0, 1) scales a length to a point of that length. */
  lemma ScaledWithin(draw: real, length: real)
    ensures 0.0 <= draw < 1.0 && 0.0 <= length ==> 0.0 <= draw * length <= length
  {
    if 0.0 <= draw < 1.0 && 0.0 <= length {
      assert draw * length <= 1.0 * length;
    }
  }

  /** Speed of a new enemy, between 1 and 2.5 for a draw in [0, 1). */
  function SpawnSpeed(speedDraw: real): (v: real)
    ensures 0.0 <= speedDraw < 1.0 ==> 1.0 <= v < 2.5
  {
    1.0 + speedDraw * 1.5
  }

  /** The record pushed for tier `t`: size, damage, hit points and points
      copied from the tier, with `maxHp` equal to the starting `hp`. */
  function FromTier(t: EnemyType, pos: Pos, speed: real): Enemy
  {
    Enemy(pos, t.size, t.damage, t.hp, t.hp, speed, t.points)
  }

  /** Every tier of the table yields a live enemy. */
  lemma TableTiersLive(i: nat, pos: Pos, speed: real)
    requires i < |EnemyTypes|
    ensures Live(FromTier(EnemyTypes[i], pos, speed))
  {
  }
}
