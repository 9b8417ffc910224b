/** The repeating spawn timer that `startWave` installs: once a second it
    spawns an enemy while fewer than the wave's quota have been spawned,
    and clears itself on the first tick after that. */
module SpawnTimers {

  /** `spawned` is the callback's own counter; `active` is false once the
      interval has been cleared. */
  datatype SpawnTimer = SpawnTimer(spawned: nat, active: bool)

  /** The timer as `startWave` creates it. */
  const Started := SpawnTimer(0, true)

  /** Number of enemies a wave spawns: 15, then 3 more per wave. */
  function WaveQuota(wave: int): (q: int)
    ensures wave >= 1 ==> q >= 15
  {
    15 + (wave - 1) * 3
  }

  /** One firing of the interval callback against the current quota. */
  function Tick(t: SpawnTimer, quota: int): SpawnTimer
  {
    if t.spawned >= quota then t.(active := false) else t.(spawned := t.spawned + 1)
  }

  /** The timer after up to `n` firings; a cleared interval fires no more. */
  function RunTicks(t: SpawnTimer, quota: int, n: nat): SpawnTimer
    decreases n
  {
    if n == 0 || !t.active then t else RunTicks(Tick(t, quota), quota, n - 1)
  }

  function Min(a: int, b: int): int
  {
    if a <= b then a else b
  }

  /** From an active timer that has spawned `k` of `quota`, `n` more firings
      spawn until the quota is reached; the interval is cleared exactly when
      the firings outnumber what was left to spawn. */
  lemma {:induction false} TicksFrom(k: nat, quota: int, n: nat)
    requires k <= quota
    ensures RunTicks(SpawnTimer(k, true), quota, n).spawned == Min(k + n, quota)
    ensures RunTicks(SpawnTimer(k, true), quota, n).active == (k + n <= quota)
    decreases n
  {
    if n > 0 {
      if k < quota {
        TicksFrom(k + 1, quota, n - 1);
      } else {
        assert Tick(SpawnTimer(k, true), quota) == SpawnTimer(k, false);
      }
    }
  }

  /** A wave's timer spawns exactly its quota: after `n` firings it has
      spawned `Min(n, quota)` enemies, and it is cleared by firing
      `quota + 1`, having spawned the whole quota. */
  lemma WaveSpawnsQuota(quota: nat, n: nat)
    ensures RunTicks(Started, quota, n).spawned == Min(n, quota)
    ensures n > quota ==> !RunTicks(Started, quota, n).active
  {
    TicksFrom(0, quota, n);
  }
}
