/** The two passes over the enemy list: the contact pass of `update` and
    the click pass. Both walk the list with `forEach` and remove an enemy
    with `splice(index, 1)` while walking; the splice shifts the next enemy
    into the current index, so the walk never looks at that enemy. */
module Passes {
  import opened Enemies

  /** What a pass does with each enemy it looks at. `Contact` moves the
      enemy to `advance(e)` and then tests it against the player;
      `Hit` tests it against the click point. */
  datatype Pass =
    | Contact(advance: Enemy -> Pos, touches: Enemy -> bool)
    | Hit(hit: Enemy -> bool)

  /** An examined enemy either stays (possibly updated) or is spliced out. */
  datatype Outcome = Stay(enemy: Enemy) | Drop(enemy: Enemy)

  /** The body of the `forEach` callback for one enemy. */
  function Visit(p: Pass, e: Enemy): Outcome
  {
    match p
    case Contact(advance, touches) =>
      var moved := e.(pos := advance(e));
      if touches(moved) then Drop(moved) else Stay(moved)
    case Hit(hit) =>
      if hit(e) then
        var struck := e.(hp := e.hp - 1);
        if struck.hp <= 0 then Drop(struck) else Stay(struck)
      else Stay(e)
  }

  /** Why a pass removes an enemy: contact with the player after moving, or
      no hit points left after a click. */
  predicate Removes(p: Pass, e: Enemy)
  {
    match p
    case Contact(_, touches) => touches(e)
    case Hit(_) => e.hp <= 0
  }

  datatype SweepResult = SweepResult(kept: seq<Enemy>, removed: seq<Enemy>)

  /** The list after the pass and the enemies it removed, in order. When the
      head is removed, the enemy after it takes its index and is passed over
      unchanged; the walk resumes two places further on. */
  function Sweep(s: seq<Enemy>, p: Pass): (r: SweepResult)
    ensures |r.kept| + |r.removed| == |s|
    decreases |s|
  {
    if s == [] then SweepResult([], [])
    else match Visit(p, s[0])
      case Stay(e) =>
        var rest := Sweep(s[1..], p);
        SweepResult([e] + rest.kept, rest.removed)
      case Drop(e) =>
        if |s| == 1 then SweepResult([], [e])
        else
          var rest := Sweep(s[2..], p);
          SweepResult([s[1]] + rest.kept, [e] + rest.removed)
  }

  /** Total damage of a list of enemies. */
  function DamageOf(s: seq<Enemy>): (d: int)
    ensures (forall i :: 0 <= i < |s| ==> 0 <= s[i].damage) ==> 0 <= d
  {
    if s == [] then 0 else s[0].damage + DamageOf(s[1..])
  }

  /** Total reward of a list of enemies. */
  function PointsOf(s: seq<Enemy>): (t: int)
    ensures (forall i :: 0 <= i < |s| ==> 0 <= s[i].points) ==> 0 <= t
  {
    if s == [] then 0 else s[0].points + PointsOf(s[1..])
  }

  /** Progress of a walk that is about to look at index `k` of the current
      list `cur`: the part already settled, and the result of the pass on
      the part not yet looked at. Once an enemy at the end is removed, `k`
      runs past the shortened list and everything is settled. */
  ghost function Settled(cur: seq<Enemy>, k: nat): seq<Enemy>
  {
    if k <= |cur| then cur[..k] else cur
  }

  ghost function Pending(cur: seq<Enemy>, k: nat, p: Pass): SweepResult
  {
    if k <= |cur| then Sweep(cur[k..], p) else SweepResult([], [])
  }

  /** Before the walk nothing is settled; after it nothing is pending. */
  lemma WalkEnds(cur: seq<Enemy>, p: Pass)
    ensures Settled(cur, 0) == [] && Pending(cur, 0, p) == Sweep(cur, p)
    ensures Settled(cur, |cur|) == cur && Pending(cur, |cur|, p) == SweepResult([], [])
  {
    assert cur[0..] == cur;
  }

  /** The walk at index `k` keeps the visited enemy in place. */
  lemma StayStep(before: seq<Enemy>, k: nat, p: Pass)
    requires k < |before| && Visit(p, before[k]).Stay?
    ensures var after := before[k := Visit(p, before[k]).enemy];
            Settled(after, k + 1) + Pending(after, k + 1, p).kept == Settled(before, k) + Pending(before, k, p).kept &&
            Pending(after, k + 1, p).removed == Pending(before, k, p).removed
  {
    var after := before[k := Visit(p, before[k]).enemy];
    assert before[k..][0] == before[k];
    assert before[k..][1..] == before[k + 1..] == after[k + 1..];
    assert after[..k + 1] == before[..k] + [Visit(p, before[k]).enemy];
  }

  /** The walk at index `k` splices out the visited enemy, so that the next
      index holds what was two places on. */
  lemma DropStep(before: seq<Enemy>, k: nat, p: Pass)
    requires k < |before| && Visit(p, before[k]).Drop?
    ensures var after := before[..k] + before[k + 1..];
            var e := Visit(p, before[k]).enemy;
            Settled(after, k + 1) + Pending(after, k + 1, p).kept == Settled(before, k) + Pending(before, k, p).kept &&
            Pending(before, k, p).removed == [e] + Pending(after, k + 1, p).removed &&
            DamageOf(Pending(before, k, p).removed) == e.damage + DamageOf(Pending(after, k + 1, p).removed) &&
            PointsOf(Pending(before, k, p).removed) == e.points + PointsOf(Pending(after, k + 1, p).removed)
  {
    var after := before[..k] + before[k + 1..];
    var e := Visit(p, before[k]).enemy;
    assert before[k..][0] == before[k];
    var r := Pending(before, k, p).removed;
    if k + 1 < |before| {
      assert before[k..][1] == before[k + 1];
      assert before[k..][2..] == before[k + 2..] == after[k + 1..];
      assert after[..k + 1] == before[..k] + [before[k + 1]];
    } else {
      assert after == before[..k];
    }
    assert r[1..] == Pending(after, k + 1, p).removed;
  }

  /** What happens to one enemy of the list during a pass. */
  datatype Fate = Stayed | Dropped | Skipped

  /** Reference view of a pass, one enemy at a time: an enemy right after a
      dropped one is skipped; any other enemy is examined, and dropped
      exactly when its visit says so. */
  ghost function FatesFrom(s: seq<Enemy>, p: Pass, afterDrop: bool): (f: seq<Fate>)
    ensures |f| == |s|
  {
    if s == [] then []
    else if afterDrop then [Skipped] + FatesFrom(s[1..], p, false)
    else if Visit(p, s[0]).Drop? then [Dropped] + FatesFrom(s[1..], p, true)
    else [Stayed] + FatesFrom(s[1..], p, false)
  }

  ghost function Fates(s: seq<Enemy>, p: Pass): seq<Fate>
  {
    FatesFrom(s, p, false)
  }

  /** The list that remains given each enemy's fate: a stayed enemy in its
      visited form, a skipped one as it was, a dropped one not at all. */
  ghost function KeptBy(s: seq<Enemy>, p: Pass, f: seq<Fate>): seq<Enemy>
    requires |f| == |s|
  {
    if s == [] then []
    else
      (match f[0]
       case Stayed => [Visit(p, s[0]).enemy]
       case Skipped => [s[0]]
       case Dropped => [])
      + KeptBy(s[1..], p, f[1..])
  }

  /** The removed enemies given each enemy's fate, in list order. */
  ghost function DroppedBy(s: seq<Enemy>, p: Pass, f: seq<Fate>): seq<Enemy>
    requires |f| == |s|
  {
    if s == [] then []
    else (if f[0] == Dropped then [Visit(p, s[0]).enemy] else []) + DroppedBy(s[1..], p, f[1..])
  }

  /** Index form of the fates: the enemy at `i` is skipped exactly when the
      one before it was dropped (the first is skipped only after a drop
      before the list began), and it is dropped exactly when it is examined
      and its visit removes it. */
  lemma {:induction false} FateAt(s: seq<Enemy>, p: Pass, afterDrop: bool, i: nat)
    requires i < |s|
    ensures var f := FatesFrom(s, p, afterDrop);
            (f[i] == Skipped <==> (if i == 0 then afterDrop else f[i - 1] == Dropped)) &&
            (f[i] == Dropped <==> f[i] != Skipped && Visit(p, s[i]).Drop?)
  {
    if i > 0 {
      var next := !afterDrop && Visit(p, s[0]).Drop?;
      FateAt(s[1..], p, next, i - 1);
      assert s[1..][i - 1] == s[i];
    }
  }

  /** The splice-while-walking pass agrees with the one-enemy-at-a-time
      reference: it keeps and removes exactly the enemies their fates say. */
  lemma {:induction false} SweepFollowsFates(s: seq<Enemy>, p: Pass)
    ensures Sweep(s, p).kept == KeptBy(s, p, Fates(s, p))
    ensures Sweep(s, p).removed == DroppedBy(s, p, Fates(s, p))
    decreases |s|
  {
    if s != [] {
      var f := Fates(s, p);
      match Visit(p, s[0])
      case Stay(e) =>
        SweepFollowsFates(s[1..], p);
        assert f[1..] == Fates(s[1..], p);
      case Drop(e) =>
        if |s| > 1 {
          SweepFollowsFates(s[2..], p);
          assert f[1..] == FatesFrom(s[1..], p, true);
          assert f[1..][1..] == Fates(s[2..], p);
          assert s[1..][1..] == s[2..];
        }
    }
  }

  /** Every enemy a pass removes was removed for its pass's reason. */
  lemma {:induction false} RemovedForCause(s: seq<Enemy>, p: Pass)
    ensures forall i :: 0 <= i < |Sweep(s, p).removed| ==> Removes(p, Sweep(s, p).removed[i])
    decreases |s|
  {
    if s != [] && |s| > 1 && Visit(p, s[0]).Drop? {
      RemovedForCause(s[2..], p);
    } else if s != [] && Visit(p, s[0]).Stay? {
      RemovedForCause(s[1..], p);
    }
  }

  /** Passes keep the list live: every enemy that remains has hit points
      left, and every removed one still carries a positive damage and reward. */
  lemma {:induction false} SweepKeepsLive(s: seq<Enemy>, p: Pass)
    requires forall i :: 0 <= i < |s| ==> Live(s[i])
    ensures forall i :: 0 <= i < |Sweep(s, p).kept| ==> Live(Sweep(s, p).kept[i])
    ensures forall i :: 0 <= i < |Sweep(s, p).removed| ==>
              0 < Sweep(s, p).removed[i].damage && 0 < Sweep(s, p).removed[i].points
    decreases |s|
  {
    if s != [] {
      if Visit(p, s[0]).Stay? {
        SweepKeepsLive(s[1..], p);
      } else if |s| > 1 {
        SweepKeepsLive(s[2..], p);
      }
    }
  }

  /** A click that hits no enemy leaves the list as it was and removes nothing. */
  lemma {:induction false} MissedClickKeepsAll(s: seq<Enemy>, hit: Enemy -> bool)
    requires forall i :: 0 <= i < |s| ==> !hit(s[i])
    ensures Sweep(s, Hit(hit)) == SweepResult(s, [])
    decreases |s|
  {
    if s != [] {
      MissedClickKeepsAll(s[1..], hit);
    }
  }

  /** Two enemies side by side that both touch the player: the first is
      removed, the second is shifted into its index and survives unmoved. */
  lemma AdjacentContactsOneRemoved(a: Enemy, b: Enemy, advance: Enemy -> Pos, touches: Enemy -> bool)
    requires touches(a.(pos := advance(a))) && touches(b.(pos := advance(b)))
    ensures Sweep([a, b], Contact(advance, touches)) == SweepResult([b], [a.(pos := advance(a))])
  {
  }
}
