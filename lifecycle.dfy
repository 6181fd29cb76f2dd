/** The process-wide active counters of bullets (Bullet.ActiveCount) and of
    enemies (BulletSpawnerEnemy.ActiveCount): incremented when an object is
    enabled, decremented but never below zero when it is disabled. */
module Lifecycle {

  /** The counter after an OnEnable. */
  function Enabled(count: int): (r: int)
    ensures r == count + 1
  {
    count + 1
  }

  /** The counter after an OnDisable: Mathf.Max(0, count - 1). */
  function Disabled(count: int): (r: int)
    ensures r >= 0
    ensures count >= 1 ==> r == count - 1
    ensures count <= 1 ==> r == 0
  {
    if count - 1 >= 0 then count - 1 else 0
  }

  /** One enable or disable callback of the object with the given identity. */
  datatype Event = OnEnable(id: nat) | OnDisable(id: nat)

  function Step(count: int, e: Event): int
  {
    match e
    case OnEnable(_) => Enabled(count)
    case OnDisable(_) => Disabled(count)
  }

  /** The counter after a sequence of callbacks. */
  function Replay(count: int, evs: seq<Event>): int
    decreases |evs|
  {
    if evs == [] then count else Replay(Step(count, evs[0]), evs[1..])
  }

  /** The objects enabled after a sequence of callbacks. */
  function LiveAfter(live: set<nat>, evs: seq<Event>): set<nat>
    decreases |evs|
  {
    if evs == [] then live
    else
      match evs[0]
      case OnEnable(id) => LiveAfter(live + {id}, evs[1..])
      case OnDisable(id) => LiveAfter(live - {id}, evs[1..])
  }

  /** Every disable follows a matching enable: an object is enabled only
      while disabled and disabled only while enabled. */
  predicate Matched(live: set<nat>, evs: seq<Event>)
    decreases |evs|
  {
    evs == [] ||
    match evs[0]
    case OnEnable(id) => id !in live && Matched(live + {id}, evs[1..])
    case OnDisable(id) => id in live && Matched(live - {id}, evs[1..])
  }

  /** Starting from a non-negative count, no sequence of callbacks, matched or
      not, drives the counter below zero. */
  lemma {:induction false} ReplayNeverNegative(count: int, evs: seq<Event>)
    requires count >= 0
    ensures Replay(count, evs) >= 0
    decreases |evs|
  {
    if evs != [] {
      ReplayNeverNegative(Step(count, evs[0]), evs[1..]);
    }
  }

  /** When every disable follows a matching enable, the counter equals the
      number of enabled objects: the clamp at zero never takes effect. */
  lemma {:induction false} ReplayCountsLive(live: set<nat>, evs: seq<Event>)
    requires Matched(live, evs)
    ensures Replay(|live|, evs) == |LiveAfter(live, evs)|
    decreases |evs|
  {
    if evs != [] {
      match evs[0]
      case OnEnable(id) =>
        assert |live + {id}| == |live| + 1;
        ReplayCountsLive(live + {id}, evs[1..]);
      case OnDisable(id) =>
        assert |live - {id}| == |live| - 1;
        ReplayCountsLive(live - {id}, evs[1..]);
    }
  }

  /** An unmatched disable of a counter already at zero leaves it at zero:
      an illustration of Disabled's clamp, which ReplayNeverNegative states
      for every run. */
  lemma UnmatchedDisableClamps(id: nat)
    ensures Replay(0, [OnDisable(id)]) == 0
    ensures LiveAfter({}, [OnDisable(id)]) == {}
  {
  }
}
