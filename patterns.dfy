/** The geometric bullet patterns shared by the boss emitter
    (BulletSpawnerBoss) and the ambient emitter (BulletSpawner): Fan,
    CircleBurst and RoseStar, the settings both emitters expose, and the
    angles of one volley of each pattern. Angles are in degrees, relative to
    the emitter's own rotation. */
module Patterns {
  import opened Common

  datatype SpawnerType = Fan | CircleBurst | RoseStar

  /** The serialized settings of an emitter. The sway of the fan and the
      radius of the rose are sines of the clock and are supplied as inputs;
      the settings that only feed them are not listed. */
  datatype EmitterConfig = EmitterConfig(
    hasBullet: bool,          // a bullet prefab is assigned
    bulletLife: real,
    speed: real,
    firingRate: real,         // period of the Fan pattern
    switchInterval: real,
    cycle: seq<SpawnerType>,
    clearOnSwitch: bool,
    angleOffset: real,
    fanCount: int,
    fanSpread: real,
    circleCount: int,
    circleFiringRate: real,
    roseSamples: int,
    roseSpin: real,
    roseFiringRate: real,
    roseRingsPerTick: int)

  /** The firing period of the active pattern. */
  function FiringPeriod(cfg: EmitterConfig, p: SpawnerType): (r: real)
    ensures p == CircleBurst ==> r == cfg.circleFiringRate
    ensures p == RoseStar ==> r == cfg.roseFiringRate
    ensures p == Fan ==> r == cfg.firingRate
  {
    match p
    case CircleBurst => cfg.circleFiringRate
    case RoseStar => cfg.roseFiringRate
    case Fan => cfg.firingRate
  }

  /** `n` angles starting at `first`, `step` apart. */
  function Progression(n: int, first: real, step: real): (r: seq<real>)
    requires n >= 0
    ensures |r| == n
    ensures forall i :: 0 <= i < n ==> r[i] == first + step * i as real
  {
    seq(n, i requires 0 <= i < n => first + step * i as real)
  }

  lemma MulSucc(step: real, i: int)
    ensures step * (i + 1) as real == step * i as real + step
  {
  }

  lemma DivMul(a: real, b: real)
    requires b != 0.0
    ensures (a / b) * b == a
  {
  }

  lemma MulLess(step: real, i: int, j: int)
    requires step > 0.0 && i < j
    ensures step * i as real < step * j as real
  {
  }

  /** Consecutive angles of a progression are exactly one step apart. */
  lemma ProgressionSpaced(n: int, first: real, step: real)
    requires n >= 0
    ensures forall i :: 0 <= i < n - 1 ==>
      Progression(n, first, step)[i + 1] - Progression(n, first, step)[i] == step
  {
    var r := Progression(n, first, step);
    forall i | 0 <= i < n - 1 ensures r[i + 1] - r[i] == step {
      MulSucc(step, i);
    }
  }

  /** A progression of `n` angles whose step is 360 / n spans less than one
      full turn, in increasing order. */
  lemma ProgressionWithinTurn(n: int, first: real, step: real)
    requires n > 0 && step == 360.0 / n as real
    ensures forall i :: 0 <= i < n ==> first <= Progression(n, first, step)[i] < first + 360.0
    ensures forall i, j :: 0 <= i < j < n ==> Progression(n, first, step)[i] < Progression(n, first, step)[j]
  {
    var r := Progression(n, first, step);
    DivMul(360.0, n as real);
    assert step * n as real == 360.0;
    assert step > 0.0;
    forall i | 0 <= i < n ensures first <= r[i] < first + 360.0 {
      MulLess(step, i, n);
      if i > 0 {
        MulLess(step, 0, i);
      }
    }
    forall i, j | 0 <= i < j < n ensures r[i] < r[j] {
      MulLess(step, i, j);
    }
  }

  /** Fan: one shot at the centre when at most one shot is configured,
      otherwise `count` shots spread evenly from centre - spread/2 to
      centre + spread/2, where the centre is the offset plus the sway. */
  function FanAngles(count: int, spread: real, offset: real, sway: real): (r: seq<real>)
    ensures count <= 1 ==> r == [offset + sway]
    ensures count > 1 ==> |r| == count
    ensures count > 1 ==> r[0] == offset + sway - spread / 2.0
    ensures count > 1 ==> r[count - 1] == offset + sway + spread / 2.0
    ensures count > 1 ==> forall i :: 0 <= i < count - 1 ==> r[i + 1] - r[i] == spread / (count - 1) as real
  {
    if count <= 1 then [offset + sway]
    else
      var step := spread / (count - 1) as real;
      var start := -spread * 0.5;
      ProgressionSpaced(count, start + offset + sway, step);
      DivMul(spread, (count - 1) as real);
      Progression(count, start + offset + sway, step)
  }

  /** The fan is symmetric about its centre. */
  lemma FanSymmetric(count: int, spread: real, offset: real, sway: real, i: int)
    requires count > 1 && 0 <= i < count
    ensures var r := FanAngles(count, spread, offset, sway);
      r[i] + r[count - 1 - i] == 2.0 * (offset + sway)
  {
    var step := spread / (count - 1) as real;
    assert step * i as real + step * (count - 1 - i) as real == step * (count - 1) as real;
    DivMul(spread, (count - 1) as real);
  }

  /** A one-shot fan ignores the spread. */
  lemma FanSingleIgnoresSpread(spread1: real, spread2: real, offset: real, sway: real)
    ensures FanAngles(1, spread1, offset, sway) == FanAngles(1, spread2, offset, sway) == [offset + sway]
  {
  }

  /** CircleBurst: `count` shots at offset + i * 360 / count, none when the
      count is not positive; they point in distinct directions within one
      turn starting at the offset. */
  function CircleAngles(count: int, offset: real): (r: seq<real>)
    ensures count <= 0 ==> r == []
    ensures count > 0 ==> |r| == count && r[0] == offset
    ensures count > 0 ==> forall i :: 0 <= i < count - 1 ==> r[i + 1] - r[i] == 360.0 / count as real
    ensures forall i :: 0 <= i < |r| ==> offset <= r[i] < offset + 360.0
    ensures forall i, j :: 0 <= i < j < |r| ==> r[i] < r[j]
  {
    if count <= 0 then []
    else
      ProgressionSpaced(count, offset, 360.0 / count as real);
      ProgressionWithinTurn(count, offset, 360.0 / count as real);
      Progression(count, offset, 360.0 / count as real)
  }

  /** A burst of eight with no offset fires at every multiple of 45
      degrees: a concrete instance of CircleAngles, as an illustration. */
  lemma CircleOfEight()
    ensures CircleAngles(8, 0.0) == [0.0, 45.0, 90.0, 135.0, 180.0, 225.0, 270.0, 315.0]
  {
    var r := CircleAngles(8, 0.0);
    assert r[0] == 0.0 && r[1] == 45.0 && r[2] == 90.0 && r[3] == 135.0;
    assert r[4] == 180.0 && r[5] == 225.0 && r[6] == 270.0 && r[7] == 315.0;
  }

  /** One ring of a rose: `samples` shots at offset + (i * 360 / samples + phase). */
  function RoseRing(samples: int, offset: real, phase: real): (r: seq<real>)
    requires samples > 0
    ensures |r| == samples
    ensures forall i :: 0 <= i < samples ==> r[i] == offset + (i as real * (360.0 / samples as real) + phase)
  {
    Progression(samples, offset + phase, 360.0 / samples as real)
  }

  /** `s` repeated `n` times. */
  function Repeat(s: seq<real>, n: nat): (r: seq<real>)
    ensures |r| == n * |s|
  {
    if n == 0 then [] else s + Repeat(s, n - 1)
  }

  /** Entry `i` of copy `j` of a repetition is entry `i` of the original. */
  lemma {:induction false} RepeatAt(s: seq<real>, n: nat, j: nat, i: nat)
    requires j < n && i < |s|
    ensures j * |s| + i < |Repeat(s, n)| && Repeat(s, n)[j * |s| + i] == s[i]
  {
    if j > 0 {
      RepeatAt(s, n - 1, j - 1, i);
      assert (j - 1) * |s| + i == j * |s| + i - |s|;
    }
  }

  /** RoseStar: max(1, rings) rings of `samples` shots, none when the number
      of samples is not positive. */
  function RoseAngles(samples: int, rings: int, offset: real, phase: real): (r: seq<real>)
    ensures samples <= 0 ==> r == []
    ensures samples > 0 ==> |r| == MaxInt(1, rings) * samples
  {
    if samples <= 0 then [] else Repeat(RoseRing(samples, offset, phase), MaxInt(1, rings))
  }

  /** Shot `i` of ring `ring` of one rose volley is at
      offset + (i * 360 / samples + phase), whatever the ring: the phase only
      changes between frames, so extra rings repeat the first ring. */
  lemma RoseRingsRepeat(samples: int, rings: int, offset: real, phase: real, ring: nat, i: nat)
    requires samples > 0 && ring < MaxInt(1, rings) && i < samples
    ensures ring * samples + i < |RoseAngles(samples, rings, offset, phase)|
    ensures RoseAngles(samples, rings, offset, phase)[ring * samples + i]
         == offset + (i as real * (360.0 / samples as real) + phase)
  {
    RepeatAt(RoseRing(samples, offset, phase), MaxInt(1, rings), ring, i);
  }

  /** The angles of one volley of pattern `p`. */
  function VolleyAngles(cfg: EmitterConfig, p: SpawnerType, sway: real, rosePhase: real): (r: seq<real>)
    ensures p == Fan ==> r == FanAngles(cfg.fanCount, cfg.fanSpread, cfg.angleOffset, sway)
    ensures p == CircleBurst ==> r == CircleAngles(cfg.circleCount, cfg.angleOffset)
    ensures p == RoseStar ==> r == RoseAngles(cfg.roseSamples, cfg.roseRingsPerTick, cfg.angleOffset, rosePhase)
  {
    match p
    case Fan => FanAngles(cfg.fanCount, cfg.fanSpread, cfg.angleOffset, sway)
    case CircleBurst => CircleAngles(cfg.circleCount, cfg.angleOffset)
    case RoseStar => RoseAngles(cfg.roseSamples, cfg.roseRingsPerTick, cfg.angleOffset, rosePhase)
  }

  /** How many shots a volley holds. */
  lemma VolleySize(cfg: EmitterConfig, p: SpawnerType, sway: real, rosePhase: real)
    ensures var n := |VolleyAngles(cfg, p, sway, rosePhase)|;
      match p
      case Fan => n == MaxInt(1, cfg.fanCount)
      case CircleBurst => n == MaxInt(0, cfg.circleCount)
      case RoseStar => n == if cfg.roseSamples <= 0 then 0 else MaxInt(1, cfg.roseRingsPerTick) * cfg.roseSamples
  {
  }

  /** The next index of a pattern cycle wraps around and stays in range. */
  function NextCycleIndex(i: int, len: int): (r: int)
    requires len > 0
    ensures 0 <= r < len
    ensures 0 <= i < len - 1 ==> r == i + 1
    ensures i == len - 1 ==> r == 0
  {
    (i + 1) % len
  }

  /** The cycle index after `k` switches from `i`. */
  function Iterate(i: int, len: int, k: nat): (r: int)
    requires len > 0 && 0 <= i < len
    ensures 0 <= r < len
  {
    if k == 0 then i else NextCycleIndex(Iterate(i, len, k - 1), len)
  }

  /** From index 0 the switches visit the cycle's entries in order... */
  lemma {:induction false} CycleInOrder(len: int, k: nat)
    requires 0 <= k < len
    ensures Iterate(0, len, k) == k
  {
    if k > 0 {
      CycleInOrder(len, k - 1);
    }
  }

  /** ...and after `len` switches start over. */
  lemma {:induction false} CyclePeriodic(len: int, k: nat)
    requires len > 0
    ensures Iterate(0, len, len + k) == Iterate(0, len, k)
  {
    if k == 0 {
      CycleInOrder(len, len - 1);
    } else {
      CyclePeriodic(len, k - 1);
    }
  }
}
