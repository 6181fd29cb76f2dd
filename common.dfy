/** Values shared by every component of the game logic: the owner tag a
    bullet carries, 2D points, and the scalar helpers of the engine's math
    library (Mathf.Max, Mathf.Clamp, Random.Range bounds). */
module Common {

  /** Who fired a bullet; callers of the bullet set and read this tag. */
  datatype Owner = Player | Enemy

  datatype Vec2 = Vec2(x: real, y: real)

  /** A reference that may be missing (an unassigned or destroyed object). */
  datatype Option<T> = None | Some(value: T)

  /** What a trigger collider touched: a bullet with its owner tag, or
      anything without a Bullet component. */
  datatype Contact = NotABullet | BulletOf(owner: Owner)

  /** Mathf.Max on integers. */
  function MaxInt(a: int, b: int): (r: int)
    ensures r >= a && r >= b
    ensures r == a || r == b
  {
    if a >= b then a else b
  }

  /** Mathf.Max on scalars. */
  function MaxReal(a: real, b: real): (r: real)
    ensures r >= a && r >= b
    ensures r == a || r == b
  {
    if a >= b then a else b
  }

  /** Mathf.Clamp: a value below the minimum becomes the minimum, otherwise a
      value above the maximum becomes the maximum. */
  function Clamp(v: real, lo: real, hi: real): (r: real)
    ensures lo <= hi ==> lo <= r <= hi
    ensures lo <= v <= hi ==> r == v
    ensures r == v || r == lo || r == hi
  {
    if v < lo then lo else if v > hi then hi else v
  }

  /** With ordered limits, clamping a clamped value changes nothing. */
  lemma ClampIdempotent(v: real, lo: real, hi: real)
    requires lo <= hi
    ensures Clamp(Clamp(v, lo, hi), lo, hi) == Clamp(v, lo, hi)
  {
  }

  /** With reversed limits the engine's clamp is not idempotent: the first
      clamp can yield the minimum, which the second clamp then lowers to the
      maximum. An illustration: ClampIdempotent is the general statement for
      ordered limits. */
  lemma ClampReversedLimits()
    ensures Clamp(0.0, 1.0, -1.0) == 1.0
    ensures Clamp(Clamp(0.0, 1.0, -1.0), 1.0, -1.0) == -1.0
  {
  }

  /** `v` lies between the two ends of a range, in either order: the values
      Random.Range(a, b) can return. */
  predicate Between(v: real, a: real, b: real)
  {
    (a <= v <= b) || (b <= v <= a)
  }
}
