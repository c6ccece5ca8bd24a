/**
  Polynomial identities behind the quaternion lemmas, stated over plain real
  numbers. Each takes the components of intermediate products as parameters
  tied to their defining polynomials, so that the solver sees one identity
  between expanded polynomials at a time.
*/
module HamiltonIdentities {

  /** Component w of (a * b) * c equals component w of a * (b * c). */
  lemma AssociativeW(
    aw: real, ax: real, ay: real, az: real,
    bw: real, bx: real, by_: real, bz: real,
    cw: real, cx: real, cy: real, cz: real,
    abw: real, abx: real, aby: real, abz: real,
    bcw: real, bcx: real, bcy: real, bcz: real)
    requires abw == aw * bw - ax * bx - ay * by_ - az * bz
    requires abx == aw * bx + ax * bw + ay * bz - az * by_
    requires aby == aw * by_ + ay * bw + az * bx - ax * bz
    requires abz == aw * bz + az * bw + ax * by_ - ay * bx
    requires bcw == bw * cw - bx * cx - by_ * cy - bz * cz
    requires bcx == bw * cx + bx * cw + by_ * cz - bz * cy
    requires bcy == bw * cy + by_ * cw + bz * cx - bx * cz
    requires bcz == bw * cz + bz * cw + bx * cy - by_ * cx
    ensures abw * cw - abx * cx - aby * cy - abz * cz == aw * bcw - ax * bcx - ay * bcy - az * bcz
  {
  }

  /** Component x of (a * b) * c equals component x of a * (b * c). */
  lemma AssociativeX(
    aw: real, ax: real, ay: real, az: real,
    bw: real, bx: real, by_: real, bz: real,
    cw: real, cx: real, cy: real, cz: real,
    abw: real, abx: real, aby: real, abz: real,
    bcw: real, bcx: real, bcy: real, bcz: real)
    requires abw == aw * bw - ax * bx - ay * by_ - az * bz
    requires abx == aw * bx + ax * bw + ay * bz - az * by_
    requires aby == aw * by_ + ay * bw + az * bx - ax * bz
    requires abz == aw * bz + az * bw + ax * by_ - ay * bx
    requires bcw == bw * cw - bx * cx - by_ * cy - bz * cz
    requires bcx == bw * cx + bx * cw + by_ * cz - bz * cy
    requires bcy == bw * cy + by_ * cw + bz * cx - bx * cz
    requires bcz == bw * cz + bz * cw + bx * cy - by_ * cx
    ensures abw * cx + abx * cw + aby * cz - abz * cy == aw * bcx + ax * bcw + ay * bcz - az * bcy
  {
  }

  /** Component y of (a * b) * c equals component y of a * (b * c). */
  lemma AssociativeY(
    aw: real, ax: real, ay: real, az: real,
    bw: real, bx: real, by_: real, bz: real,
    cw: real, cx: real, cy: real, cz: real,
    abw: real, abx: real, aby: real, abz: real,
    bcw: real, bcx: real, bcy: real, bcz: real)
    requires abw == aw * bw - ax * bx - ay * by_ - az * bz
    requires abx == aw * bx + ax * bw + ay * bz - az * by_
    requires aby == aw * by_ + ay * bw + az * bx - ax * bz
    requires abz == aw * bz + az * bw + ax * by_ - ay * bx
    requires bcw == bw * cw - bx * cx - by_ * cy - bz * cz
    requires bcx == bw * cx + bx * cw + by_ * cz - bz * cy
    requires bcy == bw * cy + by_ * cw + bz * cx - bx * cz
    requires bcz == bw * cz + bz * cw + bx * cy - by_ * cx
    ensures abw * cy + aby * cw + abz * cx - abx * cz == aw * bcy + ay * bcw + az * bcx - ax * bcz
  {
  }

  /** Component z of (a * b) * c equals component z of a * (b * c). */
  lemma AssociativeZ(
    aw: real, ax: real, ay: real, az: real,
    bw: real, bx: real, by_: real, bz: real,
    cw: real, cx: real, cy: real, cz: real,
    abw: real, abx: real, aby: real, abz: real,
    bcw: real, bcx: real, bcy: real, bcz: real)
    requires abw == aw * bw - ax * bx - ay * by_ - az * bz
    requires abx == aw * bx + ax * bw + ay * bz - az * by_
    requires aby == aw * by_ + ay * bw + az * bx - ax * bz
    requires abz == aw * bz + az * bw + ax * by_ - ay * bx
    requires bcw == bw * cw - bx * cx - by_ * cy - bz * cz
    requires bcx == bw * cx + bx * cw + by_ * cz - bz * cy
    requires bcy == bw * cy + by_ * cw + bz * cx - bx * cz
    requires bcz == bw * cz + bz * cw + bx * cy - by_ * cx
    ensures abw * cz + abz * cw + abx * cy - aby * cx == aw * bcz + az * bcw + ax * bcy - ay * bcx
  {
  }

  /** Euler's four-square identity: the squared norm of a product is the product of the squared norms. */
  lemma FourSquares(
    aw: real, ax: real, ay: real, az: real,
    bw: real, bx: real, by_: real, bz: real,
    pw: real, px: real, py: real, pz: real, la: real, lb: real)
    requires la == aw * aw + ax * ax + ay * ay + az * az
    requires lb == bw * bw + bx * bx + by_ * by_ + bz * bz
    requires pw == aw * bw - ax * bx - ay * by_ - az * bz
    requires px == aw * bx + ax * bw + ay * bz - az * by_
    requires py == aw * by_ + ay * bw + az * bx - ax * bz
    requires pz == aw * bz + az * bw + ax * by_ - ay * bx
    ensures pw * pw + px * px + py * py + pz * pz == la * lb
  {
  }

  /**
    The product (yaw * pitch) * roll of three single-axis quaternions, with
    the half-angle cosines and sines of yaw (ca, sa), pitch (cb, sb) and roll
    (cc, sc); p is yaw * pitch.
  */
  lemma EulerProduct(
    ca: real, sa: real, cb: real, sb: real, cc: real, sc: real,
    pw: real, px: real, py: real, pz: real)
    requires pw == ca * cb && px == ca * sb && py == sa * cb && pz == -(sa * sb)
    ensures pw * cc - pz * sc == sa * sb * sc + ca * cb * cc
    ensures px * cc + py * sc == sa * cb * sc + ca * sb * cc
    ensures py * cc - px * sc == sa * cb * cc - ca * sb * sc
    ensures pw * sc + pz * cc == -sa * sb * cc + ca * cb * sc
  {
  }

  /** Scaling every component by s scales the sum of squares by s^2. */
  lemma ScaledSquares(
    w: real, x: real, y: real, z: real, s: real, l: real,
    rw: real, rx: real, ry: real, rz: real)
    requires l == w * w + x * x + y * y + z * z
    requires rw == w * s && rx == x * s && ry == y * s && rz == z * s
    ensures rw * rw + rx * rx + ry * ry + rz * rz == l * (s * s)
  {
  }

  /**
    The trace of the rotation matrix: with s * l == 2 for the sum of squares
    l, the three diagonal entries plus one, times l, equal 4 w^2.
  */
  lemma MatrixTrace(
    w: real, x: real, y: real, z: real, l: real, s: real,
    xx: real, yy: real, zz: real)
    requires l == w * w + x * x + y * y + z * z && s * l == 2.0
    requires xx == x * (x * s) && yy == y * (y * s) && zz == z * (z * s)
    ensures ((1.0 - (yy + zz)) + (1.0 - (xx + zz)) + (1.0 - (xx + yy)) + 1.0) * l == 4.0 * (w * w)
  {
    assert xx * l == x * x * (s * l);
    assert yy * l == y * y * (s * l);
    assert zz * l == z * z * (s * l);
  }

  /** A square scaled by a positive factor is non-negative. */
  lemma ScaledSquareNonNegative(t: real, s: real, p: real)
    requires 0.0 < s && p == t * (t * s)
    ensures 0.0 <= p
  {
    assert p == (t * t) * s;
    assert 0.0 <= t * t;
  }
}
