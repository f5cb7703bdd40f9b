/**
 * Value-level model of the vector and matrix algebra of bmath.h.
 *
 * A vec2/vec3/vec4 is a record whose fields x, y, z, w are the C array's entries 0, 1, 2, 3;
 * a mat3/mat4 is a record of rows r0.. where `rk` is the C sub-array `m[k]`, so that the C
 * entry `m[k][i]` is field i of row k. Row 3 of a mat4 is the translation row, and a matrix
 * acts on a vector column-wise: `res[i] = sum_k m[k][i] * v[k]`.
 *
 * The transcendental and square-root functions of libm are not modelled; they come in as
 * the fields of a `Libm` value, so every fact proved here holds whatever they return.
 */
module Linear {

  datatype Vec2 = Vec2(x: real, y: real)
  datatype Vec3 = Vec3(x: real, y: real, z: real)
  datatype Vec4 = Vec4(x: real, y: real, z: real, w: real)
  datatype Mat3 = Mat3(r0: Vec3, r1: Vec3, r2: Vec3)
  datatype Mat4 = Mat4(r0: Vec4, r1: Vec4, r2: Vec4, r3: Vec4)

  /** sinf, cosf, tanf and sqrtf, left uninterpreted. */
  datatype Libm = Libm(sinf: real -> real, cosf: real -> real, tanf: real -> real, sqrtf: real -> real)

  /** The square-root field really is a square root at `x`. */
  predicate IsSqrtAt(libm: Libm, x: real) {
    libm.sqrtf(x) >= 0.0 && libm.sqrtf(x) * libm.sqrtf(x) == x
  }

  const PI32: real := 3.14159265359

  /** to_radians_32 */
  function ToRadians(deg: real): real {
    deg * PI32 / 180.0
  }

  const Zero3: Vec3 := Vec3(0.0, 0.0, 0.0)

  // ---------------------------------------------------------------- vec3

  function Dot(a: Vec3, b: Vec3): real {
    a.x * b.x + a.y * b.y + a.z * b.z
  }

  function Norm2(v: Vec3): real {
    Dot(v, v)
  }

  function Norm(v: Vec3, libm: Libm): real {
    libm.sqrtf(Norm2(v))
  }

  /** vec3_mul: component-wise product. */
  function Mul3(a: Vec3, b: Vec3): Vec3 {
    Vec3(a.x * b.x, a.y * b.y, a.z * b.z)
  }

  function Scale3(v: Vec3, s: real): Vec3 {
    Vec3(v.x * s, v.y * s, v.z * s)
  }

  /** vec3_add accumulates `v` into `dest`. */
  function Add3(dest: Vec3, v: Vec3): Vec3 {
    Vec3(dest.x + v.x, dest.y + v.y, dest.z + v.z)
  }

  /** vec3_sub subtracts `v` from `dest`. */
  function Sub3(dest: Vec3, v: Vec3): Vec3 {
    Vec3(dest.x - v.x, dest.y - v.y, dest.z - v.z)
  }

  function Cross(a: Vec3, b: Vec3): Vec3 {
    Vec3(a.y * b.z - a.z * b.y,
         a.z * b.x - a.x * b.z,
         a.x * b.y - a.y * b.x)
  }

  /** vec3_normalize / vec3_normalize_to: a zero norm gives the zero vector instead of a division. */
  function NormalizeTo(v: Vec3, libm: Libm): Vec3 {
    var norm := Norm(v, libm);
    if norm == 0.0 then Zero3 else Scale3(v, 1.0 / norm)
  }

  /** vec3_crossn */
  function CrossN(a: Vec3, b: Vec3, libm: Libm): Vec3 {
    NormalizeTo(Cross(a, b), libm)
  }

  // ---------------------------------------------------------------- vec4

  /** vec4_muladds: `dest += a * s`. */
  function MulAdds4(dest: Vec4, a: Vec4, s: real): Vec4 {
    Vec4(dest.x + a.x * s, dest.y + a.y * s, dest.z + a.z * s, dest.w + a.w * s)
  }

  function Scale4(v: Vec4, s: real): Vec4 {
    Vec4(v.x * s, v.y * s, v.z * s, v.w * s)
  }

  function Add4(a: Vec4, b: Vec4): Vec4 {
    Vec4(a.x + b.x, a.y + b.y, a.z + b.z, a.w + b.w)
  }

  /** The combination r0 * v.x + r1 * v.y + r2 * v.z + r3 * v.w of four rows. */
  function Combine4(r0: Vec4, r1: Vec4, r2: Vec4, r3: Vec4, v: Vec4): Vec4 {
    Add4(Add4(Add4(Scale4(r0, v.x), Scale4(r1, v.y)), Scale4(r2, v.z)), Scale4(r3, v.w))
  }

  // ---------------------------------------------------------------- mat3

  /** mat3_translate: row 2 gains v.x * row 0 + v.y * row 1. */
  function Mat3Translate(m: Mat3, v: Vec2): Mat3 {
    m.(r2 := Add3(Add3(Scale3(m.r0, v.x), Scale3(m.r1, v.y)), m.r2))
  }

  /** mat3_rotate: rows 0 and 1 are turned by the angle, row 2 is left alone. */
  function Mat3Rotate(m: Mat3, angle: real, libm: Libm): Mat3 {
    var s := libm.sinf(angle);
    var c := libm.cosf(angle);
    m.(r0 := Add3(Scale3(m.r0, c), Scale3(m.r1, s)),
       r1 := Add3(Scale3(m.r0, -s), Scale3(m.r1, c)))
  }

  /** mat3_scale: rows 0 and 1 are scaled by v.x and v.y. */
  function Mat3Scale(m: Mat3, v: Vec2): Mat3 {
    m.(r0 := Scale3(m.r0, v.x), r1 := Scale3(m.r1, v.y))
  }

  // ---------------------------------------------------------------- mat4

  const Identity4: Mat4 :=
    Mat4(Vec4(1.0, 0.0, 0.0, 0.0),
         Vec4(0.0, 1.0, 0.0, 0.0),
         Vec4(0.0, 0.0, 1.0, 0.0),
         Vec4(0.0, 0.0, 0.0, 1.0))

  const Zero4: Mat4 :=
    Mat4(Vec4(0.0, 0.0, 0.0, 0.0),
         Vec4(0.0, 0.0, 0.0, 0.0),
         Vec4(0.0, 0.0, 0.0, 0.0),
         Vec4(0.0, 0.0, 0.0, 0.0))

  function Dot4(a: Vec4, b: Vec4): real {
    a.x * b.x + a.y * b.y + a.z * b.z + a.w * b.w
  }

  /** Entry i of every row: (m[0][i], m[1][i], m[2][i], m[3][i]). */
  function Column(m: Mat4, i: nat): Vec4
    requires i < 4
  {
    if i == 0 then Vec4(m.r0.x, m.r1.x, m.r2.x, m.r3.x)
    else if i == 1 then Vec4(m.r0.y, m.r1.y, m.r2.y, m.r3.y)
    else if i == 2 then Vec4(m.r0.z, m.r1.z, m.r2.z, m.r3.z)
    else Vec4(m.r0.w, m.r1.w, m.r2.w, m.r3.w)
  }

  /** The scalar reference form of mat4_mulv4: `res[i] = sum_k m[k][i] * v[k]`. */
  function Mulv4(m: Mat4, v: Vec4): Vec4 {
    Vec4(Dot4(Column(m, 0), v), Dot4(Column(m, 1), v), Dot4(Column(m, 2), v), Dot4(Column(m, 3), v))
  }

  /** mat4_mulv3 as its active branch computes it: extend with `last`, transform, drop w. */
  function Mulv3(m: Mat4, last: real, v: Vec3): Vec3 {
    var res := Mulv4(m, Vec4(v.x, v.y, v.z, last));
    Vec3(res.x, res.y, res.z)
  }

  /** mat4_translate: three vec4_muladds into row 3, in the source's order. */
  function Translate4(m: Mat4, v: Vec3): Mat4 {
    m.(r3 := MulAdds4(MulAdds4(MulAdds4(m.r3, m.r0, v.x), m.r1, v.y), m.r2, v.z))
  }

  /**
   * mat4_mul: row k of the product is m1 applied to row k of m2,
   * that is `dest[k][i] = sum_j m1[j][i] * m2[k][j]`.
   */
  function Mul4(m1: Mat4, m2: Mat4): Mat4 {
    Mat4(Mulv4(m1, m2.r0), Mulv4(m1, m2.r1), Mulv4(m1, m2.r2), Mulv4(m1, m2.r3))
  }

  /** A row with its w entry replaced by zero. */
  function Linear3(row: Vec4): Vec4 {
    row.(w := 0.0)
  }

  /** mat4_mul_rot: mat4_mul on rows 0-2 reading only m2's upper 3x3; row 3 is m1's. */
  function MulRot4(m1: Mat4, m2: Mat4): Mat4 {
    Mat4(Mulv4(m1, Linear3(m2.r0)), Mulv4(m1, Linear3(m2.r1)), Mulv4(m1, Linear3(m2.r2)), m1.r3)
  }

  /** mat4_rotate_make: the axis-angle (Rodrigues) rotation about the normalised axis. */
  function RotateMake(angle: real, axis: Vec3, libm: Libm): Mat4 {
    var c := libm.cosf(angle);
    var n := NormalizeTo(axis, libm);
    var v := Scale3(n, 1.0 - c);
    var vs := Scale3(n, libm.sinf(angle));
    Mat4(RotationRow(n, v.x, Vec3(c, vs.z, -vs.y)),
         RotationRow(n, v.y, Vec3(-vs.z, c, vs.x)),
         RotationRow(n, v.z, Vec3(vs.y, -vs.x, c)),
         Vec4(0.0, 0.0, 0.0, 1.0))
  }

  /** Row k of the rotation: the normalised axis scaled by v[k], plus the cosine/skew terms d. */
  function RotationRow(n: Vec3, vk: real, d: Vec3): Vec4 {
    var e := Add3(Scale3(n, vk), d);
    Vec4(e.x, e.y, e.z, 0.0)
  }

  /** mat4_rotate */
  function Rotate4(m: Mat4, angle: real, axis: Vec3, libm: Libm): Mat4 {
    MulRot4(m, RotateMake(angle, axis, libm))
  }

  /** mat4_scale_to: rows 0-2 scaled by v.x, v.y, v.z, row 3 copied. */
  function ScaleTo4(m: Mat4, v: Vec3): Mat4 {
    Mat4(Scale4(m.r0, v.x), Scale4(m.r1, v.y), Scale4(m.r2, v.z), m.r3)
  }

  /** mat4_ortho; the division by each extent needs that extent to be nonzero. */
  function Ortho(left: real, right: real, bottom: real, top: real, nearZ: real, farZ: real): Mat4
    requires right != left && top != bottom && farZ != nearZ
  {
    var rl := 1.0 / (right - left);
    var tb := 1.0 / (top - bottom);
    var fn := -1.0 / (farZ - nearZ);
    Mat4(Vec4(2.0 * rl, 0.0, 0.0, 0.0),
         Vec4(0.0, 2.0 * tb, 0.0, 0.0),
         Vec4(0.0, 0.0, -fn, 0.0),
         Vec4(-(right + left) * rl, -(top + bottom) * tb, nearZ * fn, 1.0))
  }

  /** mat4_perspective; tanf(fov / 2), the aspect ratio and near - far must be nonzero. */
  function Perspective(fov: real, aspect: real, near: real, far: real, libm: Libm): Mat4
    requires libm.tanf(fov * 0.5) != 0.0 && aspect != 0.0 && near != far
  {
    var f := 1.0 / libm.tanf(fov * 0.5);
    var fn := 1.0 / (near - far);
    Mat4(Vec4(f / aspect, 0.0, 0.0, 0.0),
         Vec4(0.0, f, 0.0, 0.0),
         Vec4(0.0, 0.0, -far * fn, 1.0),
         Vec4(0.0, 0.0, near * far * fn, 0.0))
  }

  /** The matrix mat4_look_at writes for a given basis (s, u, f) and eye. */
  function View(s: Vec3, u: Vec3, f: Vec3, eye: Vec3): Mat4 {
    Mat4(Vec4(s.x, u.x, f.x, 0.0),
         Vec4(s.y, u.y, f.y, 0.0),
         Vec4(s.z, u.z, f.z, 0.0),
         Vec4(-Dot(s, eye), -Dot(u, eye), -Dot(f, eye), 1.0))
  }

  /** The forward axis of mat4_look_at: normalised centre - eye. */
  function LookAtForward(eye: Vec3, center: Vec3, libm: Libm): Vec3 {
    NormalizeTo(Sub3(center, eye), libm)
  }

  /** The side axis: normalised up x forward. */
  function LookAtSide(eye: Vec3, center: Vec3, up: Vec3, libm: Libm): Vec3 {
    CrossN(up, LookAtForward(eye, center, libm), libm)
  }

  /** The recomputed up axis: forward x side. */
  function LookAtUp(eye: Vec3, center: Vec3, up: Vec3, libm: Libm): Vec3 {
    Cross(LookAtForward(eye, center, libm), LookAtSide(eye, center, up, libm))
  }

  /** mat4_look_at */
  function LookAt(eye: Vec3, center: Vec3, up: Vec3, libm: Libm): Mat4 {
    View(LookAtSide(eye, center, up, libm), LookAtUp(eye, center, up, libm),
         LookAtForward(eye, center, libm), eye)
  }

  /** The homogeneous point (p, 1). */
  function Point(p: Vec3): Vec4 {
    Vec4(p.x, p.y, p.z, 1.0)
  }

  /** The diagonal matrix that mat4_scale_to multiplies by. */
  function Diag4(v: Vec3): Mat4 {
    Mat4(Vec4(v.x, 0.0, 0.0, 0.0),
         Vec4(0.0, v.y, 0.0, 0.0),
         Vec4(0.0, 0.0, v.z, 0.0),
         Vec4(0.0, 0.0, 0.0, 1.0))
  }

  /** No translation and no projective part: column 3 and row 3 are both (0, 0, 0, 1). */
  predicate IsLinearPart(m: Mat4) {
    m.r0.w == 0.0 && m.r1.w == 0.0 && m.r2.w == 0.0 && m.r3 == Vec4(0.0, 0.0, 0.0, 1.0)
  }

  /** An affine transform: column 3 is (0, 0, 0, 1). */
  predicate IsAffine(m: Mat4) {
    m.r0.w == 0.0 && m.r1.w == 0.0 && m.r2.w == 0.0 && m.r3.w == 1.0
  }

  // ================================================================ lemmas

  lemma MulIdentityRight(a: Mat4)
    ensures Mul4(a, Identity4) == a
  {
    Mulv4Basis(a);
  }

  lemma MulIdentityLeft(a: Mat4)
    ensures Mul4(Identity4, a) == a
  {
  }

  /** A matrix sends a vector to the combination of its rows weighted by the vector's entries. */
  lemma Mulv4Combines(m: Mat4, v: Vec4)
    ensures Mulv4(m, v) == Combine4(m.r0, m.r1, m.r2, m.r3, v)
  {
  }

  lemma Dot4Scale(c: Vec4, a: Vec4, t: real)
    ensures Dot4(c, Scale4(a, t)) == Dot4(c, a) * t
  {
  }

  lemma Dot4Add(c: Vec4, a: Vec4, b: Vec4)
    ensures Dot4(c, Add4(a, b)) == Dot4(c, a) + Dot4(c, b)
  {
  }

  /** Transforming is linear: it commutes with scaling ... */
  lemma {:induction false} Mulv4Scales(m: Mat4, a: Vec4, t: real)
    ensures Mulv4(m, Scale4(a, t)) == Scale4(Mulv4(m, a), t)
  {
    Dot4Scale(Column(m, 0), a, t);
    Dot4Scale(Column(m, 1), a, t);
    Dot4Scale(Column(m, 2), a, t);
    Dot4Scale(Column(m, 3), a, t);
  }

  /** ... and with addition. */
  lemma {:induction false} Mulv4Adds(m: Mat4, a: Vec4, b: Vec4)
    ensures Mulv4(m, Add4(a, b)) == Add4(Mulv4(m, a), Mulv4(m, b))
  {
    Dot4Add(Column(m, 0), a, b);
    Dot4Add(Column(m, 1), a, b);
    Dot4Add(Column(m, 2), a, b);
    Dot4Add(Column(m, 3), a, b);
  }

  /** The unit vectors pick out the rows. */
  lemma Mulv4Basis(m: Mat4)
    ensures Mulv4(m, Vec4(1.0, 0.0, 0.0, 0.0)) == m.r0
    ensures Mulv4(m, Vec4(0.0, 1.0, 0.0, 0.0)) == m.r1
    ensures Mulv4(m, Vec4(0.0, 0.0, 1.0, 0.0)) == m.r2
    ensures Mulv4(m, Vec4(0.0, 0.0, 0.0, 1.0)) == m.r3
  {
  }

  /** Transforming by a product is transforming by m2, then by m1. */
  lemma {:induction false} MulComposes(m1: Mat4, m2: Mat4, v: Vec4)
    ensures Mulv4(Mul4(m1, m2), v) == Mulv4(m1, Mulv4(m2, v))
  {
    var s0, s1, s2 := Scale4(m2.r0, v.x), Scale4(m2.r1, v.y), Scale4(m2.r2, v.z);
    Mulv4Combines(Mul4(m1, m2), v);
    Mulv4Scales(m1, m2.r0, v.x);
    Mulv4Scales(m1, m2.r1, v.y);
    Mulv4Scales(m1, m2.r2, v.z);
    Mulv4Scales(m1, m2.r3, v.w);
    Mulv4Adds(m1, s0, s1);
    Mulv4Adds(m1, Add4(s0, s1), s2);
    Mulv4Adds(m1, Add4(Add4(s0, s1), s2), Scale4(m2.r3, v.w));
    Mulv4Combines(m2, v);
  }

  /** mat4_mul is associative. */
  lemma {:induction false} MulAssociative(a: Mat4, b: Mat4, c: Mat4)
    ensures Mul4(Mul4(a, b), c) == Mul4(a, Mul4(b, c))
  {
    MulComposes(a, b, c.r0);
    MulComposes(a, b, c.r1);
    MulComposes(a, b, c.r2);
    MulComposes(a, b, c.r3);
  }

  /** mat4_translate leaves rows 0-2 alone and is post-multiplication by a translation matrix. */
  lemma TranslateIsPostMultiply(m: Mat4, v: Vec3)
    ensures Translate4(m, v).r0 == m.r0 && Translate4(m, v).r1 == m.r1 && Translate4(m, v).r2 == m.r2
    ensures Translate4(Identity4, v).r3 == Point(v)
    ensures Translate4(m, v) == Mul4(m, Translate4(Identity4, v))
  {
    Mulv4Basis(m);
    var t := Translate4(m, v).r3;
    var p := Mulv4(m, Point(v));
    assert t.x == p.x;
    assert t.y == p.y;
    assert t.z == p.z;
    assert t.w == p.w;
  }

  /** Two translations compose into one by the sum of the offsets. */
  lemma {:induction false} TranslateCompose(m: Mat4, a: Vec3, b: Vec3)
    ensures Translate4(Translate4(m, a), b) == Translate4(m, Add3(a, b))
  {
    var ta := Translate4(Identity4, a);
    TranslateIsPostMultiply(m, a);
    TranslateIsPostMultiply(Translate4(m, a), b);
    TranslateIsPostMultiply(m, Add3(a, b));
    Mulv4Basis(Translate4(m, a));
    Mulv4Basis(m);
    assert Mulv4(ta, Point(b)) == Point(Add3(a, b));
    MulComposes(m, ta, Point(b));
  }

  /** mat4_scale_to keeps row 3 and is post-multiplication by the diagonal matrix of v. */
  lemma ScaleToIsPostMultiply(m: Mat4, v: Vec3)
    ensures ScaleTo4(m, v).r3 == m.r3
    ensures ScaleTo4(m, v) == Mul4(m, Diag4(v))
  {
  }

  /** mat4_mul_rot copies row 3 of m1, and it is mat4_mul whenever m2 is a pure linear part. */
  lemma MulRotAgreesWithMul(m1: Mat4, m2: Mat4)
    ensures MulRot4(m1, m2).r3 == m1.r3
    ensures IsLinearPart(m2) ==> MulRot4(m1, m2) == Mul4(m1, m2)
  {
  }

  /** mat4_rotate_make builds a pure linear part, so mat4_rotate equals a full mat4_mul. */
  lemma RotateIsMul(m: Mat4, angle: real, axis: Vec3, libm: Libm)
    ensures IsLinearPart(RotateMake(angle, axis, libm))
    ensures Rotate4(m, angle, axis, libm) == Mul4(m, RotateMake(angle, axis, libm))
    ensures Rotate4(m, angle, axis, libm).r3 == m.r3
  {
    MulRotAgreesWithMul(m, RotateMake(angle, axis, libm));
  }

  /** mat4_mulv3 as written (through mulv4) agrees with its disabled scalar branch. */
  lemma Mulv3ScalarForm(m: Mat4, last: real, v: Vec3)
    ensures Mulv3(m, last, v) ==
      Vec3(m.r0.x * v.x + m.r1.x * v.y + m.r2.x * v.z + m.r3.x * last,
           m.r0.y * v.x + m.r1.y * v.y + m.r2.y * v.z + m.r3.y * last,
           m.r0.z * v.x + m.r1.z * v.y + m.r2.z * v.z + m.r3.z * last)
  {
  }

  /** A point transformed by two affine matrices in turn is transformed by their product. */
  lemma {:induction false} Mulv3Composes(a: Mat4, b: Mat4, p: Vec3)
    requires IsAffine(b)
    ensures Mulv3(a, 1.0, Mulv3(b, 1.0, p)) == Mulv3(Mul4(a, b), 1.0, p)
  {
    assert Point(Mulv3(b, 1.0, p)) == Mulv4(b, Point(p));
    MulComposes(a, b, Point(p));
  }

  /** The origin goes to the translation row. */
  lemma OriginToTranslation(m: Mat4)
    ensures Mulv3(m, 1.0, Zero3) == Vec3(m.r3.x, m.r3.y, m.r3.z)
  {
  }

  /** A zero norm yields the zero vector; the result is always a multiple of the input. */
  lemma NormalizeGuard(v: Vec3, libm: Libm)
    ensures Norm(v, libm) == 0.0 ==> NormalizeTo(v, libm) == Zero3
    ensures v == Zero3 ==> NormalizeTo(v, libm) == Zero3
    ensures exists t: real :: NormalizeTo(v, libm) == Scale3(v, t)
  {
    var norm := Norm(v, libm);
    if norm == 0.0 {
      assert NormalizeTo(v, libm) == Scale3(v, 0.0);
    } else {
      assert NormalizeTo(v, libm) == Scale3(v, 1.0 / norm);
    }
  }

  /** With a true square root, the nonzero-norm branch of normalisation yields unit length. */
  lemma NormalizeUnit(v: Vec3, libm: Libm)
    requires IsSqrtAt(libm, Norm2(v))
    requires Norm(v, libm) != 0.0
    ensures Norm2(NormalizeTo(v, libm)) == 1.0
  {
    var n2 := Norm2(v);
    var n := libm.sqrtf(n2);
    var k := 1.0 / n;
    assert n * k == 1.0;
    calc {
      Norm2(Scale3(v, k));
      (v.x * k) * (v.x * k) + (v.y * k) * (v.y * k) + (v.z * k) * (v.z * k);
      n2 * (k * k);
      (n * n) * (k * k);
      (n * k) * (n * k);
      1.0;
    }
  }

  lemma DotScaleRight(a: Vec3, b: Vec3, t: real)
    ensures Dot(a, Scale3(b, t)) == t * Dot(a, b)
  {
  }

  lemma DotScaleLeft(a: Vec3, b: Vec3, t: real)
    ensures Dot(Scale3(a, t), b) == t * Dot(a, b)
  {
  }

  /** The cross product is orthogonal to both factors. */
  lemma CrossOrthogonal(a: Vec3, b: Vec3)
    ensures Dot(Cross(a, b), a) == 0.0 && Dot(Cross(a, b), b) == 0.0
  {
  }

  /** Normalising does not change which directions a vector is orthogonal to. */
  lemma NormalizeKeepsOrthogonal(v: Vec3, w: Vec3, libm: Libm)
    requires Dot(v, w) == 0.0
    ensures Dot(NormalizeTo(v, libm), w) == 0.0
  {
    NormalizeGuard(v, libm);
    var t: real :| NormalizeTo(v, libm) == Scale3(v, t);
    DotScaleLeft(v, w, t);
  }

  /** The look-at basis is pairwise orthogonal, whatever sqrtf returns. */
  lemma {:induction false} LookAtBasisOrthogonal(eye: Vec3, center: Vec3, up: Vec3, libm: Libm)
    ensures Dot(LookAtSide(eye, center, up, libm), LookAtForward(eye, center, libm)) == 0.0
    ensures Dot(LookAtUp(eye, center, up, libm), LookAtForward(eye, center, libm)) == 0.0
    ensures Dot(LookAtUp(eye, center, up, libm), LookAtSide(eye, center, up, libm)) == 0.0
  {
    var f := LookAtForward(eye, center, libm);
    var s := LookAtSide(eye, center, up, libm);
    CrossOrthogonal(up, f);
    NormalizeKeepsOrthogonal(Cross(up, f), f, libm);
    CrossOrthogonal(f, s);
  }

  /** mat4_look_at: column 3 is (0, 0, 0, 1) and a point at eye + d goes to its basis coordinates. */
  lemma ViewIsChangeOfBasis(s: Vec3, u: Vec3, f: Vec3, eye: Vec3, d: Vec3)
    ensures IsAffine(View(s, u, f, eye))
    ensures Mulv4(View(s, u, f, eye), Point(Add3(eye, d))) == Vec4(Dot(s, d), Dot(u, d), Dot(f, d), 1.0)
  {
  }

  /** mat4_look_at sends the eye to the origin, for any basis vectors. */
  lemma ViewEyeToOrigin(s: Vec3, u: Vec3, f: Vec3, eye: Vec3)
    ensures Mulv4(View(s, u, f, eye), Point(eye)) == Vec4(0.0, 0.0, 0.0, 1.0)
  {
  }

  /** A vector with nonzero norm is its normalisation scaled back by the norm. */
  lemma {:induction false} Denormalize(d: Vec3, libm: Libm)
    requires Norm(d, libm) != 0.0
    ensures d == Scale3(NormalizeTo(d, libm), Norm(d, libm))
  {
    var n := Norm(d, libm);
    var k := 1.0 / n;
    assert k * n == 1.0;
    assert d.x == (d.x * k) * n;
    assert d.y == (d.y * k) * n;
    assert d.z == (d.z * k) * n;
  }

  /** Orthogonality to the normalised direction carries over to the direction itself. */
  lemma {:induction false} OrthogonalToDirection(w: Vec3, d: Vec3, libm: Libm)
    requires Dot(w, NormalizeTo(d, libm)) == 0.0
    requires Norm(d, libm) == 0.0 ==> w == Zero3
    ensures Dot(w, d) == 0.0
  {
    var n := Norm(d, libm);
    if n != 0.0 {
      Denormalize(d, libm);
      DotScaleRight(w, NormalizeTo(d, libm), n);
    }
  }

  /** A degenerate (zero) forward axis makes the side and up axes zero as well. */
  lemma DegenerateBasis(up: Vec3, libm: Libm)
    ensures CrossN(up, Zero3, libm) == Zero3
    ensures Cross(Zero3, Zero3) == Zero3
  {
    assert Cross(up, Zero3) == Zero3;
    NormalizeGuard(Zero3, libm);
  }

  /** The side and up axes of mat4_look_at are orthogonal to the offset centre - eye itself. */
  lemma {:induction false} LookAtAxesOrthogonalToOffset(eye: Vec3, center: Vec3, up: Vec3, libm: Libm)
    ensures Dot(LookAtSide(eye, center, up, libm), Sub3(center, eye)) == 0.0
    ensures Dot(LookAtUp(eye, center, up, libm), Sub3(center, eye)) == 0.0
  {
    var d := Sub3(center, eye);
    var s := LookAtSide(eye, center, up, libm);
    var u := LookAtUp(eye, center, up, libm);
    LookAtBasisOrthogonal(eye, center, up, libm);
    if Norm(d, libm) == 0.0 {
      NormalizeGuard(d, libm);
      DegenerateBasis(up, libm);
    }
    OrthogonalToDirection(s, d, libm);
    OrthogonalToDirection(u, d, libm);
  }

  /** mat4_look_at puts the eye at the origin and the centre on the view's forward axis (x = y = 0). */
  lemma {:induction false} LookAtCenterOnAxis(eye: Vec3, center: Vec3, up: Vec3, libm: Libm)
    ensures Mulv4(LookAt(eye, center, up, libm), Point(eye)) == Vec4(0.0, 0.0, 0.0, 1.0)
    ensures Mulv4(LookAt(eye, center, up, libm), Point(center)).x == 0.0
    ensures Mulv4(LookAt(eye, center, up, libm), Point(center)).y == 0.0
  {
    var d := Sub3(center, eye);
    var f := LookAtForward(eye, center, libm);
    var s := LookAtSide(eye, center, up, libm);
    var u := LookAtUp(eye, center, up, libm);
    assert LookAt(eye, center, up, libm) == View(s, u, f, eye);
    ViewEyeToOrigin(s, u, f, eye);
    assert Add3(eye, d) == center;
    ViewIsChangeOfBasis(s, u, f, eye, d);
    LookAtAxesOrthogonalToOffset(eye, center, up, libm);
  }

  /** mat4_ortho maps the box corner (left, bottom, near) to (-1, -1, 0) and (right, top, far) to (1, 1, 1). */
  lemma OrthoCorners(left: real, right: real, bottom: real, top: real, nearZ: real, farZ: real)
    requires right != left && top != bottom && farZ != nearZ
    ensures Mulv4(Ortho(left, right, bottom, top, nearZ, farZ), Vec4(left, bottom, nearZ, 1.0)) == Vec4(-1.0, -1.0, 0.0, 1.0)
    ensures Mulv4(Ortho(left, right, bottom, top, nearZ, farZ), Vec4(right, top, farZ, 1.0)) == Vec4(1.0, 1.0, 1.0, 1.0)
  {
    var rl := 1.0 / (right - left);
    var tb := 1.0 / (top - bottom);
    var fn := -1.0 / (farZ - nearZ);
    assert rl * (right - left) == 1.0;
    assert tb * (top - bottom) == 1.0;
    assert fn * (farZ - nearZ) == -1.0;
    calc {
      2.0 * rl * left + -(right + left) * rl;
      -((right - left) * rl);
      -1.0;
    }
    calc {
      2.0 * rl * right + -(right + left) * rl;
      (right - left) * rl;
      1.0;
    }
    calc {
      2.0 * tb * bottom + -(top + bottom) * tb;
      -((top - bottom) * tb);
      -1.0;
    }
    calc {
      2.0 * tb * top + -(top + bottom) * tb;
      (top - bottom) * tb;
      1.0;
    }
    calc {
      -fn * farZ + nearZ * fn;
      -(fn * (farZ - nearZ));
      1.0;
    }
  }

  /**
   * mat4_perspective sends the near plane to depth 0 and the far plane to depth w, so after
   * the perspective divide the visible depth range is [0, 1]; w is the eye-space depth.
   */
  lemma PerspectiveDepth(fov: real, aspect: real, near: real, far: real, libm: Libm, x: real, y: real)
    requires libm.tanf(fov * 0.5) != 0.0 && aspect != 0.0 && near != far
    ensures Mulv4(Perspective(fov, aspect, near, far, libm), Vec4(x, y, near, 1.0)).z == 0.0
    ensures Mulv4(Perspective(fov, aspect, near, far, libm), Vec4(x, y, near, 1.0)).w == near
    ensures Mulv4(Perspective(fov, aspect, near, far, libm), Vec4(x, y, far, 1.0)).z == far
    ensures Mulv4(Perspective(fov, aspect, near, far, libm), Vec4(x, y, far, 1.0)).w == far
  {
    var fn := 1.0 / (near - far);
    assert fn * (near - far) == 1.0;
    calc {
      -far * fn * far + near * far * fn;
      far * (fn * (near - far));
      far;
    }
  }

  lemma Scale3Distributes(r: Vec3, a: real, b: real)
    ensures Add3(Scale3(r, a), Scale3(r, b)) == Scale3(r, a + b)
  {
  }

  /** Two mat3_translate calls compose into one by the summed offset. */
  lemma {:induction false} Mat3TranslateCompose(m: Mat3, a: Vec2, b: Vec2)
    ensures Mat3Translate(Mat3Translate(m, a), b) == Mat3Translate(m, Vec2(a.x + b.x, a.y + b.y))
  {
    Scale3Distributes(m.r0, a.x, b.x);
    Scale3Distributes(m.r1, a.y, b.y);
  }

  /** Two mat3_scale calls compose into one by the component-wise product; row 2 is never touched. */
  lemma Mat3ScaleCompose(m: Mat3, a: Vec2, b: Vec2)
    ensures Mat3Scale(m, a).r2 == m.r2
    ensures Mat3Scale(Mat3Scale(m, a), b) == Mat3Scale(m, Vec2(a.x * b.x, a.y * b.y))
  {
  }

  /** mat3_rotate keeps row 2, and an angle with cos 1 and sin 0 changes nothing. */
  lemma Mat3RotateFixed(m: Mat3, angle: real, libm: Libm)
    ensures Mat3Rotate(m, angle, libm).r2 == m.r2
    ensures libm.cosf(angle) == 1.0 && libm.sinf(angle) == 0.0 ==> Mat3Rotate(m, angle, libm) == m
  {
  }
}
