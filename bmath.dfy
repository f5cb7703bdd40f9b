/**
 * The in-place helpers of bmath.h: each writes a caller-supplied destination array.
 *
 * A vecN is an `array<real>` of length N and a matN an N x N `array2<real>`. Every method
 * states its result as the matching Linear function of the arguments' OLD contents and
 * carries no distinctness requirement between source and destination, so each contract
 * also proves the call safe when the caller passes the same array twice
 * (mat4_mul_rot(m, rot, m), mat4_scale_to(m, v, m), mat4_mulv4(m, res, res), ...).
 */
module Bmath {
  import opened Linear

  function V2(a: array<real>): Vec2
    reads a
    requires a.Length == 2
  {
    Vec2(a[0], a[1])
  }

  function V3(a: array<real>): Vec3
    reads a
    requires a.Length == 3
  {
    Vec3(a[0], a[1], a[2])
  }

  function V4(a: array<real>): Vec4
    reads a
    requires a.Length == 4
  {
    Vec4(a[0], a[1], a[2], a[3])
  }

  predicate IsMat3(a: array2<real>) {
    a.Length0 == 3 && a.Length1 == 3
  }

  predicate IsMat4(a: array2<real>) {
    a.Length0 == 4 && a.Length1 == 4
  }

  function M3(a: array2<real>): Mat3
    reads a
    requires IsMat3(a)
  {
    Mat3(Vec3(a[0, 0], a[0, 1], a[0, 2]),
         Vec3(a[1, 0], a[1, 1], a[1, 2]),
         Vec3(a[2, 0], a[2, 1], a[2, 2]))
  }

  function M4(a: array2<real>): Mat4
    reads a
    requires IsMat4(a)
  {
    Mat4(Vec4(a[0, 0], a[0, 1], a[0, 2], a[0, 3]),
         Vec4(a[1, 0], a[1, 1], a[1, 2], a[1, 3]),
         Vec4(a[2, 0], a[2, 1], a[2, 2], a[2, 3]),
         Vec4(a[3, 0], a[3, 1], a[3, 2], a[3, 3]))
  }

  /** Row k of a mat4 array, the C sub-array `a[k]`. */
  function Row(a: array2<real>, k: nat): Vec4
    reads a
    requires IsMat4(a) && k < 4
  {
    Vec4(a[k, 0], a[k, 1], a[k, 2], a[k, 3])
  }

  /** The matrix m with row k replaced by r. */
  function WithRow(m: Mat4, k: nat, r: Vec4): Mat4
    requires k < 4
  {
    if k == 0 then m.(r0 := r) else if k == 1 then m.(r1 := r) else if k == 2 then m.(r2 := r) else m.(r3 := r)
  }

  function WithRow3(m: Mat3, k: nat, r: Vec3): Mat3
    requires k < 3
  {
    if k == 0 then m.(r0 := r) else if k == 1 then m.(r1 := r) else m.(r2 := r)
  }

  /** Store a whole row of a mat4; the model's stand-in for four consecutive entry stores. */
  method StoreRow(dest: array2<real>, k: nat, r: Vec4)
    requires IsMat4(dest) && k < 4
    modifies dest
    ensures M4(dest) == WithRow(old(M4(dest)), k, r)
  {
    dest[k, 0], dest[k, 1], dest[k, 2], dest[k, 3] := r.x, r.y, r.z, r.w;
  }

  method StoreRow3(dest: array2<real>, k: nat, r: Vec3)
    requires IsMat3(dest) && k < 3
    modifies dest
    ensures M3(dest) == WithRow3(old(M3(dest)), k, r)
  {
    dest[k, 0], dest[k, 1], dest[k, 2] := r.x, r.y, r.z;
  }

  // ---------------------------------------------------------------- vec2 / vec3

  method Vec2Copy(a: array<real>, dest: array<real>)
    requires a.Length == 2 && dest.Length == 2
    modifies dest
    ensures V2(dest) == old(V2(a))
  {
    dest[0] := a[0];
    dest[1] := a[1];
  }

  method Vec3Copy(a: array<real>, dest: array<real>)
    requires a.Length == 3 && dest.Length == 3
    modifies dest
    ensures V3(dest) == old(V3(a))
  {
    dest[0] := a[0];
    dest[1] := a[1];
    dest[2] := a[2];
  }

  method Vec3Mul(a: array<real>, b: array<real>, dest: array<real>)
    requires a.Length == 3 && b.Length == 3 && dest.Length == 3
    modifies dest
    ensures V3(dest) == Mul3(old(V3(a)), old(V3(b)))
  {
    dest[0] := a[0] * b[0];
    dest[1] := a[1] * b[1];
    dest[2] := a[2] * b[2];
  }

  method Vec3Scale(v: array<real>, s: real, dest: array<real>)
    requires v.Length == 3 && dest.Length == 3
    modifies dest
    ensures V3(dest) == Scale3(old(V3(v)), s)
  {
    dest[0] := v[0] * s;
    dest[1] := v[1] * s;
    dest[2] := v[2] * s;
  }

  method Vec3Add(v: array<real>, dest: array<real>)
    requires v.Length == 3 && dest.Length == 3
    modifies dest
    ensures V3(dest) == Add3(old(V3(dest)), old(V3(v)))
  {
    dest[0] := dest[0] + v[0];
    dest[1] := dest[1] + v[1];
    dest[2] := dest[2] + v[2];
  }

  method Vec3Sub(v: array<real>, dest: array<real>)
    requires v.Length == 3 && dest.Length == 3
    modifies dest
    ensures V3(dest) == Sub3(old(V3(dest)), old(V3(v)))
  {
    dest[0] := dest[0] - v[0];
    dest[1] := dest[1] - v[1];
    dest[2] := dest[2] - v[2];
  }

  method Vec3Normalize(v: array<real>, libm: Libm)
    requires v.Length == 3
    modifies v
    ensures V3(v) == NormalizeTo(old(V3(v)), libm)
  {
    var norm := Norm(V3(v), libm);
    if norm == 0.0 {
      v[0], v[1], v[2] := 0.0, 0.0, 0.0;
      return;
    }
    Vec3Scale(v, 1.0 / norm, v);
  }

  method Vec3Cross(a: array<real>, b: array<real>, dest: array<real>)
    requires a.Length == 3 && b.Length == 3 && dest.Length == 3
    modifies dest
    ensures V3(dest) == Cross(old(V3(a)), old(V3(b)))
  {
    var c := new real[3];
    c[0] := a[1] * b[2] - a[2] * b[1];
    c[1] := a[2] * b[0] - a[0] * b[2];
    c[2] := a[0] * b[1] - a[1] * b[0];
    Vec3Copy(c, dest);
  }

  method Vec3NormalizeTo(v: array<real>, dest: array<real>, libm: Libm)
    requires v.Length == 3 && dest.Length == 3
    modifies dest
    ensures V3(dest) == NormalizeTo(old(V3(v)), libm)
  {
    var norm := Norm(V3(v), libm);
    if norm == 0.0 {
      dest[0], dest[1], dest[2] := 0.0, 0.0, 0.0;
      return;
    }
    Vec3Scale(v, 1.0 / norm, dest);
  }

  method Vec3CrossN(a: array<real>, b: array<real>, dest: array<real>, libm: Libm)
    requires a.Length == 3 && b.Length == 3 && dest.Length == 3
    modifies dest
    ensures V3(dest) == CrossN(old(V3(a)), old(V3(b)), libm)
  {
    Vec3Cross(a, b, dest);
    Vec3Normalize(dest, libm);
  }

  // ---------------------------------------------------------------- vec4

  method Vec4Copy(v: array<real>, dest: array<real>)
    requires v.Length == 4 && dest.Length == 4
    modifies dest
    ensures V4(dest) == old(V4(v))
  {
    dest[0] := v[0];
    dest[1] := v[1];
    dest[2] := v[2];
    dest[3] := v[3];
  }

  method Vec4MulAdds(a: array<real>, s: real, dest: array<real>)
    requires a.Length == 4 && dest.Length == 4
    modifies dest
    ensures V4(dest) == MulAdds4(old(V4(dest)), old(V4(a)), s)
  {
    dest[0] := dest[0] + a[0] * s;
    dest[1] := dest[1] + a[1] * s;
    dest[2] := dest[2] + a[2] * s;
    dest[3] := dest[3] + a[3] * s;
  }

  method Vec4Scale(v: array<real>, s: real, dest: array<real>)
    requires v.Length == 4 && dest.Length == 4
    modifies dest
    ensures V4(dest) == Scale4(old(V4(v)), s)
  {
    dest[0] := v[0] * s;
    dest[1] := v[1] * s;
    dest[2] := v[2] * s;
    dest[3] := v[3] * s;
  }

  // The same three vec4 helpers applied to rows of matrices, as the mat4 code calls them
  // (`vec4_scale(m[0], v[0], dest[0])`); source and destination rows may coincide.

  method Vec4MulAddsRow(m: array2<real>, src: nat, s: real, dst: nat)
    requires IsMat4(m) && src < 4 && dst < 4
    modifies m
    ensures M4(m) == WithRow(old(M4(m)), dst, MulAdds4(old(Row(m, dst)), old(Row(m, src)), s))
  {
    m[dst, 0] := m[dst, 0] + m[src, 0] * s;
    m[dst, 1] := m[dst, 1] + m[src, 1] * s;
    m[dst, 2] := m[dst, 2] + m[src, 2] * s;
    m[dst, 3] := m[dst, 3] + m[src, 3] * s;
  }

  method Vec4ScaleRow(m: array2<real>, k: nat, s: real, dest: array2<real>)
    requires IsMat4(m) && IsMat4(dest) && k < 4
    modifies dest
    ensures M4(dest) == WithRow(old(M4(dest)), k, Scale4(old(Row(m, k)), s))
  {
    dest[k, 0] := m[k, 0] * s;
    dest[k, 1] := m[k, 1] * s;
    dest[k, 2] := m[k, 2] * s;
    dest[k, 3] := m[k, 3] * s;
  }

  method Vec4CopyRow(m: array2<real>, k: nat, dest: array2<real>)
    requires IsMat4(m) && IsMat4(dest) && k < 4
    modifies dest
    ensures M4(dest) == WithRow(old(M4(dest)), k, old(Row(m, k)))
  {
    dest[k, 0] := m[k, 0];
    dest[k, 1] := m[k, 1];
    dest[k, 2] := m[k, 2];
    dest[k, 3] := m[k, 3];
  }

  // ---------------------------------------------------------------- mat3

  method Mat3TranslateInPlace(m: array2<real>, v: array<real>)
    requires IsMat3(m) && v.Length == 2
    modifies m
    ensures M3(m) == Mat3Translate(old(M3(m)), old(V2(v)))
  {
    m[2, 0] := m[0, 0] * v[0] + m[1, 0] * v[1] + m[2, 0];
    m[2, 1] := m[0, 1] * v[0] + m[1, 1] * v[1] + m[2, 1];
    m[2, 2] := m[0, 2] * v[0] + m[1, 2] * v[1] + m[2, 2];
  }

  method Mat3RotateInPlace(m: array2<real>, angle: real, libm: Libm)
    requires IsMat3(m)
    modifies m
    ensures M3(m) == Mat3Rotate(old(M3(m)), angle, libm)
  {
    var a := M3(m);
    var s, c := libm.sinf(angle), libm.cosf(angle);

    // m[0][j] = m0j * c + m1j * s and m[1][j] = m0j * -s + m1j * c, from the values read first
    StoreRow3(m, 0, Add3(Scale3(a.r0, c), Scale3(a.r1, s)));
    StoreRow3(m, 1, Add3(Scale3(a.r0, -s), Scale3(a.r1, c)));
  }

  method Mat3ScaleInPlace(m: array2<real>, v: array<real>)
    requires IsMat3(m) && v.Length == 2
    modifies m
    ensures M3(m) == Mat3Scale(old(M3(m)), old(V2(v)))
  {
    m[0, 0] := m[0, 0] * v[0];
    m[0, 1] := m[0, 1] * v[0];
    m[0, 2] := m[0, 2] * v[0];

    m[1, 0] := m[1, 0] * v[1];
    m[1, 1] := m[1, 1] * v[1];
    m[1, 2] := m[1, 2] * v[1];
  }

  // ---------------------------------------------------------------- mat4

  method Mat4Identity(dest: array2<real>)
    requires IsMat4(dest)
    modifies dest
    ensures M4(dest) == Identity4
  {
    StoreRow(dest, 0, Vec4(1.0, 0.0, 0.0, 0.0));
    StoreRow(dest, 1, Vec4(0.0, 1.0, 0.0, 0.0));
    StoreRow(dest, 2, Vec4(0.0, 0.0, 1.0, 0.0));
    StoreRow(dest, 3, Vec4(0.0, 0.0, 0.0, 1.0));
  }

  method Mat4Copy(mat: array2<real>, dest: array2<real>)
    requires IsMat4(mat) && IsMat4(dest)
    modifies dest
    ensures M4(dest) == old(M4(mat))
  {
    Vec4CopyRow(mat, 0, dest);
    Vec4CopyRow(mat, 1, dest);
    Vec4CopyRow(mat, 2, dest);
    Vec4CopyRow(mat, 3, dest);
  }

  /**
   * mat4_mulv4 as its active (SSE) branch computes it: all of m's rows and v are loaded
   * first, and the lanes are summed from row 3 down to row 0. Over the reals this is the
   * scalar reference formula.
   */
  method Mat4Mulv4(m: array2<real>, v: array<real>, dest: array<real>)
    requires IsMat4(m) && v.Length == 4 && dest.Length == 4
    modifies dest
    ensures V4(dest) == Mulv4(old(M4(m)), old(V4(v)))
  {
    var m0, m1, m2, m3 := Vec4(m[0, 0], m[0, 1], m[0, 2], m[0, 3]), Vec4(m[1, 0], m[1, 1], m[1, 2], m[1, 3]),
                          Vec4(m[2, 0], m[2, 1], m[2, 2], m[2, 3]), Vec4(m[3, 0], m[3, 1], m[3, 2], m[3, 3]);
    var v0, v1, v2, v3 := v[0], v[1], v[2], v[3];
    var x1 := Scale4(m3, v3);
    x1 := Add4(x1, Scale4(m2, v2));
    x1 := Add4(x1, Scale4(m1, v1));
    x1 := Add4(x1, Scale4(m0, v0));
    SseOrder(Mat4(m0, m1, m2, m3), Vec4(v0, v1, v2, v3));
    dest[0], dest[1], dest[2], dest[3] := x1.x, x1.y, x1.z, x1.w;
  }

  /** Summing the lanes from row 3 down to row 0 gives the scalar reference result. */
  lemma SseOrder(m: Mat4, v: Vec4)
    ensures Add4(Add4(Add4(Scale4(m.r3, v.w), Scale4(m.r2, v.z)), Scale4(m.r1, v.y)), Scale4(m.r0, v.x))
         == Mulv4(m, v)
  {
    Mulv4Combines(m, v);
  }

  method Mat4Mulv3(m: array2<real>, last: real, v: array<real>, dest: array<real>)
    requires IsMat4(m) && v.Length == 3 && dest.Length == 3
    modifies dest
    ensures V3(dest) == Mulv3(old(M4(m)), last, old(V3(v)))
  {
    var res := new real[4];
    res[0] := v[0];
    res[1] := v[1];
    res[2] := v[2];
    res[3] := last;

    Mat4Mulv4(m, res, res);
    dest[0] := res[0];
    dest[1] := res[1];
    dest[2] := res[2];
  }

  method Mat4Zero(dest: array2<real>)
    requires IsMat4(dest)
    modifies dest
    ensures M4(dest) == Zero4
  {
    StoreRow(dest, 0, Vec4(0.0, 0.0, 0.0, 0.0));
    StoreRow(dest, 1, Vec4(0.0, 0.0, 0.0, 0.0));
    StoreRow(dest, 2, Vec4(0.0, 0.0, 0.0, 0.0));
    StoreRow(dest, 3, Vec4(0.0, 0.0, 0.0, 0.0));
  }

  /** mat4_translate: three vec4_muladds of rows 0, 1, 2 into row 3. */
  method Mat4Translate(dest: array2<real>, v: array<real>)
    requires IsMat4(dest) && v.Length == 3
    modifies dest
    ensures M4(dest) == Translate4(old(M4(dest)), old(V3(v)))
  {
    Vec4MulAddsRow(dest, 0, v[0], 3);
    Vec4MulAddsRow(dest, 1, v[1], 3);
    Vec4MulAddsRow(dest, 2, v[2], 3);
  }

  /** vec3_scale(n, s, m[k]): the first three entries of row k become n * s. */
  method Vec3ScaleIntoRow(n: Vec3, s: real, m: array2<real>, k: nat)
    requires IsMat4(m) && k < 4
    modifies m
    ensures M4(m) == WithRow(old(M4(m)), k, Vec4(Scale3(n, s).x, Scale3(n, s).y, Scale3(n, s).z, old(m[k, 3])))
  {
    var e := Scale3(n, s);
    m[k, 0], m[k, 1], m[k, 2] := e.x, e.y, e.z;
  }

  /** Adds d to the first three entries of row k and clears the fourth. */
  method AddIntoRow(m: array2<real>, k: nat, d: Vec3)
    requires IsMat4(m) && k < 4
    modifies m
    ensures M4(m) == WithRow(old(M4(m)), k, Vec4(old(m[k, 0]) + d.x, old(m[k, 1]) + d.y, old(m[k, 2]) + d.z, 0.0))
  {
    m[k, 0], m[k, 1], m[k, 2], m[k, 3] := m[k, 0] + d.x, m[k, 1] + d.y, m[k, 2] + d.z, 0.0;
  }

  /**
   * mat4_rotate_make. Row k first receives axisn * v[k]; the cosine and the skew of vs are then
   * added entry by entry (grouped here by row: the nine entries are distinct, so the order of
   * the additions does not matter), and the last column and row are set to (0, 0, 0, 1).
   */
  method Mat4RotateMake(m: array2<real>, angle: real, axis: array<real>, libm: Libm)
    requires IsMat4(m) && axis.Length == 3
    modifies m
    ensures M4(m) == RotateMake(angle, old(V3(axis)), libm)
  {
    var axisn := new real[3];
    var v := new real[3];
    var vs := new real[3];

    var c := libm.cosf(angle);

    Vec3NormalizeTo(axis, axisn, libm);
    Vec3Scale(axisn, 1.0 - c, v);
    Vec3Scale(axisn, libm.sinf(angle), vs);

    FillRotation(m, V3(axisn), V3(v), c, V3(vs));
  }

  /** The stores of mat4_rotate_make once axisn, v and vs are known. */
  method FillRotation(m: array2<real>, n: Vec3, v: Vec3, c: real, vs: Vec3)
    requires IsMat4(m)
    modifies m
    ensures M4(m) == Mat4(RotationRow(n, v.x, Vec3(c, vs.z, -vs.y)),
                          RotationRow(n, v.y, Vec3(-vs.z, c, vs.x)),
                          RotationRow(n, v.z, Vec3(vs.y, -vs.x, c)),
                          Vec4(0.0, 0.0, 0.0, 1.0))
  {
    Vec3ScaleIntoRow(n, v.x, m, 0);
    Vec3ScaleIntoRow(n, v.y, m, 1);
    Vec3ScaleIntoRow(n, v.z, m, 2);

    AddIntoRow(m, 0, Vec3(c, vs.z, -vs.y));
    AddIntoRow(m, 1, Vec3(-vs.z, c, vs.x));
    AddIntoRow(m, 2, Vec3(vs.y, -vs.x, c));
    StoreRow(m, 3, Vec4(0.0, 0.0, 0.0, 1.0));
  }

  /** mat4_mul reads all 32 inputs before its first write, so dest may be m1 or m2. */
  method Mat4Mul(m1: array2<real>, m2: array2<real>, dest: array2<real>)
    requires IsMat4(m1) && IsMat4(m2) && IsMat4(dest)
    modifies dest
    ensures M4(dest) == Mul4(old(M4(m1)), old(M4(m2)))
  {
    var a, b := M4(m1), M4(m2);
    // dest[k][j] = a[0][j] * b[k][0] + a[1][j] * b[k][1] + a[2][j] * b[k][2] + a[3][j] * b[k][3]
    StoreRow(dest, 0, Mulv4(a, b.r0));
    StoreRow(dest, 1, Mulv4(a, b.r1));
    StoreRow(dest, 2, Mulv4(a, b.r2));
    StoreRow(dest, 3, Mulv4(a, b.r3));
  }

  method Mat4MulRot(m1: array2<real>, m2: array2<real>, dest: array2<real>)
    requires IsMat4(m1) && IsMat4(m2) && IsMat4(dest)
    modifies dest
    ensures M4(dest) == MulRot4(old(M4(m1)), old(M4(m2)))
  {
    var a, b := M4(m1), M4(m2);
    // as Mat4Mul with the 3x3 block of m2 only: b[k][3] and row 3 of m2 are never read
    StoreRow(dest, 0, Mulv4(a, Linear3(b.r0)));
    StoreRow(dest, 1, Mulv4(a, Linear3(b.r1)));
    StoreRow(dest, 2, Mulv4(a, Linear3(b.r2)));
    StoreRow(dest, 3, a.r3);
  }

  /** mat4_rotate: build the rotation in a temporary, then mat4_mul_rot(m, rot, m). */
  method Mat4Rotate(m: array2<real>, angle: real, axis: array<real>, libm: Libm)
    requires IsMat4(m) && axis.Length == 3
    modifies m
    ensures M4(m) == Rotate4(old(M4(m)), angle, old(V3(axis)), libm)
    ensures M4(m) == Mul4(old(M4(m)), RotateMake(angle, old(V3(axis)), libm))
  {
    var rot := new real[4, 4];
    Mat4RotateMake(rot, angle, axis, libm);
    Mat4MulRot(m, rot, m);
    RotateIsMul(old(M4(m)), angle, old(V3(axis)), libm);
  }

  /** mat4_scale_to: vec4_scale of rows 0-2 and vec4_copy of row 3. */
  method Mat4ScaleTo(m: array2<real>, v: array<real>, dest: array2<real>)
    requires IsMat4(m) && v.Length == 3 && IsMat4(dest)
    modifies dest
    ensures M4(dest) == ScaleTo4(old(M4(m)), old(V3(v)))
  {
    var v0, v1, v2 := v[0], v[1], v[2];
    Vec4ScaleRow(m, 0, v0, dest);
    Vec4ScaleRow(m, 1, v1, dest);
    Vec4ScaleRow(m, 2, v2, dest);

    Vec4CopyRow(m, 3, dest);
  }

  method Mat4Scale(m: array2<real>, v: array<real>)
    requires IsMat4(m) && v.Length == 3
    modifies m
    ensures M4(m) == ScaleTo4(old(M4(m)), old(V3(v)))
  {
    Mat4ScaleTo(m, v, m);
  }

  method Mat4Ortho(left: real, right: real, bottom: real, top: real, nearZ: real, farZ: real, dest: array2<real>)
    requires right != left && top != bottom && farZ != nearZ
    requires IsMat4(dest)
    modifies dest
    ensures M4(dest) == Ortho(left, right, bottom, top, nearZ, farZ)
  {
    var rl := 1.0 / (right - left);
    var tb := 1.0 / (top - bottom);
    var fn := -1.0 / (farZ - nearZ);

    // the zeroed matrix with its seven nonzero entries written in
    Mat4Zero(dest);

    StoreRow(dest, 0, Vec4(2.0 * rl, 0.0, 0.0, 0.0));
    StoreRow(dest, 1, Vec4(0.0, 2.0 * tb, 0.0, 0.0));
    StoreRow(dest, 2, Vec4(0.0, 0.0, -fn, 0.0));
    StoreRow(dest, 3, Vec4(-(right + left) * rl, -(top + bottom) * tb, nearZ * fn, 1.0));
  }

  method Mat4Perspective(fov: real, aspect: real, near: real, far: real, dest: array2<real>, libm: Libm)
    requires libm.tanf(fov * 0.5) != 0.0 && aspect != 0.0 && near != far
    requires IsMat4(dest)
    modifies dest
    ensures M4(dest) == Perspective(fov, aspect, near, far, libm)
  {
    Mat4Zero(dest);

    var f := 1.0 / libm.tanf(fov * 0.5);
    var fn := 1.0 / (near - far);

    // the zeroed matrix with its five nonzero entries written in
    StoreRow(dest, 0, Vec4(f / aspect, 0.0, 0.0, 0.0));
    StoreRow(dest, 1, Vec4(0.0, f, 0.0, 0.0));
    StoreRow(dest, 2, Vec4(0.0, 0.0, -far * fn, 1.0));
    StoreRow(dest, 3, Vec4(0.0, 0.0, near * far * fn, 0.0));
  }

  /** mat4_look_at, through the vec3 helpers on temporaries f, s and u. */
  method Mat4LookAt(eye: array<real>, center: array<real>, up: array<real>, dest: array2<real>, libm: Libm)
    requires eye.Length == 3 && center.Length == 3 && up.Length == 3 && IsMat4(dest)
    modifies dest
    ensures M4(dest) == LookAt(old(V3(eye)), old(V3(center)), old(V3(up)), libm)
  {
    var f := new real[3];
    var u := new real[3];
    var s := new real[3];

    Vec3Copy(center, f);
    Vec3Sub(eye, f);
    Vec3Normalize(f, libm);

    Vec3CrossN(up, f, s, libm);
    Vec3Cross(f, s, u);

    var sv, uv, fv, e := V3(s), V3(u), V3(f), V3(eye);
    StoreRow(dest, 0, Vec4(sv.x, uv.x, fv.x, 0.0));
    StoreRow(dest, 1, Vec4(sv.y, uv.y, fv.y, 0.0));
    StoreRow(dest, 2, Vec4(sv.z, uv.z, fv.z, 0.0));
    StoreRow(dest, 3, Vec4(-Dot(sv, e), -Dot(uv, e), -Dot(fv, e), 1.0));
  }
}
