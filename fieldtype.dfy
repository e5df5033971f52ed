/**
 * The reflection layer's `FieldTypeBits` encoding: a 16-bit field whose
 * low nibble is the scalar kind, bits 4-5 the scalar width, bits 6-7 the
 * vector (or matrix column) count and bits 8-9 the matrix row count.
 * `FieldType` wraps the raw `uint16_t`; the enum and the struct convert
 * into each other without changing the bits, so the operators for all four
 * operand mixes are the single set of functions below.
 */
module FieldTypes {

  datatype FieldType = FieldType(value: bv16)

  // Shape: vector width (bits 6-7); matrices reuse it for their column count.
  const None := FieldType(0x0000)
  const Vec1 := FieldType(0x0000)
  const Vec2 := FieldType(0x0040)
  const Vec3 := FieldType(0x0080)
  const Vec4 := FieldType(0x00C0)
  const Mat_1x := Vec1
  const Mat_2x := Vec2
  const Mat_3x := Vec3
  const Mat_4x := Vec4
  // Matrix row count (bits 8-9).
  const Mat_x1 := FieldType(0x0000)
  const Mat_x2 := FieldType(0x0100)
  const Mat_x3 := FieldType(0x0200)
  const Mat_x4 := FieldType(0x0300)
  // Scalar width (bits 4-5).
  const Bits8 := FieldType(0x0000)
  const Bits16 := FieldType(0x0010)
  const Bits32 := FieldType(0x0020)
  const Bits64 := FieldType(0x0030)
  // Masks.
  const TypeBits := FieldType(0x000F)
  const WidthBits := FieldType(0x0030)
  // Scalar kinds (bits 0-3) and the sized types built from them.
  const Int := FieldType(0x0001)
  const Int8 := Or(Bits8, Int)
  const Int16 := Or(Bits16, Int)
  const Int32 := Or(Bits32, Int)
  const Int64 := Or(Bits64, Int)
  const Uint := FieldType(0x0002)
  const Uint8 := Or(Bits8, Uint)
  const Uint16 := Or(Bits16, Uint)
  const Uint32 := Or(Bits32, Uint)
  const Uint64 := Or(Bits64, Uint)
  const Float := FieldType(0x0003)
  const Float32 := Or(Bits32, Float)
  const Float64 := Or(Bits64, Float)
  const String := FieldType(0x0004)
  const CString := FieldType(0x0004)
  const CxxString := FieldType(0x0014)
  const Boolean := FieldType(0x0005)

  /** The bits of the vector and matrix-row regions, which carry no name in the enum. */
  const VecBits: bv16 := 0x00C0
  const MatRowBits: bv16 := 0x0300

  /** `operator &`: the bits set in both operands, on the 16-bit representation. */
  function And(l: FieldType, r: FieldType): FieldType { FieldType(l.value & r.value) }

  /** `operator |`: the bits set in either operand and no others. */
  function Or(l: FieldType, r: FieldType): FieldType { FieldType(l.value | r.value) }

  /** `operator ^`: the bits set in exactly one operand, so either operand undoes it. */
  function Xor(l: FieldType, r: FieldType): FieldType { FieldType(l.value ^ r.value) }

  /**
   * `operator ~`. C++ promotes the `uint16_t` operand to `int` and complements
   * it there; the `FieldType(FieldTypeRep)` constructor then truncates the
   * result to its low 16 bits, which are exactly the 16-bit complement: the
   * bits the operand lacks.
   */
  function Not(v: FieldType): FieldType { FieldType(!v.value) }

  /** `operator bool`. */
  function AsBool(t: FieldType): (b: bool)
    ensures b <==> t != None
  {
    t.value != 0
  }

  /** `FieldType::contains`: every bit of `bits` is also set in `t`. */
  function Contains(t: FieldType, bits: FieldType): (r: bool)
    ensures r ==> Or(t, bits) == t
    ensures Or(t, bits) == t ==> r
  {
    (t.value & bits.value) == bits.value
  }

  /** The all-zero names (`None`, `Vec1`, `Mat_1x`, `Mat_x1`, `Bits8`) are contained in every type. */
  lemma ZeroNamesAlwaysContained(t: FieldType)
    ensures Contains(t, None) && Contains(t, Vec1) && Contains(t, Mat_1x)
    ensures Contains(t, Mat_x1) && Contains(t, Bits8)
    ensures !AsBool(None) && !AsBool(Vec1) && !AsBool(Bits8)
  {
  }

  /** Containment of a union is containment of both parts. */
  lemma ContainsUnion(t: FieldType, a: FieldType, b: FieldType)
    ensures Contains(t, Or(a, b)) ==> Contains(t, a) && Contains(t, b)
    ensures Contains(t, a) && Contains(t, b) ==> Contains(t, Or(a, b))
  {
  }

  /** The encoded values of the sized types: width bits OR'd with kind bits. */
  lemma SizedTypeValues()
    ensures Int8.value == 0x01 && Int16.value == 0x11 && Int32.value == 0x21 && Int64.value == 0x31
    ensures Uint8.value == 0x02 && Uint16.value == 0x12 && Uint32.value == 0x22 && Uint64.value == 0x32
    ensures Float32.value == 0x23 && Float64.value == 0x33
    ensures CString == String && CxxString == Or(Bits16, String)
    ensures Mat_1x == Vec1 && Mat_2x == Vec2 && Mat_3x == Vec3 && Mat_4x == Vec4
  {
  }

  /** The kind, width, vector and matrix-row regions do not overlap. */
  lemma RegionsDisjoint()
    ensures TypeBits.value & WidthBits.value == 0
    ensures (TypeBits.value | WidthBits.value) & VecBits == 0
    ensures (TypeBits.value | WidthBits.value | VecBits) & MatRowBits == 0
  {
  }

  /** A type composed of one value per region. */
  predicate Composed(t: FieldType, kind: bv16, width: bv16, vec: bv16, rows: bv16)
  {
    kind & !TypeBits.value == 0 && width & !WidthBits.value == 0 &&
    vec & !VecBits == 0 && rows & !MatRowBits == 0 &&
    t.value == kind | width | vec | rows
  }

  /**
   * Masking with `TypeBits | WidthBits` (as the object mutator does before its
   * `switch`) keeps the sized scalar type and strips the vector/matrix shape.
   */
  lemma MaskStripsShape(t: FieldType, kind: bv16, width: bv16, vec: bv16, rows: bv16)
    requires Composed(t, kind, width, vec, rows)
    ensures And(t, Or(TypeBits, WidthBits)).value == kind | width
    ensures And(t, FieldType(VecBits)).value == vec
  {
  }

  /**
   * `contains` on a shape is not an exact match: a `Vec4` type also contains
   * `Vec2` and `Vec3`, so shape queries have to test the widest shape first.
   */
  lemma ShapeContainment(t: FieldType)
    ensures And(t, FieldType(VecBits)) == Vec4 ==> Contains(t, Vec2) && Contains(t, Vec3)
    ensures And(t, FieldType(VecBits)) == Vec3 ==> !Contains(t, Vec2) && !Contains(t, Vec4)
    ensures And(t, FieldType(VecBits)) == Vec2 ==> !Contains(t, Vec3) && !Contains(t, Vec4)
  {
  }

  /** `&` gives bits both operands have: the result is contained in each. */
  lemma AndInBoth(l: FieldType, r: FieldType)
    ensures Contains(l, And(l, r)) && Contains(r, And(l, r))
  {
  }

  /** `&` loses none of the bits both operands have: it contains whatever both contain. */
  lemma AndKeepsCommon(l: FieldType, r: FieldType, m: FieldType)
    requires Contains(l, m) && Contains(r, m)
    ensures Contains(And(l, r), m)
  {
    CommonBits(l.value, r.value, m.value);
  }

  lemma CommonBits(a: bv16, b: bv16, c: bv16)
    ensures a & c == c && b & c == c ==> (a & b) & c == c
  {
  }

  /** `|` contains both operands. */
  lemma OrContainsBoth(l: FieldType, r: FieldType)
    ensures Contains(Or(l, r), l) && Contains(Or(l, r), r)
  {
  }

  /** `|` adds no bit beyond its operands: what it has outside `l` comes from `r`. */
  lemma OrAddsNothing(l: FieldType, r: FieldType)
    ensures And(Or(l, r), Not(l)) == And(r, Not(l))
  {
    UnionBits(l.value, r.value);
  }

  lemma UnionBits(a: bv16, b: bv16)
    ensures (a | b) & !a == b & !a
  {
  }

  /** `~` sets exactly the bits its operand lacks. */
  lemma NotBits(v: FieldType)
    ensures And(v, Not(v)) == None && Or(v, Not(v)) == FieldType(0xFFFF)
  {
  }

  /** `^` keeps the bits set in exactly one operand. */
  lemma XorBits(l: FieldType, r: FieldType)
    ensures Xor(l, r) == Or(And(l, Not(r)), And(Not(l), r))
  {
  }

  /** `~` is an involution. */
  lemma NotInvolution(a: FieldType)
    ensures Not(Not(a)) == a
  {
  }

  /** `^` with a value undoes itself, and clearing bits with `& ~b` is `^` with the common bits. */
  lemma XorInverse(a: FieldType, b: FieldType)
    ensures Xor(Xor(a, b), b) == a
    ensures And(a, Not(b)) == Xor(a, And(a, b))
  {
  }
}
