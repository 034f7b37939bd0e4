/** GPTQ dequantisation: fields of signed words, and its two forms (src/layers/quantization/qlinear_impl.cpp). */
module Gptq {
  import opened Arith

  // ----- bits of two's complement numbers

  function Pow2(n: nat): (p: nat)
    ensures p > 0
  {
    if n == 0 then 1 else 2 * Pow2(n - 1)
  }

  /** Arithmetic right shift: the sign is copied in from the left. */
  function ShiftRight(x: int, k: nat): int { x / Pow2(k) }

  /** Conversion to a signed type of the given width: wrap around. */
  function Narrow(x: int, width: nat): int
    requires width > 0
  {
    (x + Pow2(width - 1)) % Pow2(width) - Pow2(width - 1)
  }

  /** Bitwise and of the low `width` bits. */
  function BitAnd(x: int, y: int, width: nat): nat
    decreases width
  {
    if width == 0 then 0 else (if x % 2 == 1 && y % 2 == 1 then 1 else 0) + 2 * BitAnd(x / 2, y / 2, width - 1)
  }

  function Bit(x: int, i: nat): nat { x / Pow2(i) % 2 }

  /** The number written by bits k .. k + bits - 1 of x. */
  function Field(x: int, k: nat, bits: nat): nat
    decreases bits
  {
    if bits == 0 then 0 else Bit(x, k) + 2 * Field(x, k + 1, bits - 1)
  }

  /** The number written by the low bits of x. */
  function Low(x: int, bits: nat): nat
    decreases bits
  {
    if bits == 0 then 0 else x % 2 + 2 * Low(x / 2, bits - 1)
  }

  lemma MaskHalves(bits: nat)
    requires bits > 0
    ensures (Pow2(bits) - 1) / 2 == Pow2(bits - 1) - 1 && (Pow2(bits) - 1) % 2 == 1
  {
  }

  lemma {:induction false} AndMaskIsLow(x: int, bits: nat, width: nat)
    requires bits <= width
    ensures BitAnd(x, Pow2(bits) - 1, width) == Low(x, bits)
    decreases width
  {
    if width > 0 {
      if bits == 0 {
        AndMaskIsLow(x / 2, 0, width - 1);
      } else {
        MaskHalves(bits);
        AndMaskIsLow(x / 2, bits - 1, width - 1);
      }
    }
  }

  /** Dividing twice is dividing by the product. */
  lemma HalfOfQuotient(x: int, p: nat)
    requires p > 0
    ensures x / p / 2 == x / (2 * p)
  {
    var q, r := x / p, x % p;
    var h, b := q / 2, q % 2;
    assert x == q * p + r && q == 2 * h + b;
    assert x == h * (2 * p) + (b * p + r) by {
      assert q * p == (2 * h) * p + b * p;
      assert (2 * h) * p == h * (2 * p);
    }
    assert 0 <= b * p + r < 2 * p by { assert b == 0 || b == 1; }
    DivModUnique(x, 2 * p, h, b * p + r);
  }

  lemma {:induction false} LowOfShift(x: int, k: nat, bits: nat)
    ensures Low(ShiftRight(x, k), bits) == Field(x, k, bits)
    decreases bits
  {
    if bits > 0 {
      HalfOfQuotient(x, Pow2(k));
      LowOfShift(x, k + 1, bits - 1);
    }
  }

  /** Adding a multiple of a higher power of two does not change the low bits. */
  lemma {:induction false} LowPeriodic(x: int, m: int, width: nat, bits: nat)
    requires bits <= width
    ensures Low(x + m * Pow2(width), bits) == Low(x, bits)
    decreases bits
  {
    if bits > 0 {
      DoubleProduct(m, Pow2(width - 1));
      HalfOfSum(x, m * Pow2(width - 1));
      LowPeriodic(x / 2, m, width - 1, bits - 1);
    }
  }

  lemma NarrowIsShifted(x: int, width: nat) returns (m: int)
    requires width > 0
    ensures Narrow(x, width) == x + m * Pow2(width)
  {
    var y, p := x + Pow2(width - 1), Pow2(width);
    m := -(y / p);
    assert y == (y / p) * p + y % p;
    assert m * p == -((y / p) * p);
  }

  lemma {:induction false} LowBound(x: int, bits: nat)
    ensures Low(x, bits) < Pow2(bits)
    decreases bits
  {
    if bits > 0 { LowBound(x / 2, bits - 1); }
  }

  /** The low bits are the remainder. */
  lemma {:induction false} LowIsRemainder(x: int, bits: nat)
    ensures Low(x, bits) == x % Pow2(bits)
    decreases bits
  {
    var q := LowQuotient(x, bits);
    LowBound(x, bits);
    DivModUnique(x, Pow2(bits), q, Low(x, bits));
  }

  lemma {:induction false} LowQuotient(x: int, bits: nat) returns (q: int)
    ensures x == q * Pow2(bits) + Low(x, bits)
    decreases bits
  {
    if bits == 0 {
      q := x;
    } else {
      q := LowQuotient(x / 2, bits - 1);
      var p := Pow2(bits - 1);
      assert q * (2 * p) == 2 * (q * p);
    }
  }

  // ----- unpacking a word

  const WORD := 32

  predicate Supported(bits: nat) { bits == 2 || bits == 4 || bits == 8 }

  predicate IsWord(w: int) { -0x8000_0000 <= w < 0x8000_0000 }

  /** kInt16 for 8 bits, else kInt8. */
  function TypeWidth(bits: nat): nat { if bits == 8 then 16 else 8 }

  predicate InType(x: int, bits: nat) {
    if bits == 8 then -0x8000 <= x < 0x8000 else -0x80 <= x < 0x80
  }

  /** Shift, convert to a narrow type, mask. */
  function UnpackTo(w: int, k: nat, bits: nat, width: nat): nat
    requires width > 0
  {
    BitAnd(Narrow(ShiftRight(w, k), width), Pow2(bits) - 1, width)
  }

  function Unpack(w: int, k: nat, bits: nat): nat { UnpackTo(w, k, bits, TypeWidth(bits)) }

  /** The word as an unsigned number. */
  function Unsigned(w: int): (u: int)
    ensures IsWord(w) ==> 0 <= u < 0x1_0000_0000 && (u == w || u == w + 0x1_0000_0000)
  {
    if w < 0 then w + 0x1_0000_0000 else w
  }

  /** Bits k .. k + bits - 1 of the word as an unsigned number. */
  function UnsignedBits(w: int, k: nat, bits: nat): int { Unsigned(w) / Pow2(k) % Pow2(bits) }

  lemma PowerValues()
    ensures Pow2(2) == 4 && Pow2(4) == 16 && Pow2(7) == 0x80 && Pow2(8) == 0x100
    ensures Pow2(15) == 0x8000 && Pow2(16) == 0x1_0000 && Pow2(32) == 0x1_0000_0000
  {
    assert Pow2(4) == 16;
    assert Pow2(8) == 0x100;
    assert Pow2(12) == 0x1000;
    assert Pow2(16) == 0x1_0000;
    assert Pow2(20) == 0x10_0000;
    assert Pow2(24) == 0x100_0000;
    assert Pow2(28) == 0x1000_0000;
  }

  lemma UnpackToField(w: int, k: nat, bits: nat, width: nat)
    requires bits <= width && width > 0
    ensures UnpackTo(w, k, bits, width) == Low(ShiftRight(w, k), bits) == Field(w, k, bits)
  {
    var x := ShiftRight(w, k);
    AndMaskIsLow(Narrow(x, width), bits, width);
    var m := NarrowIsShifted(x, width);
    LowPeriodic(x, m, width, bits);
    LowOfShift(w, k, bits);
  }

  /** Unpacking yields the number written by the bits of the field. */
  lemma UnpackIsField(w: int, k: nat, bits: nat)
    requires Supported(bits)
    ensures Unpack(w, k, bits) == Low(ShiftRight(w, k), bits) == Field(w, k, bits)
  {
    UnpackToField(w, k, bits, TypeWidth(bits));
  }

  lemma HalfOfSum(x: int, half: int)
    ensures (x + 2 * half) / 2 == x / 2 + half && (x + 2 * half) % 2 == x % 2
  {
  }

  lemma DoubleProduct(m: int, p: int)
    ensures m * (2 * p) == 2 * (m * p)
  {
  }

  /** Shifting once more is halving. */
  lemma ShiftOnce(x: int, k: nat)
    requires k > 0
    ensures ShiftRight(x, k) == ShiftRight(x, k - 1) / 2
  {
    HalfOfQuotient(x, Pow2(k - 1));
  }

  lemma {:induction false} ShiftPeriodic(w: int, m: int, width: nat, k: nat)
    requires k <= width
    ensures ShiftRight(w + m * Pow2(width), k) == ShiftRight(w, k) + m * Pow2(width - k)
  {
    if k == 0 {
      ShiftNone(w);
      ShiftNone(w + m * Pow2(width));
    } else {
      ShiftPeriodic(w, m, width, k - 1);
      ShiftOnce(w, k);
      ShiftOnce(w + m * Pow2(width), k);
      DoubleProduct(m, Pow2(width - k));
      HalfOfSum(ShiftRight(w, k - 1), m * Pow2(width - k));
    }
  }

  lemma ShiftNone(x: int)
    ensures ShiftRight(x, 0) == x
  {
    assert Pow2(0) == 1;
  }

  /** The field of a word does not change when a multiple of the word's modulus is added. */
  lemma FieldPeriodic(w: int, m: int, u: int, word: nat, k: nat, bits: nat)
    requires k + bits <= word && u == w + m * Pow2(word)
    ensures Low(ShiftRight(w, k), bits) == u / Pow2(k) % Pow2(bits)
  {
    ShiftPeriodic(w, m, word, k);
    LowPeriodic(ShiftRight(w, k), m, word - k, bits);
    LowIsRemainder(ShiftRight(u, k), bits);
  }

  /** Despite sign extension and narrowing, unpacking yields the unsigned field of the word. */
  lemma UnpackExact(w: int, k: nat, bits: nat)
    requires Supported(bits) && IsWord(w) && k + bits <= WORD
    ensures Unpack(w, k, bits) == UnsignedBits(w, k, bits) < Pow2(bits)
  {
    UnpackIsField(w, k, bits);
    LowBound(ShiftRight(w, k), bits);
    var m := WordModulus(w);
    FieldPeriodic(w, m, Unsigned(w), WORD, k, bits);
  }

  lemma WordModulus(w: int) returns (m: int)
    requires IsWord(w)
    ensures Unsigned(w) == w + m * Pow2(WORD)
  {
    PowerValues();
    m := if w < 0 then 1 else 0;
  }

  /** Conversion to a narrow type lands in the type and changes the number by a multiple of the modulus only. */
  lemma NarrowWraps(x: int, width: nat) returns (m: int)
    requires width > 0
    ensures 0 <= Narrow(x, width) + Pow2(width - 1) < Pow2(width)
    ensures Narrow(x, width) == x + m * Pow2(width)
  {
    m := NarrowIsShifted(x, width);
  }

  lemma NarrowFits(x: int, width: nat)
    requires width > 0 && 0 <= x + Pow2(width - 1) && x < Pow2(width - 1)
    ensures Narrow(x, width) == x
  {
    var h := Pow2(width - 1);
    assert Pow2(width) == 2 * h;
    DivModUnique(x + h, 2 * h, 0, x + h);
  }

  lemma TypeRange(bits: nat)
    requires Supported(bits)
    ensures Pow2(TypeWidth(bits) - 1) == (if bits == 8 then 0x8000 else 0x80)
    ensures Pow2(bits) <= 256 && (bits != 8 ==> Pow2(bits) <= 16)
  {
    PowerValues();
  }

  /** Add one to the zero point and subtract it from the weight, each step in the narrow type. */
  function Subtract(weight: nat, zero: nat, bits: nat): int {
    Narrow(weight - Narrow(zero + 1, TypeWidth(bits)), TypeWidth(bits))
  }

  /** Neither the incremented zero point nor the difference leaves the narrow type. */
  lemma NoOverflow(weight: nat, zero: nat, bits: nat)
    requires Supported(bits) && weight < Pow2(bits) && zero < Pow2(bits)
    ensures InType(zero + 1, bits) && InType(weight - (zero + 1), bits)
    ensures Narrow(zero + 1, TypeWidth(bits)) == zero + 1
    ensures Subtract(weight, zero, bits) == weight - zero - 1
  {
    TypeRange(bits);
    NarrowFits(zero + 1, TypeWidth(bits));
    var d := weight - (zero + 1);
    assert InType(d, bits) && InType(zero + 1, bits);
    NarrowFits(d, TypeWidth(bits));
  }

  // ----- the two forms

  type Words = seq<seq<int>>

  predicate Shaped(m: Words, rows: nat, columns: nat) {
    |m| == rows && forall i :: 0 <= i < rows ==> |m[i]| == columns
  }

  /** Quantised weights of `ints` words per column, for `groups` groups and `ints * 32 / bits` input features. */
  datatype Quantized = Quantized(qweights: Words, qzeros: Words, scales: seq<seq<real>>, bits: nat, outFeatures: nat)

  function PerWord(bits: nat): nat
    requires bits > 0
  {
    WORD / bits
  }

  predicate WellShaped(q: Quantized, groups: nat) {
    && Supported(q.bits)
    && (forall i :: 0 <= i < |q.qweights| ==> |q.qweights[i]| == q.outFeatures)
    && |q.qzeros| == groups && |q.scales| == groups
    && (forall g :: 0 <= g < groups ==> |q.scales[g]| == q.outFeatures)
    && (forall g :: 0 <= g < groups ==> |q.qzeros[g]| * PerWord(q.bits) == q.outFeatures)
  }

  function InFeatures(q: Quantized): nat
    requires q.bits > 0
  {
    |q.qweights| * PerWord(q.bits)
  }

  /** Which word, and which of its n fields, holds entry i. */
  function Place(i: nat, n: nat, count: nat): (p: (nat, nat))
    requires i < count * n
    ensures p.0 < count && p.1 < n && i == p.0 * n + p.1
  {
    assert n != 0;
    BlockIndexBound(i, n, count);
    (i / n, i % n)
  }

  /** Field t of a word. */
  function UnpackField(w: int, t: nat, bits: nat): nat { Unpack(w, t * bits, bits) }

  /** Entry j of a row of fields packed along the row. */
  function FieldOf(words: seq<int>, j: nat, bits: nat): nat
    requires Supported(bits) && j < |words| * PerWord(bits)
  {
    var (r, t) := Place(j, PerWord(bits), |words|);
    UnpackField(words[r], t, bits)
  }

  /** Unpacked weight of input i and output j; fields are packed along the inputs. */
  function Weight(q: Quantized, groups: nat, i: nat, j: nat): nat
    requires WellShaped(q, groups) && i < InFeatures(q) && j < q.outFeatures
  {
    var (r, t) := Place(i, PerWord(q.bits), |q.qweights|);
    UnpackField(q.qweights[r][j], t, q.bits)
  }

  /** Weight minus zero point, in the narrow type. */
  function Difference(q: Quantized, groups: nat, g: nat, i: nat, j: nat): int
    requires WellShaped(q, groups) && g < groups && i < InFeatures(q) && j < q.outFeatures
  {
    Subtract(Weight(q, groups, i, j), FieldOf(q.qzeros[g], j, q.bits), q.bits)
  }

  function Times(scale: real, difference: int): (w: real)
    ensures w == scale * difference as real
  {
    scale * difference as real
  }

  /** An entry of the weights. */
  function Entry(q: Quantized, groups: nat, g: nat, i: nat, j: nat): real
    requires WellShaped(q, groups) && g < groups && i < InFeatures(q) && j < q.outFeatures
  {
    Times(q.scales[g][j], Difference(q, groups, g, i, j))
  }

  /** Row i of the weights, with the scales and zero points of group g. */
  function EntryRow(q: Quantized, groups: nat, g: nat, i: nat): seq<real>
    requires WellShaped(q, groups) && g < groups && i < InFeatures(q)
  {
    seq(q.outFeatures, j requires 0 <= j < q.outFeatures => Entry(q, groups, g, i, j))
  }

  /** construct_weights with g_idx. */
  function Indexed(q: Quantized, groups: nat, gIdx: seq<nat>): (m: seq<seq<real>>)
    requires WellShaped(q, groups) && |gIdx| == InFeatures(q) && forall i :: 0 <= i < |gIdx| ==> gIdx[i] < groups
    ensures |m| == InFeatures(q)
  {
    seq(InFeatures(q), i requires 0 <= i < InFeatures(q) => EntryRow(q, groups, gIdx[i], i))
  }

  /** One group of the other form: rows g * size .. (g + 1) * size with the scales and zero points of group g. */
  function Group(q: Quantized, groups: nat, size: nat, g: nat): (m: seq<seq<real>>)
    requires WellShaped(q, groups) && g < groups && InFeatures(q) == groups * size
    ensures |m| == size
  {
    seq(size, t requires 0 <= t < size => SlotBound(g, size, groups, t); EntryRow(q, groups, g, g * size + t))
  }

  /** construct_weights without g_idx: group after group. */
  function Grouped(q: Quantized, groups: nat, size: nat, upTo: nat): (m: seq<seq<real>>)
    requires WellShaped(q, groups) && upTo <= groups && InFeatures(q) == groups * size
    ensures |m| == upTo * size
  {
    if upTo == 0 then []
    else
      assert upTo * size == (upTo - 1) * size + size;
      Grouped(q, groups, size, upTo - 1) + Group(q, groups, size, upTo - 1)
  }

  lemma {:induction false} GroupedRow(q: Quantized, groups: nat, size: nat, upTo: nat, g: nat, t: nat)
    requires WellShaped(q, groups) && g < upTo <= groups && t < size && InFeatures(q) == groups * size
    ensures g * size + t < InFeatures(q) && g * size + t < |Grouped(q, groups, size, upTo)|
    ensures Grouped(q, groups, size, upTo)[g * size + t] == EntryRow(q, groups, g, g * size + t)
  {
    SlotBound(g, size, upTo, t);
    SlotBound(g, size, groups, t);
    assert upTo * size == (upTo - 1) * size + size;
    if g < upTo - 1 {
      SlotBound(g, size, upTo - 1, t);
      GroupedRow(q, groups, size, upTo - 1, g, t);
    }
  }

  /** The two forms agree when g_idx sends row i to group i / size. */
  lemma FormsAgree(q: Quantized, groups: nat, size: nat, gIdx: seq<nat>)
    requires WellShaped(q, groups) && InFeatures(q) == groups * size && |gIdx| == InFeatures(q)
    requires size > 0 && forall i :: 0 <= i < |gIdx| ==> gIdx[i] == i / size && gIdx[i] < groups
    ensures Grouped(q, groups, size, groups) == Indexed(q, groups, gIdx)
  {
    forall i | 0 <= i < InFeatures(q) ensures Grouped(q, groups, size, groups)[i] == Indexed(q, groups, gIdx)[i] {
      var (g, t) := Place(i, size, groups);
      DivModUnique(i, size, g, t);
      GroupedRow(q, groups, size, groups, g, t);
    }
  }

  /** With as many groups as the layer allocates, the grouping by g_idx is the grouping by equal reshape exactly when the
      group size divides the inputs, or there is only one group. */
  lemma GroupingsAgree(inFeatures: nat, groupSize: nat, groups: nat, size: nat)
    requires groupSize > 0 && inFeatures > 0 && groups == CeilDiv(inFeatures, groupSize) && size > 0 && inFeatures == groups * size
    ensures (forall i :: 0 <= i < inFeatures ==> i / groupSize == i / size) <==> inFeatures == groups * groupSize || groups == 1
  {
    CeilDivBounds(inFeatures, groupSize);
    MulCancelLeft(size, groupSize, groups);
    if groups == 1 {
      forall i | 0 <= i < inFeatures ensures i / groupSize == i / size {
        DivModUnique(i, groupSize, 0, i);
        DivModUnique(i, size, 0, i);
      }
    } else if size != groupSize {
      MulMonotone(2, groups, size);
      DivModUnique(size, groupSize, 0, size);
      DivModUnique(size, size, 1, 0);
      assert size / groupSize != size / size;
    }
  }

  lemma MulCancelLeft(x: nat, y: nat, b: nat)
    requires b > 0 && b * x <= b * y
    ensures x <= y && (b * x == b * y ==> x == y)
  {
    if x > y { MulMonotone(y + 1, x, b); }
  }

  predicate AllWords(m: Words) { forall r, c :: 0 <= r < |m| && 0 <= c < |m[r]| ==> IsWord(m[r][c]) }

  /** The unsigned field t of a word. */
  function UnsignedField(w: int, t: nat, bits: nat): int { UnsignedBits(w, t * bits, bits) }

  lemma UnpackAt(w: int, t: nat, bits: nat)
    requires Supported(bits) && IsWord(w) && t < PerWord(bits)
    ensures UnpackField(w, t, bits) == UnsignedField(w, t, bits) < Pow2(bits)
  {
    FieldFits(t, bits);
    UnpackAtOffset(w, t, t * bits, bits);
  }

  lemma UnpackAtOffset(w: int, t: nat, k: nat, bits: nat)
    requires Supported(bits) && IsWord(w) && k == t * bits && k + bits <= WORD
    ensures UnpackField(w, t, bits) == UnsignedField(w, t, bits) < Pow2(bits)
  {
    UnpackExact(w, k, bits);
  }

  lemma WeightExact(q: Quantized, groups: nat, i: nat, j: nat)
    requires WellShaped(q, groups) && i < InFeatures(q) && j < q.outFeatures && AllWords(q.qweights)
    ensures var (r, t) := Place(i, PerWord(q.bits), |q.qweights|);
            Weight(q, groups, i, j) == UnsignedField(q.qweights[r][j], t, q.bits) < Pow2(q.bits)
  {
    var (r, t) := Place(i, PerWord(q.bits), |q.qweights|);
    UnpackAt(q.qweights[r][j], t, q.bits);
  }

  lemma FieldExact(words: seq<int>, j: nat, bits: nat)
    requires Supported(bits) && j < |words| * PerWord(bits) && AllWords([words])
    ensures var (r, t) := Place(j, PerWord(bits), |words|);
            FieldOf(words, j, bits) == UnsignedField(words[r], t, bits) < Pow2(bits)
  {
    var (r, t) := Place(j, PerWord(bits), |words|);
    assert IsWord([words][0][r]);
    UnpackAt(words[r], t, bits);
  }

  /** Every difference is exact: unsigned field minus unsigned field minus one. */
  lemma DifferenceExact(q: Quantized, groups: nat, g: nat, i: nat, j: nat)
    requires WellShaped(q, groups) && g < groups && i < InFeatures(q) && j < q.outFeatures
    requires AllWords(q.qweights) && AllWords(q.qzeros)
    ensures var (r, t) := Place(i, PerWord(q.bits), |q.qweights|);
            var (z, u) := Place(j, PerWord(q.bits), |q.qzeros[g]|);
            Difference(q, groups, g, i, j)
            == UnsignedField(q.qweights[r][j], t, q.bits) - UnsignedField(q.qzeros[g][z], u, q.bits) - 1
  {
    WeightExact(q, groups, i, j);
    FieldExact(q.qzeros[g], j, q.bits);
    DifferenceFits(q, groups, g, i, j);
  }

  lemma DifferenceFits(q: Quantized, groups: nat, g: nat, i: nat, j: nat)
    requires WellShaped(q, groups) && g < groups && i < InFeatures(q) && j < q.outFeatures
    requires Weight(q, groups, i, j) < Pow2(q.bits) && FieldOf(q.qzeros[g], j, q.bits) < Pow2(q.bits)
    ensures Difference(q, groups, g, i, j) == Weight(q, groups, i, j) - FieldOf(q.qzeros[g], j, q.bits) - 1
  {
    NoOverflow(Weight(q, groups, i, j), FieldOf(q.qzeros[g], j, q.bits), q.bits);
  }

  /** Field t of w as an unsigned number: bits t * bits and up. */
  lemma FieldIs(w: int, t: nat, bits: nat)
    ensures UnsignedField(w, t, bits) == Unsigned(w) / Pow2(t * bits) % Pow2(bits)
  {
  }

  /** A weight is the scale of its group and output, times its field minus the zero point's field minus one. */
  lemma EntryExact(q: Quantized, groups: nat, g: nat, i: nat, j: nat, r: nat, t: nat, z: nat, u: nat)
    requires WellShaped(q, groups) && g < groups && i < InFeatures(q) && j < q.outFeatures
    requires AllWords(q.qweights) && AllWords(q.qzeros)
    requires Place(i, PerWord(q.bits), |q.qweights|) == (r, t) && Place(j, PerWord(q.bits), |q.qzeros[g]|) == (z, u)
    ensures Entry(q, groups, g, i, j)
         == Times(q.scales[g][j],
                  UnsignedField(q.qweights[r][j], t, q.bits) - UnsignedField(q.qzeros[g][z], u, q.bits) - 1)
  {
    DifferenceExact(q, groups, g, i, j);
  }

  /** Entry (i, j) of the dequantised weights: the scale of the group that g_idx gives to row i, times the difference of the
      fields. */
  lemma IndexedExact(q: Quantized, groups: nat, gIdx: seq<nat>, i: nat, j: nat, r: nat, t: nat, z: nat, u: nat)
    requires WellShaped(q, groups) && |gIdx| == InFeatures(q) && forall k :: 0 <= k < |gIdx| ==> gIdx[k] < groups
    requires i < InFeatures(q) && j < q.outFeatures && AllWords(q.qweights) && AllWords(q.qzeros)
    requires Place(i, PerWord(q.bits), |q.qweights|) == (r, t) && Place(j, PerWord(q.bits), |q.qzeros[gIdx[i]]|) == (z, u)
    ensures Indexed(q, groups, gIdx)[i][j]
         == Times(q.scales[gIdx[i]][j],
                  UnsignedField(q.qweights[r][j], t, q.bits) - UnsignedField(q.qzeros[gIdx[i]][z], u, q.bits) - 1)
  {
    EntryExact(q, groups, gIdx[i], i, j, r, t, z, u);
  }

  lemma TimesIs(scale: real, d: int, w: real)
    requires w == Times(scale, d)
    ensures w == scale * d as real
  {
  }

  lemma FieldFits(t: nat, bits: nat)
    requires Supported(bits) && t < PerWord(bits)
    ensures t * bits + bits <= WORD
  {
  }

  // ----- the loops

  /** The shift amounts of the fields of a word. */
  method ShiftAmounts(bits: nat) returns (shifts: seq<nat>)
    requires Supported(bits)
    ensures |shifts| == PerWord(bits) && forall t :: 0 <= t < |shifts| ==> shifts[t] == t * bits
  {
    shifts := [];
    var i := 0;
    while i < WORD
      invariant i == |shifts| * bits && |shifts| <= PerWord(bits)
      invariant forall t :: 0 <= t < |shifts| ==> shifts[t] == t * bits
      decreases WORD - i
    {
      shifts := shifts + [i];
      i := i + bits;
    }
  }

  /** Shift every field of a row of words to the right end and convert it. */
  method ShiftWords(words: seq<int>, bits: nat) returns (fields: array<int>)
    requires Supported(bits)
    ensures fresh(fields) && fields.Length == |words| * PerWord(bits)
    ensures forall j :: 0 <= j < fields.Length ==> fields[j] == Shifted(words, j, bits)
  {
    var n := PerWord(bits);
    var shifts := ShiftAmounts(bits);
    fields := new int[|words| * n];
    for j := 0 to fields.Length
      invariant forall k :: 0 <= k < j ==> fields[k] == Shifted(words, k, bits)
    {
      var (r, t) := Place(j, n, |words|);
      fields[j] := Narrow(ShiftRight(words[r], shifts[t]), TypeWidth(bits));
    }
  }

  /** bitwise_and_. */
  method MaskInPlace(fields: array<int>, mask: int, width: nat)
    modifies fields
    ensures forall j :: 0 <= j < fields.Length ==> fields[j] == BitAnd(old(fields[j]), mask, width)
  {
    for j := 0 to fields.Length
      invariant forall k :: 0 <= k < fields.Length ==>
                  fields[k] == if k < j then BitAnd(old(fields[k]), mask, width) else old(fields[k])
    {
      fields[j] := BitAnd(fields[j], mask, width);
    }
  }

  /** add_(1). */
  method IncrementInPlace(fields: array<int>)
    modifies fields
    ensures forall j :: 0 <= j < fields.Length ==> fields[j] == old(fields[j]) + 1
  {
    for j := 0 to fields.Length
      invariant forall k :: 0 <= k < fields.Length ==> fields[k] == old(fields[k]) + if k < j then 1 else 0
    {
      fields[j] := fields[j] + 1;
    }
  }

  /** Unpack one row of zero points: shift and convert, then mask and increment in place. */
  method UnpackZeros(words: seq<int>, bits: nat) returns (zeros: array<int>)
    requires Supported(bits) && AllWords([words])
    ensures fresh(zeros) && zeros.Length == |words| * PerWord(bits)
    ensures forall j :: 0 <= j < zeros.Length ==>
              var (r, t) := Place(j, PerWord(bits), |words|); zeros[j] == UnsignedField(words[r], t, bits) + 1
  {
    zeros := ShiftWords(words, bits);
    MaskInPlace(zeros, Pow2(bits) - 1, TypeWidth(bits));
    assert forall j :: 0 <= j < zeros.Length ==> zeros[j] == FieldOf(words, j, bits);
    IncrementInPlace(zeros);
    forall j | 0 <= j < zeros.Length
      ensures var (r, t) := Place(j, PerWord(bits), |words|); zeros[j] == UnsignedField(words[r], t, bits) + 1
    {
      FieldExact(words, j, bits);
    }
  }

  function Shifted(words: seq<int>, j: nat, bits: nat): int
    requires Supported(bits) && j < |words| * PerWord(bits)
  {
    var (r, t) := Place(j, PerWord(bits), |words|);
    Narrow(ShiftRight(words[r], t * bits), TypeWidth(bits))
  }

  /** The default g_idx of a layer. */
  method GroupIndex(inFeatures: nat, groupSizeArg: int) returns (gIdx: seq<nat>)
    ensures |gIdx| == inFeatures
    ensures forall i :: 0 <= i < inFeatures ==> gIdx[i] == if groupSizeArg > 0 then i / groupSizeArg else 0
  {
    var groupSize := if groupSizeArg > 0 then groupSizeArg else inFeatures;
    gIdx := [];
    for i := 0 to inFeatures
      invariant |gIdx| == i
      invariant forall k :: 0 <= k < i ==> gIdx[k] == if groupSizeArg > 0 then k / groupSizeArg else 0
    {
      if groupSizeArg <= 0 { DivModUnique(i, inFeatures, 0, i); }
      gIdx := gIdx + [i / groupSize];
    }
  }
}
