/** The build configuration: which instruction set the library targets, and
    the storage each value type gets under it.

    An instruction set is a 32-bit mask.  Each named set is its own bit
    together with every bit of the set it extends, so the x86 sets form a
    chain from SSE up to AVX2 and NEON extends ARM.  The set is chosen by the
    first build option present, or by the compiler's own target macros when
    only auto-detection is asked for; the storage typedefs are then chosen by
    testing the set's bits, first match wins. */
module Configuration {

  datatype Option<T> = None | Some(value: T)

  // The bit lattice.

  const DefaultBit: bv32 := 0
  const X86Bit: bv32 := 0x4000_0000
  const ArmBit: bv32 := 0x8000_0000
  const NeonBit: bv32 := 0x0000_0001
  const SseBit: bv32 := 0x0000_0002
  const Sse2Bit: bv32 := 0x0000_0004
  const Sse3Bit: bv32 := 0x0000_0008
  const Ssse3Bit: bv32 := 0x0000_0010
  const Sse41Bit: bv32 := 0x0000_0020
  const Sse42Bit: bv32 := 0x0000_0040
  const AvxBit: bv32 := 0x0000_0080
  const Avx2Bit: bv32 := 0x0000_0100

  const Default: bv32 := DefaultBit
  const X86: bv32 := X86Bit
  const Arm: bv32 := ArmBit
  const Neon: bv32 := NeonBit | Arm
  const Sse: bv32 := SseBit | X86
  const Sse2: bv32 := Sse2Bit | Sse
  const Sse3: bv32 := Sse3Bit | Sse2
  const Ssse3: bv32 := Ssse3Bit | Sse3
  const Sse41: bv32 := Sse41Bit | Ssse3
  const Sse42: bv32 := Sse42Bit | Sse41
  const Avx: bv32 := AvxBit | Sse42
  const Avx2: bv32 := Avx2Bit | Avx

  /** Every bit of `small` is set in `big`. */
  predicate Contains(big: bv32, small: bv32) {
    big & small == small
  }

  predicate Has(s: bv32, bit: bv32) {
    s & bit != 0
  }

  /** Each named set contains the one it extends, so containment runs down
      the whole chain; the x86 and ARM families share no bit, and the
      default set is empty. */
  lemma InstructionSetLattice()
    ensures Contains(Avx2, Avx) && Contains(Avx, Sse42) && Contains(Sse42, Sse41)
    ensures Contains(Sse41, Ssse3) && Contains(Ssse3, Sse3) && Contains(Sse3, Sse2)
    ensures Contains(Sse2, Sse) && Contains(Sse, X86) && Contains(Neon, Arm)
    ensures Contains(Avx2, X86) && !Contains(X86, Sse) && !Contains(Avx, Avx2)
    ensures Avx2 & Neon == 0 && Default == 0
  {
  }

  /** Containment is a partial order on masks. */
  lemma ContainsIsAPartialOrder(a: bv32, b: bv32, c: bv32)
    ensures Contains(a, a)
    ensures Contains(a, b) && Contains(b, a) ==> a == b
    ensures Contains(a, b) && Contains(b, c) ==> Contains(a, c)
  {
  }

  // Choosing the instruction set.

  /** The `CIN_USE_*` options a build may define. */
  datatype BuildOption =
    | UseDefault | UseNeon | UseAvx2 | UseAvx | UseSse42 | UseSse41
    | UseSsse3 | UseSse3 | UseSse2 | UseSse | UseIntrinsics

  /** The compiler's target macros that auto-detection looks at.  `Sse2Macro`
      stands for any of `__SSE2__`, `__x86_64__`, `_M_X64`, `_M_IX86_FP`, and
      `ArmMacro` for `__arm__` or `_M_ARM`. */
  datatype TargetMacro =
    | Avx2Macro | AvxMacro | Sse42Macro | Sse41Macro | Ssse3Macro | Sse3Macro
    | Sse2Macro | I386Macro | ArmNeonMacro | ArmMacro

  /** What the configuration block defines: the instruction set, if any, and
      whether intrinsics are forced. */
  datatype Choice = Choice(instructionSet: Option<bv32>, forceIntrinsics: bool)

  /** The `#if`/`#elif` chain of the configuration block, in its order. */
  function Choose(options: set<BuildOption>, macros: set<TargetMacro>): (c: Choice)
    ensures UseDefault in options ==> c == Choice(Some(Default), false)
  {
    if UseDefault in options then Choice(Some(Default), false)
    else if UseNeon in options then Choice(Some(Neon), true)
    else if UseAvx2 in options then Choice(Some(Avx2), true)
    else if UseAvx in options then Choice(Some(Avx), true)
    else if UseSse42 in options then Choice(Some(Sse42), true)
    else if UseSse41 in options then Choice(Some(Sse41), true)
    else if UseSsse3 in options then Choice(Some(Ssse3), true)
    else if UseSse3 in options then Choice(Some(Sse3), true)
    else if UseSse2 in options then Choice(Some(Sse2), true)
    else if UseSse in options then Choice(Some(Sse), false)
    else if UseIntrinsics in options then Choice(Some(Detect(macros)), false)
    else Choice(None, false)
  }

  /** Auto-detection: the strongest target macro the compiler defines.  It
      falls back to the default set exactly when the compiler defines none of
      them, and picks AVX2 exactly when the compiler announces it. */
  function Detect(macros: set<TargetMacro>): (r: bv32)
    ensures r == Default <==> macros == {}
    ensures Has(r, Avx2Bit) <==> Avx2Macro in macros
  {
    if Avx2Macro in macros then Avx2
    else if AvxMacro in macros then Avx
    else if Sse42Macro in macros then Sse42
    else if Sse41Macro in macros then Sse41
    else if Ssse3Macro in macros then Ssse3
    else if Sse3Macro in macros then Sse3
    else if Sse2Macro in macros then Sse2
    else if I386Macro in macros then X86
    else if ArmNeonMacro in macros then Arm | Neon
    else if ArmMacro in macros then Arm
    else
      // The ten target macros are all there are, so none present means none.
      assert macros == {} by {
        forall m | m in macros
          ensures false
        {
          if m.Avx2Macro? || m.AvxMacro? || m.Sse42Macro? || m.Sse41Macro? || m.Ssse3Macro? {
          } else if m.Sse3Macro? || m.Sse2Macro? || m.I386Macro? || m.ArmNeonMacro? || m.ArmMacro? {
          }
        }
      }
      Default
  }

  /** The forced options in order of precedence, each with the set it selects. */
  const ForcedOptions: seq<(BuildOption, bv32)> := [
    (UseNeon, Neon), (UseAvx2, Avx2), (UseAvx, Avx), (UseSse42, Sse42),
    (UseSse41, Sse41), (UseSsse3, Ssse3), (UseSse3, Sse3), (UseSse2, Sse2)]

  /** The set of the first entry of `table` whose option is present. */
  function FirstPresent(table: seq<(BuildOption, bv32)>, options: set<BuildOption>): Option<bv32> {
    if |table| == 0 then None
    else if table[0].0 in options then Some(table[0].1)
    else FirstPresent(table[1..], options)
  }

  /** Precedence, stated against the table: the default option overrides
      every other; otherwise the first forced option present decides, and
      forces intrinsics; `CIN_USE_SSE` and auto-detection come after all of
      them; with no option at all no set is defined. */
  lemma OptionPrecedence(options: set<BuildOption>, macros: set<TargetMacro>)
    ensures UseDefault !in options && FirstPresent(ForcedOptions, options).Some? ==>
      Choose(options, macros) == Choice(FirstPresent(ForcedOptions, options), true)
    ensures UseDefault !in options && FirstPresent(ForcedOptions, options).None? ==>
      Choose(options, macros) ==
        if UseSse in options then Choice(Some(Sse), false)
        else if UseIntrinsics in options then Choice(Some(Detect(macros)), false)
        else Choice(None, false)
    ensures Choose(options, macros).forceIntrinsics <==>
      UseDefault !in options && FirstPresent(ForcedOptions, options).Some?
  {
    var t := ForcedOptions;
    var o := options;
    assert FirstPresent(t[8..], o) == None;
    assert FirstPresent(t[7..], o) == if UseSse2 in o then Some(Sse2) else None;
    assert FirstPresent(t[6..], o) == if UseSse3 in o then Some(Sse3) else FirstPresent(t[7..], o);
    assert FirstPresent(t[5..], o) == if UseSsse3 in o then Some(Ssse3) else FirstPresent(t[6..], o);
    assert FirstPresent(t[4..], o) == if UseSse41 in o then Some(Sse41) else FirstPresent(t[5..], o);
    assert FirstPresent(t[3..], o) == if UseSse42 in o then Some(Sse42) else FirstPresent(t[4..], o);
    assert FirstPresent(t[2..], o) == if UseAvx in o then Some(Avx) else FirstPresent(t[3..], o);
    assert FirstPresent(t[1..], o) == if UseAvx2 in o then Some(Avx2) else FirstPresent(t[2..], o);
    assert FirstPresent(t, o) == if UseNeon in o then Some(Neon) else FirstPresent(t[1..], o);
  }

  /** The mask the storage tests read: an undefined `CIN_INSTRUCTION_SET`
      evaluates to 0 inside `#if`. */
  function EffectiveSet(c: Choice): (s: bv32)
    ensures c.instructionSet.None? ==> s == Default
  {
    match c.instructionSet
    case None => Default
    case Some(s) => s
  }

  // Storage.

  /** What holds a shape's floats: a plain array of `n` floats, `count`
      128-bit registers (four floats each), or `count` 256-bit registers
      (eight floats each).  `Single` is a bare `float`. */
  datatype Container = Single | Array(n: nat) | Registers128(count: nat) | Registers256(count: nat)

  function Capacity(c: Container): nat {
    match c
    case Single => 1
    case Array(n) => n
    case Registers128(count) => 4 * count
    case Registers256(count) => 8 * count
  }

  predicate IsPlain(c: Container) {
    c.Single? || c.Array?
  }

  /** The float typedefs of one configuration. */
  datatype Layout = Layout(
    vector1: Container, vector2: Container, vector3: Container, vector4: Container,
    matrix1: Container, matrix2: Container, matrix3: Container, matrix4: Container,
    quaternion: Container)

  /** A layout fits its shapes: each container holds exactly its shape's
      element count, and the 1-, 2- and 3-vectors and the 3x3 matrix are
      plain arrays in every configuration. */
  predicate Fits(l: Layout) {
    && Capacity(l.vector1) == 1 && Capacity(l.vector2) == 2 && Capacity(l.vector3) == 3
    && Capacity(l.vector4) == 4 && Capacity(l.matrix1) == 1 && Capacity(l.matrix2) == 4
    && Capacity(l.matrix3) == 9 && Capacity(l.matrix4) == 16 && Capacity(l.quaternion) == 4
    && IsPlain(l.vector1) && IsPlain(l.vector2) && IsPlain(l.vector3) && IsPlain(l.matrix1)
    && IsPlain(l.matrix3) && l.quaternion == l.vector4
  }

  /** The storage typedef chain: plain arrays for the default set; with an
      AVX bit, one 128-bit register for 4-vectors and 2x2 matrices and two
      256-bit registers for 4x4 matrices; with SSE2, or with SSE alone, four
      128-bit registers for 4x4 matrices.  A set that sets none of these
      bits and is not the default set matches no branch. */
  function SelectLayout(s: bv32): (r: Option<Layout>)
    ensures r.Some? ==> Fits(r.value)
    ensures r.Some? <==> s == Default || Has(s, Avx2Bit) || Has(s, AvxBit) || Has(s, Sse2Bit) || Has(s, SseBit)
  {
    if s == Default then
      Some(Layout(Single, Array(2), Array(3), Array(4), Single, Array(4), Array(9), Array(16), Array(4)))
    else if Has(s, Avx2Bit) || Has(s, AvxBit) then
      Some(Layout(Single, Array(2), Array(3), Registers128(1), Single, Registers128(1), Array(9), Registers256(2), Registers128(1)))
    else if Has(s, Sse2Bit) then
      Some(Layout(Single, Array(2), Array(3), Registers128(1), Single, Registers128(1), Array(9), Registers128(4), Registers128(1)))
    else if Has(s, SseBit) then
      Some(Layout(Single, Array(2), Array(3), Registers128(1), Single, Registers128(1), Array(9), Registers128(4), Registers128(1)))
    else None
  }

  /** The layouts of the named sets: every x86 set from SSE up gets
      registers, AVX and AVX2 store the 4x4 matrix in two 256-bit registers,
      the SSE family in four 128-bit ones; ARM, NEON and bare x86 match no
      branch. */
  lemma NamedSetLayouts()
    ensures SelectLayout(Default).Some? && IsPlain(SelectLayout(Default).value.matrix4)
    ensures SelectLayout(Avx2) == SelectLayout(Avx)
    ensures SelectLayout(Avx).Some? && SelectLayout(Avx).value.matrix4 == Registers256(2)
    ensures SelectLayout(Sse42) == SelectLayout(Sse41) == SelectLayout(Ssse3) == SelectLayout(Sse3)
      == SelectLayout(Sse2) == SelectLayout(Sse)
    ensures SelectLayout(Sse).Some? && SelectLayout(Sse).value.matrix4 == Registers128(4)
    ensures SelectLayout(Arm).None? && SelectLayout(Neon).None? && SelectLayout(Arm | Neon).None?
    ensures SelectLayout(X86).None?
  {
  }

  /** The storage of a whole build: choose the set, then the layout.  With
      no option defined, or with the default option among any others, the
      build gets plain arrays; whatever it gets fits its shapes. */
  function BuildLayout(options: set<BuildOption>, macros: set<TargetMacro>): (r: Option<Layout>)
    ensures r.Some? ==> Fits(r.value)
    ensures options == {} || UseDefault in options ==> r == SelectLayout(Default)
  {
    SelectLayout(EffectiveSet(Choose(options, macros)))
  }

  lemma BuildLayoutFixtures(macros: set<TargetMacro>)
    ensures BuildLayout({}, macros) == SelectLayout(Default)
    ensures BuildLayout({UseDefault, UseAvx2}, macros) == SelectLayout(Default)
    ensures BuildLayout({UseAvx2, UseSse2}, macros).value.matrix4 == Registers256(2)
    ensures BuildLayout({UseIntrinsics}, {ArmNeonMacro}).None?
    ensures BuildLayout({UseIntrinsics}, {Sse2Macro, I386Macro}).value.matrix4 == Registers128(4)
  {
  }

  /** `Storage<length, T>`: the generic container is a plain array of
      `length` values; only float vectors of length 2, 3 and 4 use the
      configuration's typedefs. */
  function VectorStorage(l: Layout, length: nat, isFloat: bool): (c: Container)
    ensures Fits(l) ==> Capacity(c) == length
    ensures !isFloat ==> c == Array(length)
  {
    if isFloat && length == 2 then l.vector2
    else if isFloat && length == 3 then l.vector3
    else if isFloat && length == 4 then l.vector4
    else Array(length)
  }

  /** `MatrixStorage<rows, columns, T>`: declared with no general definition
      and specialised only for float 2x2, 3x3 and 4x4, so any other matrix
      has no container. */
  function MatrixStorage(l: Layout, rows: nat, columns: nat, isFloat: bool): (r: Option<Container>)
    ensures r.Some? <==> isFloat && rows == columns && 2 <= rows <= 4
    ensures r.Some? && Fits(l) ==> Capacity(r.value) == rows * columns
  {
    if !isFloat || rows != columns then None
    else if rows == 2 then Some(l.matrix2)
    else if rows == 3 then Some(l.matrix3)
    else if rows == 4 then Some(l.matrix4)
    else None
  }

  // Constants::Factorial.

  /** The width of `std::size_t`: the library builds for 32-bit targets
      (`_M_IX86_FP`, `__i386__`, `__arm__`) as well as 64-bit ones, and
      unsigned arithmetic wraps modulo 2 to the width. */
  datatype SizeWidth = Size32 | Size64

  function SizeModulus(w: SizeWidth): (m: nat)
    ensures m > 0
  {
    match w
    case Size32 => 0x1_0000_0000
    case Size64 => 0x1_0000_0000_0000_0000
  }

  /** The mathematical factorial. */
  function MathFactorial(n: nat): nat {
    if n == 0 then 1 else n * MathFactorial(n - 1)
  }

  /** `Factorial<N>()`: only for positive integral `N`; `N * Factorial<N-1>()`
      down to the base case `Factorial<1>() == 1`, in a `std::size_t` of
      width `w`. */
  function Factorial(w: SizeWidth, n: nat): (r: nat)
    requires n > 0
    ensures r < SizeModulus(w)
    ensures r == MathFactorial(n) % SizeModulus(w)
    decreases n
  {
    if n > 1 then
      var rest := Factorial(w, n - 1);
      MultiplyModulo(n, MathFactorial(n - 1), SizeModulus(w));
      (n * rest) % SizeModulus(w)
    else
      n
  }

  /** Reducing a factor before multiplying does not change the product's residue. */
  lemma {:induction false} MultiplyModulo(a: nat, b: nat, m: nat)
    requires m > 0
    ensures (a * (b % m)) % m == (a * b) % m
  {
    var q := b / m;
    assert b == q * m + b % m;
    assert a * b == (a * q) * m + a * (b % m);
    ModuloIgnoresMultiples(a * (b % m), a * q, m);
  }

  lemma ModuloIgnoresMultiples(x: nat, k: nat, m: nat)
    requires m > 0
    ensures (k * m + x) % m == x % m
  {
    var q := x / m;
    assert x == q * m + x % m;
    assert k * m + x == (k + q) * m + x % m;
    RemainderIsUnique(k * m + x, k + q, x % m, m);
  }

  /** Writing `y` as `d * m + r` with `0 <= r < m` fixes `r` as `y % m`. */
  lemma RemainderIsUnique(y: int, d: int, r: int, m: int)
    requires m > 0 && 0 <= r < m && y == d * m + r
    ensures y % m == r
  {
    var d', r' := y / m, y % m;
    assert (d - d') * m == r' - r;
    if d - d' >= 1 {
      assert false;
    } else if d - d' <= -1 {
      assert false;
    }
  }

  lemma {:induction false} FactorialTable()
    ensures MathFactorial(12) == 479001600 && MathFactorial(13) == 6227020800
    ensures MathFactorial(20) == 2432902008176640000 && MathFactorial(21) == 51090942171709440000
  {
    assert MathFactorial(1) == 1;
    assert MathFactorial(2) == 2;
    assert MathFactorial(3) == 6;
    assert MathFactorial(4) == 24;
    assert MathFactorial(5) == 120;
    assert MathFactorial(6) == 720;
    assert MathFactorial(7) == 5040;
    assert MathFactorial(8) == 40320;
    assert MathFactorial(9) == 362880;
    assert MathFactorial(10) == 3628800;
    assert MathFactorial(11) == 39916800;
    assert MathFactorial(12) == 479001600;
    assert MathFactorial(13) == 6227020800;
    assert MathFactorial(14) == 87178291200;
    assert MathFactorial(15) == 1307674368000;
    assert MathFactorial(16) == 20922789888000;
    assert MathFactorial(17) == 355687428096000;
    assert MathFactorial(18) == 6402373705728000;
    assert MathFactorial(19) == 121645100408832000;
    assert MathFactorial(20) == 2432902008176640000;
  }

  /** With a 64-bit `std::size_t`, 20! is the last factorial that fits; from
      21 on the result wraps. */
  lemma FactorialWrapsAfterTwenty()
    ensures MathFactorial(20) < SizeModulus(Size64) && Factorial(Size64, 20) == MathFactorial(20)
    ensures MathFactorial(21) >= SizeModulus(Size64) && Factorial(Size64, 21) != MathFactorial(21)
  {
    FactorialTable();
  }

  /** With a 32-bit `std::size_t`, 12! is the last factorial that fits; from
      13 on the result wraps. */
  lemma FactorialWrapsAfterTwelve()
    ensures MathFactorial(12) < SizeModulus(Size32) && Factorial(Size32, 12) == MathFactorial(12)
    ensures MathFactorial(13) >= SizeModulus(Size32) && Factorial(Size32, 13) != MathFactorial(13)
  {
    FactorialTable();
  }

  lemma FactorialFixtures()
    ensures Factorial(Size32, 1) == 1 && Factorial(Size32, 3) == 6 && Factorial(Size32, 5) == 120
    ensures Factorial(Size64, 1) == 1 && Factorial(Size64, 3) == 6 && Factorial(Size64, 5) == 120
  {
  }
}
