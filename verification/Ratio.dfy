/** The ratio type that multiplies without overflowing early, built on Euclid's algorithm,
    and the frame buffer size computed with it. */
module Ratio {
  import opened Bytes
  import opened Images

  const U32: nat := 0x1_0000_0000

  /** `RatioU32`; both parts are `u32`. */
  datatype Ratio = Ratio(numer: nat, denom: nat)

  predicate Valid(r: Ratio) {
    r.numer < U32 && 0 < r.denom < U32
  }

  predicate Divides(d: nat, n: int) {
    if d == 0 then n == 0 else n % d == 0
  }

  lemma Times(d: nat, k: int)
    ensures Divides(d, d * k)
  {
    if d > 0 {
      DivModInt(d * k, d, k, 0);
    }
  }

  lemma DivModInt(i: int, w: int, q: int, r: int)
    requires w > 0 && 0 <= r < w && i == q * w + r
    ensures i / w == q && i % w == r
  {
    var e := i / w;
    assert e * w - q * w == r - i % w;
    assert (e - q) * w == e * w - q * w && (q - e) * w == q * w - e * w;
    if e >= q {
      SmallMultiple(e - q, w);
    } else {
      SmallMultiple(q - e, w);
    }
  }

  lemma SmallMultiple(e: nat, w: nat)
    requires e * w < w
    ensures e == 0
  {
    if e > 0 {
      MulMono(1, e, w);
    }
  }

  lemma Factor(d: nat, n: int) returns (k: int)
    requires Divides(d, n)
    ensures n == d * k
  {
    k := if d == 0 then 0 else n / d;
  }

  /** A number that divides two numbers divides each combination of them. */
  lemma DividesSum(d: nat, a: int, b: int, s: int, t: int)
    requires Divides(d, a) && Divides(d, b)
    ensures Divides(d, s * a + t * b)
  {
    var k := Factor(d, a);
    var l := Factor(d, b);
    Times(d, s * k + t * l);
    assert s * a + t * b == d * (s * k + t * l);
  }

  /** Euclid's algorithm */
  function Gcd(x: nat, y: nat): (g: nat)
    decreases y
  {
    if y == 0 then x else Gcd(y, x % y)
  }

  /** The greatest common divisor in the order of divisibility. */
  ghost predicate IsGcd(g: nat, x: nat, y: nat) {
    && Divides(g, x) && Divides(g, y)
    && (forall d: nat :: Divides(d, x) && Divides(d, y) ==> Divides(d, g))
  }

  lemma {:induction false} GcdIsGreatest(x: nat, y: nat)
    ensures IsGcd(Gcd(x, y), x, y)
    decreases y
  {
    var g := Gcd(x, y);
    if y == 0 {
      Times(x, 1);
    } else {
      GcdIsGreatest(y, x % y);
      SameDivisors(x, y, x / y, x % y, g);
    }
  }

  lemma SameDivisors(x: nat, y: nat, q: int, r: nat, g: nat)
    requires x == q * y + r && IsGcd(g, y, r)
    ensures IsGcd(g, x, y)
  {
    assert r == 1 * x + (-q) * y;
    hide Divides;
    DividesSum(g, y, r, q, 1);
    forall d: nat | Divides(d, x) && Divides(d, y)
      ensures Divides(d, g)
    {
      DividesSum(d, x, y, 1, -q);
    }
  }

  /** `gcd`: the loop ends and leaves the greatest common divisor. */
  method GcdLoop(x0: nat, y0: nat) returns (x: nat)
    ensures IsGcd(x, x0, y0) && x == Gcd(x0, y0)
  {
    x := x0;
    var y: nat := y0;
    while y != 0
      invariant Gcd(x, y) == Gcd(x0, y0)
    {
      x, y := y, x % y;
    }
    GcdIsGreatest(x0, y0);
  }

  lemma {:induction false} Bezout(x: nat, y: nat) returns (s: int, t: int)
    ensures s * x + t * y == Gcd(x, y)
    decreases y
  {
    if y == 0 {
      s, t := 1, 0;
    } else {
      var u, v := Bezout(y, x % y);
      var q := x / y;
      s, t := v, u - v * q;
      assert x % y == x - q * y;
      assert v * (x - q * y) == v * x - v * q * y;
    }
  }

  ghost predicate Coprime(a: nat, b: nat) {
    Gcd(a, b) == 1
  }

  lemma CombinationIsOne(a: nat, b: nat, s: int, t: int)
    requires s * a + t * b == 1
    ensures Coprime(a, b)
  {
    GcdIsGreatest(a, b);
    DividesSum(Gcd(a, b), a, b, s, t);
    assert Divides(Gcd(a, b), 1);
  }

  /** What is coprime to `c` stays so when multiplied, and what it divides too. */
  lemma CoprimeProduct(a: nat, b: nat, c: nat)
    requires Coprime(a, c) && Coprime(b, c)
    ensures Coprime(a * b, c)
  {
    var s, t := Bezout(a, c);
    var u, v := Bezout(b, c);
    assert (s * a + t * c) * (u * b + v * c) == 1;
    Expand(s, a, t, c, u, b, v);
    hide *;
    CombinationIsOne(a * b, c, s * u, s * a * v + t * u * b + t * c * v);
  }

  lemma Expand(s: int, a: int, t: int, c: int, u: int, b: int, v: int)
    ensures (s * a + t * c) * (u * b + v * c) == s * u * (a * b) + (s * a * v + t * u * b + t * c * v) * c
  {
    var m, n := s * a, t * c;
    Foil(m, n, u * b, v * c);
    Swap(s, a, u, b);
    assert m * (v * c) == (m * v) * c && n * (v * c) == (n * v) * c;
    Swap(t, c, u, b);
    assert n * (u * b) == (t * u * b) * c by { assert (t * u) * (c * b) == (t * u * b) * c; }
    Gather(m * v, t * u * b, n * v, c);
  }

  lemma Foil(a: int, b: int, c: int, d: int)
    ensures (a + b) * (c + d) == a * c + a * d + b * c + b * d
  {
  }

  lemma Swap(a: int, b: int, c: int, d: int)
    ensures (a * b) * (c * d) == (a * c) * (b * d)
  {
  }

  lemma Gather(x: int, y: int, z: int, c: int)
    ensures (x + y + z) * c == x * c + y * c + z * c
  {
  }

  lemma CoprimeDivisor(a: nat, b: nat, g: nat, d: nat)
    requires Coprime(a, b) && b == g * d
    ensures Coprime(a, d)
  {
    var s, t := Bezout(a, b);
    assert t * b == t * g * d;
    hide *;
    CombinationIsOne(a, d, s, t * g);
  }

  lemma GcdLeavesCoprime(a: nat, b: nat)
    requires b > 0
    ensures var g := Gcd(a, b); g > 0 && a == g * (a / g) && b == g * (b / g) && Coprime(a / g, b / g)
  {
    GcdIsGreatest(a, b);
    var g := Gcd(a, b);
    var s, t := Bezout(a, b);
    hide Gcd, Coprime;
    var k := Factor(g, a);
    var l := Factor(g, b);
    PositiveFactor(l, g, b);
    DivModInt(a, g, k, 0);
    DivModInt(b, g, l, 0);
    hide *;
    Quotients(s, a, t, b, g, k, l);
    CombinationIsOne(a / g, b / g, s, t);
  }

  lemma PositiveFactor(g: int, d: nat, n: nat)
    requires n == g * d && n > 0
    ensures 0 < d <= n
  {
    if g > 0 { MulMono(1, g, d); }
  }

  lemma Quotients(s: int, a: int, t: int, b: int, g: int, k: int, l: int)
    requires g > 0 && a == g * k && b == g * l && s * a + t * b == g
    ensures s * k + t * l == 1
  {
    assert s * a == g * (s * k) && t * b == g * (t * l);
    Cancel(g, s * k + t * l, 1);
  }

  lemma Cancel(g: int, a: int, b: int)
    requires g > 0 && g * a == g * b
    ensures a == b
  {
    assert (a - b) * g == g * a - g * b && (b - a) * g == g * b - g * a;
    if a >= b {
      SmallMultiple(a - b, g);
    } else {
      SmallMultiple(b - a, g);
    }
  }

  // ---------------------------------------------------------------- RatioU32

  /** A factor and the denominator it is about to meet, without their common divisor. */
  function Reduced(k: nat, denom: nat): (p: (nat, nat))
    requires denom > 0
    ensures p.1 > 0
  {
    GcdLeavesCoprime(k, denom);
    var g := Gcd(k, denom);
    (k / g, denom / g)
  }

  /** `mul`: `None` when the new numerator does not fit into a `u32`. */
  function Mul(r: Ratio, k: nat): (p: Option<Ratio>)
    requires Valid(r) && k < U32
  {
    var (m, d) := Reduced(k, r.denom);
    var n := r.numer * m;
    if n < U32 then Some(Ratio(n, d)) else None
  }

  /** The numerator and denominator before the check. */
  lemma MulParts(r: Ratio, k: nat) returns (n: nat, d: nat)
    requires Valid(r) && k < U32
    ensures Mul(r, k) == if n < U32 then Some(Ratio(n, d)) else None
    ensures 0 < d <= r.denom && n * r.denom == r.numer * k * d
    ensures Coprime(r.numer, r.denom) ==> Coprime(n, d)
  {
    hide Gcd, Coprime;
    GcdLeavesCoprime(k, r.denom);
    var g := Gcd(k, r.denom);
    var m := k / g;
    n, d := r.numer * m, r.denom / g;
    assert Mul(r, k) == if n < U32 then Some(Ratio(n, d)) else None;
    assert r.denom > 0;
    hide *;
    Shuffle(r.numer, m, g, d);
    PositiveFactor(g, d, r.denom);
    if Coprime(r.numer, r.denom) {
      CoprimeDivisor(r.numer, r.denom, g, d);
      CoprimeProduct(r.numer, m, d);
    }
  }

  lemma Shuffle(a: int, m: int, g: int, d: int)
    ensures (a * m) * (g * d) == a * (g * m) * d
  {
  }

  /** The product is exact as a rational, its denominator is never zero, and lowest terms
      stay lowest terms. */
  lemma MulIsExact(r: Ratio, k: nat)
    requires Valid(r) && k < U32 && Mul(r, k).Some?
    ensures var p := Mul(r, k).value;
            && Valid(p)
            && p.numer * r.denom == r.numer * k * p.denom
            && (Coprime(r.numer, r.denom) ==> Coprime(p.numer, p.denom))
  {
    var n, d := MulParts(r, k);
    hide Mul, Coprime;
  }

  /** A ratio in lowest terms overflows on a multiplication exactly when no fraction equal
      to the product has a numerator that fits: reducing first is as good as it gets. */
  lemma MulOverflowsExactly(r: Ratio, k: nat)
    requires Valid(r) && k < U32 && Coprime(r.numer, r.denom)
    ensures Mul(r, k).None?
       <==> (forall a: nat, b: nat :: b > 0 && SameRatio(a, b, r.numer * k, r.denom) ==> a >= U32)
  {
    var n, d := MulParts(r, k);
    if n < U32 {
      assert SameRatio(n, d, r.numer * k, r.denom);
    } else {
      forall a: nat, b: nat | b > 0 && SameRatio(a, b, r.numer * k, r.denom)
        ensures a >= U32
      {
        Transitive(a, b, r.numer * k, r.denom, n, d);
        LowestIsLeast(n, d, a, b);
      }
    }
  }

  predicate SameRatio(a: int, b: int, n: int, d: int) {
    a * d == n * b
  }

  lemma Transitive(a: nat, b: nat, m: int, e: nat, n: nat, d: nat)
    requires b > 0 && e > 0 && d > 0
    requires SameRatio(a, b, m, e) && SameRatio(n, d, m, e)
    ensures SameRatio(a, b, n, d)
  {
    assert e * (a * d) == (a * e) * d == (m * b) * d == (m * d) * b == (n * e) * b == e * (n * b);
    Cancel(e, a * d, n * b);
  }

  lemma LowestIsLeast(n: nat, d: nat, a: nat, b: nat)
    requires Coprime(n, d) && d > 0 && b > 0 && SameRatio(a, b, n, d)
    ensures a >= n
  {
    var s, t := Bezout(n, d);
    assert a == a * (s * n + t * d) == s * a * n + t * (a * d) == n * (s * a + t * b) by {
      Factored(a, s, n, t, d, b);
    }
    var q := s * a + t * b;
    if q <= 0 {
      assert a <= 0 by { assert n * q <= 0; }
      assert n * b == 0;
    } else {
      assert n * q >= n;
    }
  }

  lemma Factored(a: int, s: int, n: int, t: int, d: int, b: int)
    requires s * n + t * d == 1 && a * d == n * b
    ensures a == a * (s * n + t * d) == s * a * n + t * (a * d) == n * (s * a + t * b)
  {
    assert t * (a * d) == t * (n * b);
  }

  function Ceil(r: Ratio): (c: nat)
    requires Valid(r)
  {
    if r.numer % r.denom == 0 then r.numer / r.denom else r.numer / r.denom + 1
  }

  /** `ceil` is the least integer not below the value, and fits into a `u32`. */
  lemma CeilIsLeast(r: Ratio)
    requires Valid(r)
    ensures Ceil(r) * r.denom >= r.numer && Ceil(r) < U32
    ensures forall m: nat :: m * r.denom >= r.numer ==> m >= Ceil(r)
  {
    var q, e, c := r.numer / r.denom, r.numer % r.denom, Ceil(r);
    CeilParts(r.numer, r.denom, q, e, c);
    hide *;
    forall m: nat | m * r.denom >= r.numer
      ensures m >= c
    {
      if m < c { MulMono(m, c - 1, r.denom); }
    }
  }

  lemma CeilParts(n: nat, d: nat, q: nat, e: nat, c: int)
    requires n == q * d + e && 0 <= e < d && c == if e == 0 then q else q + 1
    ensures c * d >= n && (c == 0 || (c - 1) * d < n)
    ensures c <= n
  {
    assert (q + 1) * d == q * d + d && (q - 1) * d == q * d - d;
    MulMono(1, d, q);
  }

  // ---------------------------------------------------------------- frame buffers

  /** `(size + 1) & !1` */
  function Align2(size: nat): nat {
    2 * Half(size)
  }

  function BytesPerPixel(format: PixelFormat): (r: Ratio)
    requires Supported(format)
    ensures Valid(r) && Coprime(r.numer, r.denom)
  {
    match format
    case Nv12 => Ratio(3, 2)
    case Yuyv => Ratio(2, 1)
    case Rgb888 => Ratio(3, 1)
  }

  /** `calc_frame_buffer_size` for `u16` dimensions; `None` when an `u32` overflows. */
  function FrameBufferSize(format: PixelFormat, width: nat, height: nat): (n: Option<nat>)
    requires Supported(format) && width < 0x1_0000 && height < 0x1_0000
  {
    match Mul(BytesPerPixel(format), Align2(width))
    case None => None
    case Some(row) =>
      MulIsExact(BytesPerPixel(format), Align2(width));
      match Mul(row, Align2(height))
      case None => None
      case Some(all) =>
        MulIsExact(row, Align2(height));
        Some(Ceil(all))
  }

  lemma GcdSmall(x: nat)
    ensures Gcd(x, 1) == 1
    ensures x % 2 == 0 ==> Gcd(x, 2) == 2
  {
  }

  lemma MulWhole(n: nat, k: nat)
    requires n < U32 && k < U32
    ensures Mul(Ratio(n, 1), k) == if n * k < U32 then Some(Ratio(n * k, 1)) else None
  {
    GcdSmall(k);
    hide Gcd;
  }

  /** The size is that of a frame with both dimensions rounded up to even numbers, and it is
      refused exactly when that does not fit into a `u32`. */
  lemma FrameBufferSizeIs(format: PixelFormat, width: nat, height: nat)
    requires Supported(format) && width < 0x1_0000 && height < 0x1_0000
    ensures var n := FrameSize(format, Align2(width), Align2(height));
            FrameBufferSize(format, width, height) == if n < U32 then Some(n) else None
  {
    var cw, ch := Half(width), Half(height);
    var w, h := Align2(width), Align2(height);
    var each := BytesPerPixel(format).numer;
    var row := if format == Nv12 then 3 * cw else each * w;
    assert Mul(BytesPerPixel(format), w) == Some(Ratio(row, 1)) by {
      if format == Nv12 {
        GcdSmall(w);
        hide Gcd;
      } else {
        MulWhole(each, w);
      }
    }
    MulWhole(row, h);
    EvenFrame(format, cw, ch);
    hide *;
  }

  lemma EvenFrame(format: PixelFormat, cw: nat, ch: nat)
    requires Supported(format)
    ensures FrameSize(format, 2 * cw, 2 * ch)
         == (match format case Nv12 => 3 * cw case Yuyv => 2 * (2 * cw) case Rgb888 => 3 * (2 * cw)) * (2 * ch)
  {
    assert Half(2 * cw) == cw && Half(2 * ch) == ch;
  }
}
