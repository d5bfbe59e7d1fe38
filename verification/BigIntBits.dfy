/** BigInt.asUintN and BigInt.asIntN (sections 21.2.2.2 and 21.2.2.1 of ECMA-262). */
module BigIntBits {
  import opened Common

  function Pow2(n: nat): (r: nat)
    ensures r > 0
  {
    if n == 0 then 1 else 2 * Pow2(n - 1)
  }

  /** Bit `i` of the two's-complement representation of `x`, which is infinite to the left. */
  predicate Bit(x: int, i: nat)
    decreases i
  {
    if i == 0 then x % 2 == 1 else Bit(x / 2, i - 1)
  }

  function Abs(x: int): nat
  {
    if x < 0 then -x else x
  }

  /** `bf_logic_and`: AND on two's complement, negative numbers included. */
  function And(a: int, b: int): (r: int)
    decreases Abs(a) + Abs(b)
  {
    if a == 0 || b == 0 then 0
    else if a == -1 then b
    else if b == -1 then a
    else 2 * And(a / 2, b / 2) + (a % 2) * (b % 2)
  }

  lemma {:induction false} ZeroBits(i: nat)
    ensures !Bit(0, i) && Bit(-1, i)
  {
    if i > 0 {
      ZeroBits(i - 1);
    }
  }

  /** AND is bitwise: each bit of the result is the conjunction of the bits. */
  lemma {:induction false} AndBits(a: int, b: int, i: nat)
    ensures Bit(And(a, b), i) <==> Bit(a, i) && Bit(b, i)
    decreases i
  {
    ZeroBits(i);
    if a == 0 || b == 0 || a == -1 || b == -1 {
    } else {
      var low := (a % 2) * (b % 2);
      assert low == if a % 2 == 1 && b % 2 == 1 then 1 else 0;
      assert And(a, b) / 2 == And(a / 2, b / 2) && And(a, b) % 2 == low;
      if i > 0 {
        AndBits(a / 2, b / 2, i - 1);
      }
    }
  }

  lemma MulGrows(d: int, m: int)
    requires d >= 1 && m > 0
    ensures d * m >= m
  {
  }

  lemma QuotientUnique(m: int, q: int, r: int, q': int, r': int)
    requires q * m + r == q' * m + r' && 0 <= r < m && 0 <= r' < m
    ensures q == q' && r == r'
  {
    if q > q' {
      MulGrows(q - q', m);
    } else if q < q' {
      MulGrows(q' - q, m);
    }
  }

  lemma DivMod(x: int, m: int)
    requires m > 0
    ensures x == (x / m) * m + x % m && 0 <= x % m < m
  {
  }

  lemma ModUnique(x: int, m: int, q: int, r: int)
    requires m > 0 && 0 <= r < m && x == q * m + r
    ensures x % m == r
  {
    DivMod(x, m);
    QuotientUnique(m, q, r, x / m, x % m);
  }

  lemma Halve(x: int, q: int, r: int, p: int)
    requires x / 2 == q * p + r
    ensures x == q * (2 * p) + (2 * r + x % 2)
  {
    assert q * (2 * p) == 2 * (q * p);
  }

  /** AND with 2^n - 1 is the Euclidean remainder, for negative numbers too. */
  lemma {:induction false} AndMaskIsMod(x: int, n: nat)
    ensures And(x, Pow2(n) - 1) == x % Pow2(n)
    decreases n
  {
    if n == 0 {
    } else if x == -1 {
      ModUnique(-1, Pow2(n), -1, Pow2(n) - 1);
    } else if x == 0 {
      ModUnique(0, Pow2(n), 0, 0);
    } else {
      var p := Pow2(n - 1);
      AndMaskIsMod(x / 2, n - 1);
      AndLowOne(x, p - 1);
      DivMod(x / 2, p);
      var q, r := (x / 2) / p, (x / 2) % p;
      Halve(x, q, r, p);
      ModUnique(x, 2 * p, q, 2 * r + x % 2);
    }
  }

  lemma AndLowOne(x: int, k: nat)
    requires x != 0 && x != -1
    ensures And(x, 2 * k + 1) == 2 * And(x / 2, k) + x % 2
  {
    assert (2 * k + 1) / 2 == k && (2 * k + 1) % 2 == 1;
  }

  // ---- the builtins ----

  ghost predicate Differ(a: int, b: int, m: int, k: int)
  {
    a == b + k * m
  }

  ghost predicate Congruent(a: int, b: int, m: int)
  {
    exists k :: Differ(a, b, m, k)
  }

  /** `v` is the unsigned `n`-bit reading of `x`. */
  ghost predicate IsUintN(n: nat, x: int, v: int)
  {
    0 <= v < Pow2(n) && Congruent(v, x, Pow2(n))
  }

  /** `v` is the signed `n`-bit reading of `x`; with no bits it is zero. */
  ghost predicate IsIntN(n: nat, x: int, v: int)
  {
    if n == 0 then v == 0
    else 0 - Pow2(n - 1) <= v < Pow2(n - 1) && Congruent(v, x, Pow2(n))
  }

  /** ToIndex succeeded. */
  predicate ValidBits(bits: ExtInt)
  {
    bits.Fin? && 0 <= bits.i <= MAX_LENGTH
  }

  method AsUintN(bits: ExtInt, x: int) returns (res: Result<int>)
    ensures res.Ok? <==> bits.Fin? && 0 <= bits.i <= MAX_LENGTH
    ensures res.Err? ==> res.error == RangeError
    ensures res.Ok? ==> IsUintN(bits.i, x, res.value)
  {
    if !ValidBits(bits) {
      return Err(RangeError);
    }
    var mask := 1;
    mask := mask * Pow2(bits.i);
    mask := mask + -1;
    var r := And(x, mask);
    AndMaskIsMod(x, bits.i);
    ModCongruent(x, Pow2(bits.i));
    return Ok(r);
  }

  method AsIntN(bits: ExtInt, x: int) returns (res: Result<int>)
    ensures res.Ok? <==> bits.Fin? && 0 <= bits.i <= MAX_LENGTH
    ensures res.Err? ==> res.error == RangeError
    ensures res.Ok? ==> IsIntN(bits.i, x, res.value)
  {
    if !ValidBits(bits) {
      return Err(RangeError);
    }
    var mask := 1;
    mask := mask * Pow2(bits.i);
    mask := mask + -1;
    var r := And(x, mask);
    AndMaskIsMod(x, bits.i);
    ModCongruent(x, Pow2(bits.i));
    if bits.i != 0 {
      mask := 1;
      mask := mask * Pow2(bits.i - 1);
      if Abs(r) >= Abs(mask) {
        mask := 1;
        mask := mask * Pow2(bits.i);
        CongruentMinus(r, x, Pow2(bits.i));
        r := r - mask;
      }
    }
    return Ok(r);
  }

  lemma ModCongruent(x: int, m: int)
    requires m > 0
    ensures 0 <= x % m < m && Congruent(x % m, x, m)
  {
    DivMod(x, m);
    assert Differ(x % m, x, m, -(x / m));
  }

  lemma CongruentMinus(a: int, b: int, m: int)
    requires Congruent(a, b, m)
    ensures Congruent(a - m, b, m)
  {
    var k :| Differ(a, b, m, k);
    assert (k - 1) * m == k * m - m;
    assert Differ(a - m, b, m, k - 1);
  }

  lemma Regroup(k: int, d: int, p: int)
    ensures k * (d * p) == (k * d) * p
  {
  }

  lemma CongruentFactor(a: int, b: int, big: int, d: int, p: int)
    requires big == d * p && Congruent(a, b, big)
    ensures Congruent(a, b, p)
  {
    var k :| Differ(a, b, big, k);
    Regroup(k, d, p);
    assert Differ(a, b, p, k * d);
  }

  lemma CongruentEqual(a: int, b: int, m: int, lo: int)
    requires m > 0 && Congruent(a, b, m) && lo <= a < lo + m && lo <= b < lo + m
    ensures a == b
  {
    var k :| Differ(a, b, m, k);
    QuotientUnique(m, 0, a - lo, k, b - lo);
  }

  lemma CongruentTrans(a: int, b: int, c: int, m: int)
    requires Congruent(a, b, m) && Congruent(b, c, m)
    ensures Congruent(a, c, m)
  {
    var j :| Differ(a, b, m, j);
    var k :| Differ(b, c, m, k);
    assert (j + k) * m == j * m + k * m;
    assert Differ(a, c, m, j + k);
  }

  lemma CongruentSym(a: int, b: int, m: int)
    requires Congruent(a, b, m)
    ensures Congruent(b, a, m)
  {
    var k :| Differ(a, b, m, k);
    assert Differ(b, a, m, -k);
  }

  /** The results are unique, so the predicates above determine the builtins completely. */
  lemma ReadingsUnique(n: nat, x: int, v: int, w: int)
    ensures IsUintN(n, x, v) && IsUintN(n, x, w) ==> v == w
    ensures IsIntN(n, x, v) && IsIntN(n, x, w) ==> v == w
  {
    if Congruent(v, x, Pow2(n)) && Congruent(w, x, Pow2(n)) {
      CongruentSym(w, x, Pow2(n));
      CongruentTrans(v, x, w, Pow2(n));
      if IsUintN(n, x, v) && IsUintN(n, x, w) {
        CongruentEqual(v, w, Pow2(n), 0);
      }
      if n > 0 && IsIntN(n, x, v) && IsIntN(n, x, w) {
        CongruentEqual(v, w, Pow2(n), 0 - Pow2(n - 1));
      }
    }
  }

  lemma {:induction false} PowSplit(n: nat, d: nat)
    ensures Pow2(n + d) == Pow2(d) * Pow2(n)
  {
    if d > 0 {
      PowSplit(n, d - 1);
      MulAssoc(Pow2(d - 1), Pow2(n));
    }
  }

  lemma MulAssoc(a: int, b: int)
    ensures 2 * (a * b) == (2 * a) * b
  {
  }

  /** Congruence modulo 2^m implies congruence modulo every smaller power. */
  lemma CongruentSmaller(a: int, b: int, n: nat, m: nat)
    requires n <= m && Congruent(a, b, Pow2(m))
    ensures Congruent(a, b, Pow2(n))
  {
    PowSplit(n, m - n);
    CongruentFactor(a, b, Pow2(m), Pow2(m - n), Pow2(n));
  }

  /** Truncating to `m` bits first does not change the reading of the lower `n` bits, signed or unsigned. */
  lemma TruncateFirst(n: nat, m: nat, x: int, u: int, v: int)
    requires n <= m && (IsUintN(m, x, u) || IsIntN(m, x, u))
    ensures IsIntN(n, u, v) <==> IsIntN(n, x, v)
    ensures IsUintN(n, u, v) <==> IsUintN(n, x, v)
  {
    if m == 0 {
      assert Differ(u, x, 1, u - x);
    }
    CongruentSmaller(u, x, n, m);
    CongruentSym(u, x, Pow2(n));
    if Congruent(v, u, Pow2(n)) {
      CongruentTrans(v, u, x, Pow2(n));
    }
    if Congruent(v, x, Pow2(n)) {
      CongruentTrans(v, x, u, Pow2(n));
    }
  }

  lemma {:induction false} PowBit(n: nat, i: nat)
    ensures Bit(Pow2(n), i) <==> i == n
    decreases i
  {
    ZeroBits(i);
    if n == 0 {
      if i > 0 {
        ZeroBits(i - 1);
        assert Pow2(n) / 2 == 0;
      }
    } else {
      assert Pow2(n) / 2 == Pow2(n - 1) && Pow2(n) % 2 == 0;
      if i > 0 {
        PowBit(n - 1, i - 1);
      }
    }
  }
}
