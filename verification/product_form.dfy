/** The closed-form state probabilities of `compute_state_probabilities`
    (theoretical_funcitions.py). Per class and station: rho_ir = lambda_r * e_ir / (mu_i * c_i),
    where c_i is the server count for a multi-server FIFO station and 1 otherwise. Per
    station: rho_i is the sum over the classes. The per-station marginal pi_i(k) is
    geometric for single-server stations and the M/M/m form for multi-server FIFO. The
    probability of a state (k_1, ..., k_N) is the product of the marginals. Arithmetic is
    exact (`real`). Python's `ZeroDivisionError` and `ValueError` become `Failure`
    values. */
module ProductForm {
  import opened Common
  import opened RealMath
  import StateSpace

  const FIFO: string := "FIFO"
  const PS: string := "PS"
  const LIFOPR: string := "LIFOPR"

  datatype StationError =
    | UnsupportedStationType   // the `ValueError` of `pi_i_ki`
    | ZeroDivision             // Python's `ZeroDivisionError`

  /** The server factor in the utilisation denominator: `m` only for a multi-server FIFO
      station. */
  function ServerDivisor(stationType: string, m: int): (c: int)
    ensures c >= 1
    ensures c > 1 <==> stationType == FIFO && m > 1
    ensures c > 1 ==> c == m
  {
    if stationType == FIFO && m > 1 then m else 1
  }

  /** rho_ir for one class at one station. */
  function ClassUtilisation(arrivalRate: real, visits: real, mu: real, stationType: string, m: int): (r: Result<real, StationError>)
    ensures r.Failure? <==> mu == 0.0
    ensures r.Failure? ==> r.error == ZeroDivision
    ensures r.Success? ==> r.value * (mu * ServerDivisor(stationType, m) as real) == arrivalRate * visits
  {
    var d := mu * ServerDivisor(stationType, m) as real;
    if d == 0.0 then Failure(ZeroDivision) else Success(arrivalRate * visits / d)
  }

  /** The lists are long enough for every index the computation reads. */
  ghost predicate Shaped(lambdas: seq<real>, e: seq<seq<real>>, mu: seq<real>, m: seq<int>, types: seq<string>)
  {
    && |e| >= |lambdas|
    && (forall r :: 0 <= r < |lambdas| ==> |e[r]| >= |mu|)
    && |m| >= |mu| && |types| >= |mu|
  }

  /** One row of `rho_ir`: class utilisations at stations 1..|mu|, computed in station
      order, stopping at the first zero rate. */
  function UtilisationRow(arrivalRate: real, visits: seq<real>, mu: seq<real>, m: seq<int>, types: seq<string>): (row: Result<seq<real>, StationError>)
    requires |visits| >= |mu| && |m| >= |mu| && |types| >= |mu|
    ensures row.Failure? <==> exists i :: 0 <= i < |mu| && mu[i] == 0.0
    ensures row.Failure? ==> row.error == ZeroDivision
    ensures row.Success? ==> |row.value| == |mu|
    ensures row.Success? ==> forall i :: 0 <= i < |mu| ==>
      ClassUtilisation(arrivalRate, visits[i], mu[i], types[i], m[i]) == Success(row.value[i])
  {
    if |mu| == 0 then Success([])
    else
      var i := |mu| - 1;
      match UtilisationRow(arrivalRate, visits, mu[..i], m, types)
      case Failure(err) => Failure(err)
      case Success(front) =>
        match ClassUtilisation(arrivalRate, visits[i], mu[i], types[i], m[i])
        case Failure(err) => Failure(err)
        case Success(x) => Success(front + [x])
  }

  /** The whole `rho_ir` matrix, one row per class. */
  function UtilisationMatrix(lambdas: seq<real>, e: seq<seq<real>>, mu: seq<real>, m: seq<int>, types: seq<string>): (rho: Result<seq<seq<real>>, StationError>)
    requires Shaped(lambdas, e, mu, m, types)
    ensures rho.Failure? <==> |lambdas| > 0 && exists i :: 0 <= i < |mu| && mu[i] == 0.0
    ensures rho.Failure? ==> rho.error == ZeroDivision
    ensures rho.Success? ==> |rho.value| == |lambdas|
    ensures rho.Success? ==> forall r :: 0 <= r < |lambdas| ==> |rho.value[r]| == |mu|
    ensures rho.Success? ==> forall r :: 0 <= r < |lambdas| ==>
      UtilisationRow(lambdas[r], e[r], mu, m, types) == Success(rho.value[r])
  {
    if |lambdas| == 0 then Success([])
    else
      var r := |lambdas| - 1;
      match UtilisationMatrix(lambdas[..r], e, mu, m, types)
      case Failure(err) => Failure(err)
      case Success(front) =>
        match UtilisationRow(lambdas[r], e[r], mu, m, types)
        case Failure(err) => Failure(err)
        case Success(row) => Success(front + [row])
  }

  /** Column `i` of a matrix. */
  function Column(rho: seq<seq<real>>, i: nat): (col: seq<real>)
    requires forall r :: 0 <= r < |rho| ==> i < |rho[r]|
    ensures |col| == |rho| && forall r :: 0 <= r < |rho| ==> col[r] == rho[r][i]
  {
    if |rho| == 0 then [] else Column(rho[..|rho| - 1], i) + [rho[|rho| - 1][i]]
  }

  /** `rho_i`: the per-station sums over the classes. */
  function StationLoads(rho: seq<seq<real>>, n: nat): (loads: seq<real>)
    requires forall r :: 0 <= r < |rho| ==> n <= |rho[r]|
    ensures |loads| == n
    ensures forall i :: 0 <= i < n ==> loads[i] == SumReals(Column(rho, i))
  {
    seq(n, i requires 0 <= i < n => SumReals(Column(rho, i)))
  }

  /** A station's load is at least each class's share of it when no share is negative. */
  lemma {:induction false} LoadBoundsShares(col: seq<real>, r: nat)
    requires r < |col|
    requires forall j :: 0 <= j < |col| ==> col[j] >= 0.0
    ensures SumReals(col) >= col[r] >= 0.0
  {
    var front := col[..|col| - 1];
    if r < |col| - 1 {
      LoadBoundsShares(front, r);
    } else if |front| > 0 {
      LoadBoundsShares(front, 0);
    }
  }

  /** The station types `pi_i_ki` accepts. */
  predicate Supported(t: string, m: int)
  {
    t == PS || t == LIFOPR || (t == FIFO && m >= 1)
  }

  /** Stations served by the geometric formula: PS and LIFOPR whatever their server
      count, and single-server FIFO. */
  predicate SingleServer(t: string, m: int)
  {
    t == PS || t == LIFOPR || (t == FIFO && m == 1)
  }

  predicate MultiServer(t: string, m: int)
  {
    t == FIFO && m > 1
  }

  /** `((m * ro) ** k) / math.factorial(k)`. */
  function LowerTerm(m: nat, rho: real, k: nat): real
  {
    Pow(m as real * rho, k) / Factorial(k) as real
  }

  /** `(m ** m * ro ** k) / math.factorial(m)`. */
  function UpperTerm(m: nat, rho: real, k: nat): real
  {
    Pow(m as real, m) * Pow(rho, k) / Factorial(m) as real
  }

  /** The lower terms for k = 0 .. j - 1. */
  function LowerSum(m: nat, rho: real, j: nat): real
  {
    if j == 0 then 0.0 else LowerSum(m, rho, j - 1) + LowerTerm(m, rho, j - 1)
  }

  /** The normalisation constant of a multi-server FIFO station; `1 - ro` in its
      denominator raises when the load is exactly 1. */
  function Normalisation(m: nat, rho: real): (g: Result<real, StationError>)
    ensures g.Failure? <==> rho == 1.0
    ensures g.Success? ==>
      g.value == LowerSum(m, rho, m) + LowerTerm(m, rho, m) / (1.0 - rho)
  {
    if rho == 1.0 then Failure(ZeroDivision)
    else
      LowerAsQuotient(m, rho, m);
      QuotientOverLoad(LowerTerm(m, rho, m), Pow(m as real * rho, m), Factorial(m) as real, 1.0 - rho);
      Success(LowerSum(m, rho, m) + OverLoad(Pow(m as real * rho, m), Factorial(m) as real, 1.0 - rho))
  }

  /** `p / (f * (1 - ro))`, the tail term of the normalisation constant as written. */
  function OverLoad(p: real, f: real, d: real): real
    requires f != 0.0 && d != 0.0
  {
    p / (f * d)
  }

  lemma QuotientOverLoad(l: real, p: real, f: real, d: real)
    requires f != 0.0 && d != 0.0 && l == Quotient(p, f)
    ensures l / d == OverLoad(p, f, d)
  {
    DivTwice(p, f, d);
  }

  /** `pi_i_ki(k, i)` for a station of load `rho`, server count `m` and type `t`. */
  function Marginal(k: nat, rho: real, m: int, t: string): (r: Result<real, StationError>)
    ensures !Supported(t, m) ==> r == Failure(UnsupportedStationType)
    ensures SingleServer(t, m) ==> r.Success?
    ensures MultiServer(t, m) && rho == 1.0 ==> r == Failure(ZeroDivision)
    ensures r.Success? ==> Supported(t, m)
  {
    if SingleServer(t, m) then Success((1.0 - rho) * Pow(rho, k))
    else if t == FIFO && m > 1 then MultiServerMarginal(k, rho, m)
    else Failure(UnsupportedStationType)
  }

  /** The FIFO branch of `pi_i_ki` for more than one server. The only error it can
      raise is a division by zero: always at load exactly 1, never for a load in [0, 1),
      where the normalisation constant is at least 1. */
  function MultiServerMarginal(k: nat, rho: real, m: nat): (r: Result<real, StationError>)
    requires m > 1
    ensures r.Failure? ==> r == Failure(ZeroDivision)
    ensures rho == 1.0 ==> r.Failure?
    ensures 0.0 <= rho < 1.0 ==> r.Success?
  {
    match Normalisation(m, rho)
    case Failure(err) => Failure(err)
    case Success(g) =>
      if g == 0.0 then
        assert !(0.0 <= rho < 1.0) by {
          if 0.0 <= rho < 1.0 {
            NormalisationBounds(m, rho);
          }
        }
        Failure(ZeroDivision)
      else if k < m then Success(LowerTerm(m, rho, k) / g)
      else Success(UpperTerm(m, rho, k) / g)
  }

  /** Whether `pi_i_ki` raises for a station does not depend on the occupancy asked
      about, nor does the error raised. */
  lemma {:induction false} FaultIndependentOfK(k: nat, rho: real, m: int, t: string)
    ensures Marginal(k, rho, m, t).Failure? <==> Marginal(0, rho, m, t).Failure?
    ensures Marginal(k, rho, m, t).Failure? ==> Marginal(k, rho, m, t) == Marginal(0, rho, m, t)
  {
  }

  /** The server count of PS and LIFOPR stations is ignored: they are computed as a
      single-server FIFO station. */
  lemma {:induction false} ServerCountIgnoredOutsideFifo(k: nat, rho: real, m: int, t: string)
    requires t == PS || t == LIFOPR
    ensures Marginal(k, rho, m, t) == Marginal(k, rho, 1, FIFO)
    ensures ServerDivisor(t, m) == 1
  {
  }

  // ---- arithmetic over plain reals --------------------------------------------------

  lemma DivTwice(a: real, b: real, c: real)
    requires b != 0.0 && c != 0.0
    ensures a / (b * c) == (a / b) / c
  {
  }

  lemma DivSwap(t: real, a: real, b: real)
    requires a != 0.0 && b != 0.0
    ensures (t / a) / b == (t / b) / a
  {
    DivTwice(t, a, b);
    DivTwice(t, b, a);
    assert a * b == b * a;
  }

  lemma DivScale(a: real, g: real, c: real)
    requires g != 0.0
    ensures (a / g) * c == (a * c) / g
  {
  }

  lemma DivAdd(a: real, b: real, g: real)
    requires g != 0.0
    ensures a / g + b / g == (a + b) / g
  {
  }

  lemma LowerStepAlgebra(l1: real, l0: real, p1: real, p0: real, f1: real, f0: real, x: real, k1: real)
    requires f0 != 0.0 && k1 != 0.0 && f1 != 0.0
    requires l1 == p1 / f1 && l0 == p0 / f0 && p1 == x * p0 && f1 == k1 * f0
    ensures l1 * k1 == x * l0
  {
    assert l1 == (x * p0) / (k1 * f0);
  }

  /** `p / f`, kept as a function so that callers match it without arithmetic. */
  function Quotient(p: real, f: real): real
    requires f != 0.0
  {
    p / f
  }

  /** `(p * q) / f`, kept as a function so that callers match it without arithmetic. */
  function Ratio(p: real, q: real, f: real): real
    requires f != 0.0
  {
    (p * q) / f
  }

  lemma UpperStepAlgebra(u1: real, u0: real, p: real, q1: real, q: real, f: real, rho: real)
    requires f != 0.0 && q1 == rho * q
    requires u1 == Ratio(p, q1, f) && u0 == Ratio(p, q, f)
    ensures u1 == rho * u0
  {
    assert p * q1 == rho * (p * q);
  }

  /** The balance of two terms carries over to their quotients by g; s0 and c0 are the
      factors as the step lemmas state them, s and c as the balance equation names them. */
  lemma BalanceAlgebra(v1: real, v0: real, b: real, a: real, s: real, c: real, rho: real, g: real,
                       s0: real, c0: real)
    requires g != 0.0 && s == s0 && c == c0
    requires v1 == b / g && v0 == a / g && b * s0 == c0 * rho * a
    ensures v1 * s == v0 * c * rho
  {
    assert b * s == c * rho * a;
    DivScale(b, g, s);
    DivScale(a, g, c * rho);
  }

  lemma TailAlgebra(vk: real, v0: real, uk: real, u0: real, p: real, g: real)
    requires g != 0.0
    requires vk == uk / g && v0 == u0 / g && uk == u0 * p
    ensures vk == v0 * p
  {
    DivScale(u0, g, p);
  }

  lemma UnitProduct(a: real, b: real)
    requires 0.0 <= a <= 1.0 && 0.0 <= b <= 1.0
    ensures 0.0 <= a * b <= 1.0
  {
    assert 0.0 <= a * b;
    assert a * b <= a;
  }

  lemma ScaledBelow(t: real, p: real)
    requires 0.0 <= t && 0.0 <= p <= 1.0
    ensures 0.0 <= t * p <= t
  {
    assert t * p <= t * 1.0;
  }

  lemma UnitRatio(t: real, g: real)
    requires 0.0 <= t <= g && g > 0.0
    ensures 0.0 <= t / g <= 1.0
  {
  }

  lemma {:induction false} FactorialAsReal(k: nat)
    ensures Factorial(k + 1) as real == (k + 1) as real * Factorial(k) as real
  {
    assert Factorial(k + 1) == (k + 1) * Factorial(k);
  }

  // ---- the M/M/m terms ------------------------------------------------------------

  /** The two term formulas unfolded, kept apart from other arithmetic facts. */
  lemma {:induction false} TermsAt(m: nat, rho: real, k: nat)
    ensures LowerTerm(m, rho, k) == Pow(m as real * rho, k) / Factorial(k) as real
    ensures UpperTerm(m, rho, k) == (Pow(m as real, m) * Pow(rho, k)) / Factorial(m) as real
  {
  }

  /** The lower formula as a `Quotient`, with its denominator known to be nonzero. */
  lemma LowerAsQuotient(m: nat, rho: real, k: nat)
    ensures Factorial(k) as real >= 1.0
    ensures LowerTerm(m, rho, k) == Quotient(Pow(m as real * rho, k), Factorial(k) as real)
  {
  }

  /** The upper formula as a `Ratio`, with its denominator known to be nonzero. */
  lemma UpperAsRatio(m: nat, rho: real, k: nat)
    ensures Factorial(m) as real >= 1.0
    ensures UpperTerm(m, rho, k) == Ratio(Pow(m as real, m), Pow(rho, k), Factorial(m) as real)
  {
  }

  lemma {:induction false} LowerTermNonNegative(m: nat, rho: real, k: nat)
    requires rho >= 0.0
    ensures LowerTerm(m, rho, k) >= 0.0
  {
    TermsAt(m, rho, k);
    PowNonNegative(m as real * rho, k);
  }

  /** At k = m the two formulas of the multi-server case agree. */
  lemma {:induction false} BoundaryAgreement(m: nat, rho: real)
    ensures UpperTerm(m, rho, m) == LowerTerm(m, rho, m)
  {
    TermsAt(m, rho, m);
    PowOfProduct(m as real, rho, m);
  }

  /** Below the server count: term(k + 1) * (k + 1) == m * rho * term(k). */
  lemma {:induction false} LowerStep(m: nat, rho: real, k: nat)
    ensures LowerTerm(m, rho, k + 1) * (k + 1) as real == m as real * rho * LowerTerm(m, rho, k)
  {
    var x := m as real * rho;
    TermsAt(m, rho, k);
    TermsAt(m, rho, k + 1);
    FactorialAsReal(k);
    assert Pow(x, k + 1) == x * Pow(x, k);
    LowerStepAlgebra(LowerTerm(m, rho, k + 1), LowerTerm(m, rho, k), Pow(x, k + 1), Pow(x, k),
                     Factorial(k + 1) as real, Factorial(k) as real, x, (k + 1) as real);
  }

  /** From the server count on: term(k + 1) == rho * term(k). */
  lemma {:induction false} UpperStep(m: nat, rho: real, k: nat)
    ensures UpperTerm(m, rho, k + 1) == rho * UpperTerm(m, rho, k)
  {
    UpperAsRatio(m, rho, k);
    UpperAsRatio(m, rho, k + 1);
    PowSucc(rho, k);
    UpperStepAlgebra(UpperTerm(m, rho, k + 1), UpperTerm(m, rho, k),
                     Pow(m as real, m), Pow(rho, k + 1), Pow(rho, k), Factorial(m) as real, rho);
  }

  /** Reaching the server count from below: the upper formula at m against the lower
      one at m - 1. */
  lemma {:induction false} BoundaryStep(m: nat, rho: real)
    requires m >= 1
    ensures UpperTerm(m, rho, m) * m as real == m as real * rho * LowerTerm(m, rho, m - 1)
  {
    LowerStep(m, rho, m - 1);
    BoundaryAgreement(m, rho);
  }

  lemma {:induction false} UpperTail(m: nat, rho: real, j: nat)
    ensures UpperTerm(m, rho, m + j) == UpperTerm(m, rho, m) * Pow(rho, j)
  {
    if j > 0 {
      UpperTail(m, rho, j - 1);
      UpperStep(m, rho, m + j - 1);
      var u, q := UpperTerm(m, rho, m), Pow(rho, j - 1);
      assert Pow(rho, j) == rho * q;
      assert rho * (u * q) == u * (rho * q);
    }
  }

  lemma {:induction false} LowerSumAtLeastTerms(m: nat, rho: real, j: nat)
    requires rho >= 0.0
    ensures LowerSum(m, rho, j) >= 0.0
    ensures forall k :: 0 <= k < j ==> LowerSum(m, rho, j) >= LowerTerm(m, rho, k)
  {
    if j > 0 {
      LowerSumAtLeastTerms(m, rho, j - 1);
      LowerTermNonNegative(m, rho, j - 1);
    }
  }

  /** For a load in [0, 1) the normalisation constant is at least 1 and bounds each
      of its terms. */
  lemma NormalisationBounds(m: nat, rho: real)
    requires m >= 1 && 0.0 <= rho < 1.0
    ensures Normalisation(m, rho).Success?
    ensures Normalisation(m, rho).value >= 1.0
    ensures forall k :: 0 <= k < m ==> LowerTerm(m, rho, k) <= Normalisation(m, rho).value
    ensures LowerTerm(m, rho, m) <= Normalisation(m, rho).value
  {
    LowerSumAtLeastTerms(m, rho, m);
    LowerTermNonNegative(m, rho, m);
    TermsAt(m, rho, 0);
    var t := LowerTerm(m, rho, m);
    assert t <= t / (1.0 - rho) by {
      DivScale(t, 1.0 - rho, 1.0 - rho);
    }
  }

  // ---- properties of the marginals ------------------------------------------------

  /** A station for which `pi_i_ki` returns a value. */
  predicate Defined(rho: real, m: int, t: string)
  {
    Marginal(0, rho, m, t).Success?
  }

  /** The marginal of a defined multi-server station, unfolded. */
  lemma {:induction false} MultiServerValue(k: nat, rho: real, m: int, t: string)
    requires MultiServer(t, m) && Defined(rho, m, t)
    ensures Normalisation(m, rho).Success? && Normalisation(m, rho).value != 0.0
    ensures Marginal(k, rho, m, t).Success?
    ensures Marginal(k, rho, m, t).value
      == (if k < m then LowerTerm(m, rho, k) else UpperTerm(m, rho, k)) / Normalisation(m, rho).value
  {
  }

  /** pi(0) + ... + pi(K - 1). */
  function MarginalMass(bound: nat, rho: real, m: int, t: string): real
    requires Defined(rho, m, t)
  {
    if bound == 0 then 0.0
    else
      FaultIndependentOfK(bound - 1, rho, m, t);
      MarginalMass(bound - 1, rho, m, t) + Marginal(bound - 1, rho, m, t).value
  }

  lemma MassStep(q: real, rho: real)
    ensures (1.0 - q) + (1.0 - rho) * q == 1.0 - rho * q
  {
  }

  /** Single-server stations: the first K marginals add up to 1 - rho^K, the partial
      sums of the geometric distribution. */
  lemma {:induction false} SingleServerMass(bound: nat, rho: real, m: int, t: string)
    requires SingleServer(t, m)
    ensures MarginalMass(bound, rho, m, t) == 1.0 - Pow(rho, bound)
  {
    if bound > 0 {
      SingleServerMass(bound - 1, rho, m, t);
      PowPred(rho, bound);
      MassStep(Pow(rho, bound - 1), rho);
    }
  }

  lemma {:induction false} MultiServerMassBelow(j: nat, rho: real, m: int)
    requires MultiServer(FIFO, m) && j <= m
    requires Defined(rho, m, FIFO)
    ensures Normalisation(m, rho).Success? && Normalisation(m, rho).value != 0.0
    ensures MarginalMass(j, rho, m, FIFO) == LowerSum(m, rho, j) / Normalisation(m, rho).value
  {
    MultiServerValue(0, rho, m, FIFO);
    if j > 0 {
      MultiServerMassBelow(j - 1, rho, m);
      MultiServerValue(j - 1, rho, m, FIFO);
      DivAdd(LowerSum(m, rho, j - 1), LowerTerm(m, rho, j - 1), Normalisation(m, rho).value);
    }
  }

  /** Multi-server FIFO stations: the marginals below the server count, plus the
      geometric tail pi(m) / (1 - rho) from the server count on, add up to exactly 1. */
  lemma MultiServerNormalised(rho: real, m: int)
    requires MultiServer(FIFO, m)
    requires Defined(rho, m, FIFO)
    ensures rho != 1.0 && Marginal(m, rho, m, FIFO).Success?
    ensures MarginalMass(m, rho, m, FIFO) + Marginal(m, rho, m, FIFO).value / (1.0 - rho) == 1.0
  {
    var g := Normalisation(m, rho).value;
    MultiServerMassBelow(m, rho, m);
    MultiServerValue(m, rho, m, FIFO);
    BoundaryAgreement(m, rho);
    var t, below := LowerTerm(m, rho, m), LowerSum(m, rho, m);
    assert g == below + t / (1.0 - rho);
    assert Marginal(m, rho, m, FIFO).value == t / g;
    DivSwap(t, g, 1.0 - rho);
    DivAdd(below, t / (1.0 - rho), g);
  }

  /** From the server count on, the marginals of a multi-server FIFO station fall
      geometrically with ratio rho. */
  lemma {:induction false} MultiServerTail(j: nat, rho: real, m: int)
    requires MultiServer(FIFO, m)
    requires Defined(rho, m, FIFO)
    ensures Marginal(m + j, rho, m, FIFO).Success? && Marginal(m, rho, m, FIFO).Success?
    ensures Marginal(m + j, rho, m, FIFO).value == Marginal(m, rho, m, FIFO).value * Pow(rho, j)
  {
    MultiServerValue(m, rho, m, FIFO);
    MultiServerValue(m + j, rho, m, FIFO);
    UpperTail(m, rho, j);
    var vk, v0 := Marginal(m + j, rho, m, FIFO).value, Marginal(m, rho, m, FIFO).value;
    var uk, u0, p, g := UpperTerm(m, rho, m + j), UpperTerm(m, rho, m), Pow(rho, j), Normalisation(m, rho).value;
    assert vk == uk / g;
    assert v0 == u0 / g;
    assert uk == u0 * p;
    TailAlgebra(vk, v0, uk, u0, p, g);
    assert vk == v0 * p;
  }

  /** The number of servers in the birth-death reading of a station. */
  function Servers(t: string, m: int): (c: nat)
    ensures c >= 1
    ensures MultiServer(t, m) ==> c == m
    ensures !MultiServer(t, m) ==> c == 1
  {
    if MultiServer(t, m) then m else 1
  }

  /** How many of the c servers are busy with k clients present. */
  function BusyServers(k: nat, c: nat): nat
  {
    if k < c then k else c
  }

  lemma {:induction false} SingleServerBalance(k: nat, rho: real, m: int, t: string)
    requires SingleServer(t, m)
    ensures Marginal(k + 1, rho, m, t).value * BusyServers(k + 1, Servers(t, m)) as real
      == Marginal(k, rho, m, t).value * Servers(t, m) as real * rho
  {
    var q := Pow(rho, k);
    assert Pow(rho, k + 1) == rho * q;
    assert (1.0 - rho) * (rho * q) == (1.0 - rho) * q * rho;
    assert BusyServers(k + 1, Servers(t, m)) == 1 && Servers(t, m) == 1;
  }

  lemma {:induction false} BalanceBelowServers(k: nat, rho: real, m: int, t: string)
    requires MultiServer(t, m) && Defined(rho, m, t) && k + 1 < m
    ensures Marginal(k, rho, m, t).Success? && Marginal(k + 1, rho, m, t).Success?
    ensures Marginal(k + 1, rho, m, t).value * BusyServers(k + 1, Servers(t, m)) as real
      == Marginal(k, rho, m, t).value * Servers(t, m) as real * rho
  {
    MultiServerValue(k, rho, m, t);
    MultiServerValue(k + 1, rho, m, t);
    LowerStep(m, rho, k);
    BalanceAlgebra(Marginal(k + 1, rho, m, t).value, Marginal(k, rho, m, t).value,
                   LowerTerm(m, rho, k + 1), LowerTerm(m, rho, k),
                   BusyServers(k + 1, Servers(t, m)) as real, Servers(t, m) as real, rho,
                   Normalisation(m, rho).value, (k + 1) as real, m as real);
  }

  lemma {:induction false} BalanceAtServers(rho: real, m: int, t: string)
    requires MultiServer(t, m) && Defined(rho, m, t)
    ensures Marginal(m - 1, rho, m, t).Success? && Marginal(m, rho, m, t).Success?
    ensures Marginal(m, rho, m, t).value * BusyServers(m, Servers(t, m)) as real
      == Marginal(m - 1, rho, m, t).value * Servers(t, m) as real * rho
  {
    MultiServerValue(m - 1, rho, m, t);
    MultiServerValue(m, rho, m, t);
    BoundaryStep(m, rho);
    BalanceAlgebra(Marginal(m, rho, m, t).value, Marginal(m - 1, rho, m, t).value,
                   UpperTerm(m, rho, m), LowerTerm(m, rho, m - 1),
                   BusyServers(m, Servers(t, m)) as real, Servers(t, m) as real, rho,
                   Normalisation(m, rho).value, m as real, m as real);
  }

  lemma {:induction false} BalanceAboveServers(k: nat, rho: real, m: int, t: string)
    requires MultiServer(t, m) && Defined(rho, m, t) && k >= m
    ensures Marginal(k, rho, m, t).Success? && Marginal(k + 1, rho, m, t).Success?
    ensures Marginal(k + 1, rho, m, t).value * BusyServers(k + 1, Servers(t, m)) as real
      == Marginal(k, rho, m, t).value * Servers(t, m) as real * rho
  {
    MultiServerValue(k, rho, m, t);
    MultiServerValue(k + 1, rho, m, t);
    UpperStep(m, rho, k);
    var c := m as real;
    assert UpperTerm(m, rho, k + 1) * c == c * rho * UpperTerm(m, rho, k);
    BalanceAlgebra(Marginal(k + 1, rho, m, t).value, Marginal(k, rho, m, t).value,
                   UpperTerm(m, rho, k + 1), UpperTerm(m, rho, k),
                   BusyServers(k + 1, Servers(t, m)) as real, Servers(t, m) as real, rho,
                   Normalisation(m, rho).value, c, c);
  }

  lemma {:induction false} MultiServerBalance(k: nat, rho: real, m: int, t: string)
    requires MultiServer(t, m) && Defined(rho, m, t)
    ensures Marginal(k, rho, m, t).Success? && Marginal(k + 1, rho, m, t).Success?
    ensures Marginal(k + 1, rho, m, t).value * BusyServers(k + 1, Servers(t, m)) as real
      == Marginal(k, rho, m, t).value * Servers(t, m) as real * rho
  {
    if k + 1 < m {
      BalanceBelowServers(k, rho, m, t);
    } else if k + 1 == m {
      BalanceAtServers(rho, m, t);
    } else {
      BalanceAboveServers(k, rho, m, t);
    }
  }

  /** Local balance of the birth-death chain behind each formula: with c servers,
      pi(k + 1) * min(k + 1, c) == pi(k) * c * rho. In rate terms, lambda * pi(k) equals
      min(k + 1, c) * mu * pi(k + 1), because rho = lambda / (c * mu). */
  lemma {:induction false} BirthDeathBalance(k: nat, rho: real, m: int, t: string)
    requires Defined(rho, m, t)
    ensures Marginal(k, rho, m, t).Success? && Marginal(k + 1, rho, m, t).Success?
    ensures Marginal(k + 1, rho, m, t).value * BusyServers(k + 1, Servers(t, m)) as real
      == Marginal(k, rho, m, t).value * Servers(t, m) as real * rho
  {
    FaultIndependentOfK(k, rho, m, t);
    FaultIndependentOfK(k + 1, rho, m, t);
    if SingleServer(t, m) {
      SingleServerBalance(k, rho, m, t);
    } else {
      MultiServerBalance(k, rho, m, t);
    }
  }

  lemma {:induction false} SingleServerProbability(k: nat, rho: real, m: int, t: string)
    requires SingleServer(t, m) && 0.0 <= rho < 1.0
    ensures 0.0 <= Marginal(k, rho, m, t).value <= 1.0
  {
    PowNonNegative(rho, k);
    PowAntitone(rho, 0, k);
    UnitProduct(1.0 - rho, Pow(rho, k));
  }

  lemma {:induction false} MultiServerProbability(k: nat, rho: real, m: int)
    requires MultiServer(FIFO, m) && 0.0 <= rho < 1.0
    ensures Marginal(k, rho, m, FIFO).Success?
    ensures 0.0 <= Marginal(k, rho, m, FIFO).value <= 1.0
  {
    NormalisationBounds(m, rho);
    MultiServerValue(k, rho, m, FIFO);
    var g := Normalisation(m, rho).value;
    if k < m {
      LowerTermNonNegative(m, rho, k);
      UnitRatio(LowerTerm(m, rho, k), g);
    } else {
      var top, p := LowerTerm(m, rho, m), Pow(rho, k - m);
      BoundaryAgreement(m, rho);
      UpperTail(m, rho, k - m);
      LowerTermNonNegative(m, rho, m);
      PowNonNegative(rho, k - m);
      PowAntitone(rho, 0, k - m);
      ScaledBelow(top, p);
      assert m + (k - m) == k;
      assert UpperTerm(m, rho, k) == UpperTerm(m, rho, m) * p;
      assert UpperTerm(m, rho, k) == top * p;
      UnitRatio(UpperTerm(m, rho, k), g);
    }
  }

  /** For a load in [0, 1) every supported station yields a probability. */
  lemma {:induction false} MarginalIsProbability(k: nat, rho: real, m: int, t: string)
    requires Supported(t, m) && 0.0 <= rho < 1.0
    ensures Marginal(k, rho, m, t).Success?
    ensures 0.0 <= Marginal(k, rho, m, t).value <= 1.0
  {
    if SingleServer(t, m) {
      SingleServerProbability(k, rho, m, t);
    } else {
      MultiServerProbability(k, rho, m);
    }
  }

  /** The worked single-server case: load 0.4 gives pi(0) = 0.6 and pi(1) = 0.24. */
  lemma SingleServerExample()
    ensures ClassUtilisation(2.0, 1.0, 5.0, FIFO, 1) == Success(0.4)
    ensures Marginal(0, 0.4, 1, FIFO) == Success(0.6)
    ensures Marginal(1, 0.4, 1, FIFO) == Success(0.24)
  {
  }
  // ---- joint probabilities over the valid states ------------------------------------

  /** Stations 0 .. n - 1 are described by the three lists. */
  ghost predicate Stations(n: nat, loads: seq<real>, m: seq<int>, types: seq<string>)
  {
    |loads| >= n && |m| >= n && |types| >= n
  }

  /** No station before `i` raises. */
  ghost predicate FaultFreeBefore(i: nat, loads: seq<real>, m: seq<int>, types: seq<string>)
    requires Stations(i, loads, m, types)
  {
    forall j :: 0 <= j < i ==> Marginal(0, loads[j], m[j], types[j]).Success?
  }

  /** `p * q` where either factor may have raised; the left one is evaluated first. */
  function Times(p: Result<real, StationError>, q: Result<real, StationError>): (r: Result<real, StationError>)
    ensures r.Success? <==> p.Success? && q.Success?
    ensures r.Success? ==> r.value == p.value * q.value
    ensures r.Failure? ==> r == (if p.Failure? then p else q)
  {
    if p.Failure? then p else if q.Failure? then q else Success(p.value * q.value)
  }

  /** The running product `prob = 1; prob *= ...` over factors evaluated left to right:
      the first factor that raised decides the outcome. */
  function Product(factors: seq<Result<real, StationError>>): (r: Result<real, StationError>)
    ensures r.Success? <==> forall i :: 0 <= i < |factors| ==> factors[i].Success?
    ensures r.Failure? ==> exists i :: 0 <= i < |factors| && factors[i].Failure? && factors[i].error == r.error &&
                                       forall j :: 0 <= j < i ==> factors[j].Success?
  {
    if |factors| == 0 then Success(1.0)
    else
      var front := factors[..|factors| - 1];
      var r := Times(Product(front), factors[|factors| - 1]);
      assert forall i :: 0 <= i < |front| ==> front[i] == factors[i];
      r
  }

  /** Three successful factors multiply out left to right. */
  lemma ThreeFactors(a: real, b: real, c: real)
    ensures Product([Success(a), Success(b), Success(c)]).Success?
    ensures Product([Success(a), Success(b), Success(c)]).value == a * b * c
  {
    var f: seq<Result<real, StationError>> := [Success(a), Success(b), Success(c)];
    assert f[..2][..1][..0] == [];
    assert f[..2][..1] == f[..1] && f[..2][0] == f[0];
    calc {
      Product(f).value;
      Product(f[..2]).value * c;
      Product(f[..1]).value * b * c;
      Product(f[..0]).value * a * b * c;
    }
  }

  /** A product of probabilities is a probability. */
  lemma {:induction false} ProductIsProbability(factors: seq<Result<real, StationError>>)
    requires forall i :: 0 <= i < |factors| ==> factors[i].Success? && 0.0 <= factors[i].value <= 1.0
    ensures Product(factors).Success?
    ensures 0.0 <= Product(factors).value <= 1.0
  {
    if |factors| > 0 {
      var front := factors[..|factors| - 1];
      assert forall i :: 0 <= i < |front| ==> front[i] == factors[i];
      ProductIsProbability(front);
      UnitProduct(Product(front).value, factors[|factors| - 1].value);
    }
  }

  /** `pi_i_ki(k_i, i)` for every station of a state. */
  function StationMarginals(state: seq<nat>, loads: seq<real>, m: seq<int>, types: seq<string>): (factors: seq<Result<real, StationError>>)
    requires Stations(|state|, loads, m, types)
    ensures |factors| == |state|
    ensures forall i :: 0 <= i < |state| ==> factors[i] == Marginal(state[i], loads[i], m[i], types[i])
  {
    seq(|state|, i requires 0 <= i < |state| => Marginal(state[i], loads[i], m[i], types[i]))
  }

  /** Whether a state's marginals raise, and which error, depends only on the stations. */
  lemma {:induction false} StationFaults(state: seq<nat>, loads: seq<real>, m: seq<int>, types: seq<string>)
    requires Stations(|state|, loads, m, types)
    ensures forall i :: 0 <= i < |state| ==>
      (StationMarginals(state, loads, m, types)[i].Failure? <==> Marginal(0, loads[i], m[i], types[i]).Failure?)
    ensures forall i :: 0 <= i < |state| && StationMarginals(state, loads, m, types)[i].Failure? ==>
      StationMarginals(state, loads, m, types)[i].error == Marginal(0, loads[i], m[i], types[i]).error
  {
    forall i | 0 <= i < |state| {
      FaultIndependentOfK(state[i], loads[i], m[i], types[i]);
    }
  }

  /** `prob = 1; for i, k in enumerate(state): prob *= pi_i_ki(k, i)`: the first station
      whose marginal raises decides the error. */
  function JointProbability(state: seq<nat>, loads: seq<real>, m: seq<int>, types: seq<string>): (r: Result<real, StationError>)
    requires Stations(|state|, loads, m, types)
    ensures r.Success? <==> FaultFreeBefore(|state|, loads, m, types)
    ensures r.Failure? ==> exists i :: 0 <= i < |state| && FaultFreeBefore(i, loads, m, types) &&
                                       Marginal(0, loads[i], m[i], types[i]).Failure? &&
                                       Marginal(0, loads[i], m[i], types[i]).error == r.error
  {
    StationFaults(state, loads, m, types);
    Product(StationMarginals(state, loads, m, types))
  }

  /** The joint probability is the running product of the station marginals. */
  lemma JointIsProduct(state: seq<nat>, loads: seq<real>, m: seq<int>, types: seq<string>)
    requires Stations(|state|, loads, m, types)
    ensures JointProbability(state, loads, m, types) == Product(StationMarginals(state, loads, m, types))
  {
  }

  /** With every load in [0, 1) and every station supported, each joint value is a
      probability. */
  lemma JointIsProbability(state: seq<nat>, loads: seq<real>, m: seq<int>, types: seq<string>)
    requires Stations(|state|, loads, m, types)
    requires forall i :: 0 <= i < |state| ==> Supported(types[i], m[i]) && 0.0 <= loads[i] < 1.0
    ensures JointProbability(state, loads, m, types).Success?
    ensures 0.0 <= JointProbability(state, loads, m, types).value <= 1.0
  {
    var factors := StationMarginals(state, loads, m, types);
    forall i | 0 <= i < |state|
      ensures factors[i].Success? && 0.0 <= factors[i].value <= 1.0
    {
      MarginalIsProbability(state[i], loads[i], m[i], types[i]);
    }
    ProductIsProbability(factors);
  }

  /** The probability table: one entry per state, the later of two equal states
      overwriting the earlier one as a dict assignment does. */
  function Tabulate(states: seq<seq<nat>>, n: nat, loads: seq<real>, m: seq<int>, types: seq<string>): (r: Result<map<seq<nat>, real>, StationError>)
    requires Stations(n, loads, m, types)
    requires forall s :: s in states ==> |s| == n
    ensures r.Failure? <==> |states| > 0 && !FaultFreeBefore(n, loads, m, types)
    ensures r.Failure? ==> exists i :: 0 <= i < n && FaultFreeBefore(i, loads, m, types) &&
                                       Marginal(0, loads[i], m[i], types[i]).Failure? &&
                                       Marginal(0, loads[i], m[i], types[i]).error == r.error
    ensures r.Success? ==> r.value.Keys == set s | s in states
    ensures r.Success? ==> forall s :: s in r.value ==>
      JointProbability(s, loads, m, types).Success? && JointProbability(s, loads, m, types).value == r.value[s]
  {
    if |states| == 0 then Success(map[])
    else
      var last := states[|states| - 1];
      assert last in states;
      match Tabulate(states[..|states| - 1], n, loads, m, types)
      case Failure(err) => Failure(err)
      case Success(table) =>
        match JointProbability(last, loads, m, types)
        case Failure(err) => Failure(err)
        case Success(p) =>
          assert forall s :: s in states <==> s in states[..|states| - 1] || s == last;
          Success(table[last := p])
  }

  /** Some class divides by a zero service rate while computing `rho_ir`. */
  predicate ZeroRate(lambdas: seq<real>, mu: seq<real>)
  {
    |lambdas| > 0 && exists i :: 0 <= i < |mu| && mu[i] == 0.0
  }

  /** `rho_i` for every station, once `rho_ir` has been computed. */
  function Loads(lambdas: seq<real>, e: seq<seq<real>>, mu: seq<real>, m: seq<int>, types: seq<string>): (loads: seq<real>)
    requires Shaped(lambdas, e, mu, m, types) && !ZeroRate(lambdas, mu)
    ensures |loads| == |mu|
  {
    StationLoads(UtilisationMatrix(lambdas, e, mu, m, types).value, |mu|)
  }

  /** `compute_state_probabilities`. A zero service rate raises first; otherwise the
      table has one entry per valid state, holding the product of that state's
      marginals, unless some station's marginal raises (which, when there is any state
      at all, the first station in order to do so decides). */
  function ComputeStateProbabilities(lambdas: seq<real>, e: seq<seq<real>>, mu: seq<real>, m: seq<int>,
                                     maxClients: int, types: seq<string>): (r: Result<map<seq<nat>, real>, StationError>)
    requires Shaped(lambdas, e, mu, m, types)
    ensures ZeroRate(lambdas, mu) ==> r.Failure? && r.error == ZeroDivision
    ensures !ZeroRate(lambdas, mu) ==>
      (r.Failure? <==> StateSpace.ValidStates(|mu|, maxClients) != [] &&
                       !FaultFreeBefore(|mu|, Loads(lambdas, e, mu, m, types), m, types))
    ensures !ZeroRate(lambdas, mu) && r.Failure? ==>
      var loads := Loads(lambdas, e, mu, m, types);
      exists i :: 0 <= i < |mu| && FaultFreeBefore(i, loads, m, types) &&
                  Marginal(0, loads[i], m[i], types[i]).Failure? &&
                  Marginal(0, loads[i], m[i], types[i]).error == r.error
    ensures r.Success? ==> r.value.Keys == set s | s in StateSpace.ValidStates(|mu|, maxClients)
    ensures r.Success? ==> forall s :: s in r.value ==>
      |s| == |mu| &&
      JointProbability(s, Loads(lambdas, e, mu, m, types), m, types).Success? &&
      JointProbability(s, Loads(lambdas, e, mu, m, types), m, types).value == r.value[s]
  {
    match UtilisationMatrix(lambdas, e, mu, m, types)
    case Failure(err) => Failure(err)
    case Success(rho) =>
      var loads := StationLoads(rho, |mu|);
      var states := StateSpace.ValidStates(|mu|, maxClients);
      assert forall s :: s in states ==> |s| == |mu|;
      Tabulate(states, |mu|, loads, m, types)
  }

  /** The keys of the table are exactly the occupancy vectors with one entry per station
      and at most `maxClients` clients in total. */
  lemma TableKeys(lambdas: seq<real>, e: seq<seq<real>>, mu: seq<real>, m: seq<int>,
                  maxClients: int, types: seq<string>, s: seq<nat>)
    requires Shaped(lambdas, e, mu, m, types)
    requires ComputeStateProbabilities(lambdas, e, mu, m, maxClients, types).Success?
    ensures s in ComputeStateProbabilities(lambdas, e, mu, m, maxClients, types).value
      <==> |s| == |mu| && SumInts(s) <= maxClients
  {
    assert s in StateSpace.ValidStates(|mu|, maxClients) <==> |s| == |mu| && SumInts(s) <= maxClients;
  }

  /** The empty network state is always generated once the bound is non-negative. */
  lemma {:induction false} EmptyStateValid(n: nat, maxClients: int)
    requires maxClients >= 0
    ensures StateSpace.ValidStates(n, maxClients) != []
  {
    var zero := seq(n, i => 0);
    assert SumInts(zero) == 0 by {
      ZeroSum(zero);
    }
    assert zero in StateSpace.ValidStates(n, maxClients);
  }

  lemma {:induction false} ZeroSum(s: seq<nat>)
    requires forall i :: 0 <= i < |s| ==> s[i] == 0
    ensures SumInts(s) == 0
  {
    if |s| > 0 {
      ZeroSum(s[..|s| - 1]);
    }
  }

  /** When every station is supported and every load lies in [0, 1), the table is
      computed and every entry is a probability. */
  lemma TableOfProbabilities(lambdas: seq<real>, e: seq<seq<real>>, mu: seq<real>, m: seq<int>,
                             maxClients: int, types: seq<string>)
    requires Shaped(lambdas, e, mu, m, types) && !ZeroRate(lambdas, mu)
    requires forall i :: 0 <= i < |mu| ==>
      Supported(types[i], m[i]) && 0.0 <= Loads(lambdas, e, mu, m, types)[i] < 1.0
    ensures ComputeStateProbabilities(lambdas, e, mu, m, maxClients, types).Success?
    ensures var table := ComputeStateProbabilities(lambdas, e, mu, m, maxClients, types).value;
      forall s :: s in table ==> 0.0 <= table[s] <= 1.0
  {
    var loads := Loads(lambdas, e, mu, m, types);
    forall i | 0 <= i < |mu|
      ensures Marginal(0, loads[i], m[i], types[i]).Success?
    {
      MarginalIsProbability(0, loads[i], m[i], types[i]);
    }
    var table := ComputeStateProbabilities(lambdas, e, mu, m, maxClients, types).value;
    forall s | s in table
      ensures 0.0 <= table[s] <= 1.0
    {
      JointIsProbability(s, loads, m, types);
    }
  }
}
