/** `compute_propability_of_state` of propability_function.py: the probability of one
    occupancy state (k_1, k_2, k_3) of the PS, FIFO and LIFOPR departments. The three PS
    service rates are the effective rates of Cox service-time profiles, the FIFO and LIFOPR
    rates are given, and every rate is replaced by its reciprocal before the arrival flow
    is divided by it, so each utilisation ends up as flow TIMES rate. */
module CoxStateProbability {
  import opened Common
  import opened RealMath
  import opened BalanceSystem

  /** One entry of `ps_processing_time_values`: a dict with the keys "phases", "rates"
      and "weights". */
  type Profile = map<string, seq<real>>

  const NORMAL_KEY: string := "normal"
  const MEDIUM_KEY: string := "medium"
  const COMPLICATED_KEY: string := "complicated"

  /** How many (weight, rate) pairs `zip` yields: it stops at the shorter list. */
  function ZipLength(rates: seq<real>, weights: seq<real>): (n: nat)
    ensures n <= |rates| && n <= |weights|
    ensures n == |rates| || n == |weights|
  {
    if |rates| < |weights| then |rates| else |weights|
  }

  /** The running `sum(weight / rate ...)` over the first n pairs: a zero rate among
      them raises `ZeroDivisionError`. */
  function WeightedTime(rates: seq<real>, weights: seq<real>, n: nat): (r: Result<real, InputError>)
    requires n <= |rates| && n <= |weights|
    ensures r.Failure? <==> exists i :: 0 <= i < n && rates[i] == 0.0
    ensures r.Failure? ==> r.error == ZeroDivision
  {
    if n == 0 then Success(0.0)
    else
      match WeightedTime(rates, weights, n - 1)
      case Failure(err) => Failure(err)
      case Success(t) =>
        if rates[n - 1] == 0.0 then Failure(ZeroDivision) else Success(t + weights[n - 1] / rates[n - 1])
  }

  /** The expected service time of a Cox profile, by the formula the function's comment
      gives: the sum of weight / rate over the zipped pairs. */
  function ExpectedServiceTime(rates: seq<real>, weights: seq<real>): Result<real, InputError>
  {
    WeightedTime(rates, weights, ZipLength(rates, weights))
  }

  /** The reference definition: the mean of a mixture of exponential phases. */
  function MixtureMean(rates: seq<real>, weights: seq<real>, n: nat): real
    requires n <= |rates| && n <= |weights|
    requires forall i :: 0 <= i < n ==> rates[i] != 0.0
  {
    SumReals(seq(n, i requires 0 <= i < n => weights[i] / rates[i]))
  }

  /** With no zero rate, the running sum is the mixture mean. */
  lemma {:induction false} WeightedTimeIsMixtureMean(rates: seq<real>, weights: seq<real>, n: nat)
    requires n <= |rates| && n <= |weights|
    requires forall i :: 0 <= i < n ==> rates[i] != 0.0
    ensures WeightedTime(rates, weights, n).Success?
    ensures WeightedTime(rates, weights, n).value == MixtureMean(rates, weights, n)
  {
    if n > 0 {
      WeightedTimeIsMixtureMean(rates, weights, n - 1);
      var terms := seq(n, i requires 0 <= i < n => weights[i] / rates[i]);
      assert terms[..n - 1] == seq(n - 1, i requires 0 <= i < n - 1 => weights[i] / rates[i]);
    }
  }

  /** Entries past the shorter list are never read. */
  lemma ZipIgnoresSurplus(rates: seq<real>, weights: seq<real>, extra: seq<real>)
    ensures |rates| <= |weights| ==> ExpectedServiceTime(rates, weights + extra) == ExpectedServiceTime(rates, weights)
    ensures |weights| <= |rates| ==> ExpectedServiceTime(rates + extra, weights) == ExpectedServiceTime(rates, weights)
  {
    var n := ZipLength(rates, weights);
    if |rates| <= |weights| {
      assert (weights + extra)[..n] == weights[..n];
      SamePrefixSameTime(rates, weights, rates, weights + extra, n);
    }
    if |weights| <= |rates| {
      assert (rates + extra)[..n] == rates[..n];
      SamePrefixSameTime(rates, weights, rates + extra, weights, n);
    }
  }

  lemma {:induction false} SamePrefixSameTime(r1: seq<real>, w1: seq<real>, r2: seq<real>, w2: seq<real>, n: nat)
    requires n <= |r1| && n <= |w1| && n <= |r2| && n <= |w2|
    requires r1[..n] == r2[..n] && w1[..n] == w2[..n]
    ensures WeightedTime(r1, w1, n) == WeightedTime(r2, w2, n)
  {
    if n > 0 {
      assert r1[..n - 1] == r1[..n][..n - 1] && r2[..n - 1] == r2[..n][..n - 1];
      assert w1[..n - 1] == w1[..n][..n - 1] && w2[..n - 1] == w2[..n][..n - 1];
      assert r1[n - 1] == r1[..n][n - 1] && w1[n - 1] == w1[..n][n - 1];
      SamePrefixSameTime(r1, w1, r2, w2, n - 1);
    }
  }

  /** `calculate_effective_service_rate`: the reciprocal of the expected service time; a
      zero rate or a zero expected time (no pairs at all, say) raises `ZeroDivisionError`.
      The phase count is not used. */
  function EffectiveServiceRate(rates: seq<real>, weights: seq<real>): (r: Result<real, InputError>)
    ensures r.Success? <==> ExpectedServiceTime(rates, weights).Success? && ExpectedServiceTime(rates, weights).value != 0.0
    ensures r.Failure? ==> r.error == ZeroDivision
    ensures r.Success? ==> r.value != 0.0 && r.value * ExpectedServiceTime(rates, weights).value == 1.0
  {
    match ExpectedServiceTime(rates, weights)
    case Failure(err) => Failure(err)
    case Success(t) => if t == 0.0 then Failure(ZeroDivision) else Success(1.0 / t)
  }

  /** A two-phase profile with weights 0.8 and 0.2 on rates 4 and 2 has expected time
      0.3, hence effective rate 10/3. */
  lemma TwoPhaseExample()
    ensures ExpectedServiceTime([4.0, 2.0], [0.8, 0.2]).Success?
    ensures ExpectedServiceTime([4.0, 2.0], [0.8, 0.2]).value == 0.3
    ensures EffectiveServiceRate([4.0, 2.0], [0.8, 0.2]).Success?
    ensures EffectiveServiceRate([4.0, 2.0], [0.8, 0.2]).value == 10.0 / 3.0
  {
    assert WeightedTime([4.0, 2.0], [0.8, 0.2], 1).value == 0.2;
  }

  /** `calculate_effective_service_rate(p['phases'], p['rates'], p['weights'])`, with the
      three lookups in argument order. */
  function ProfileRate(p: Profile): (r: Result<real, InputError>)
    ensures r.Success? <==> && "phases" in p && "rates" in p && "weights" in p
                            && EffectiveServiceRate(p["rates"], p["weights"]).Success?
    ensures "phases" !in p ==> r == Failure(MissingKey("phases"))
    ensures "phases" in p && "rates" !in p ==> r == Failure(MissingKey("rates"))
    ensures "phases" in p && "rates" in p && "weights" !in p ==> r == Failure(MissingKey("weights"))
    ensures "phases" in p && "rates" in p && "weights" in p ==> r == EffectiveServiceRate(p["rates"], p["weights"])
    ensures r.Success? ==> r.value != 0.0
  {
    if "phases" !in p then Failure(MissingKey("phases"))
    else if "rates" !in p then Failure(MissingKey("rates"))
    else if "weights" !in p then Failure(MissingKey("weights"))
    else EffectiveServiceRate(p["rates"], p["weights"])
  }

  /** The value stored under "phases" never matters. */
  lemma PhasesIgnored(p: Profile, phases: seq<real>)
    requires "phases" in p
    ensures ProfileRate(p["phases" := phases]) == ProfileRate(p)
  {
    var q := p["phases" := phases];
    assert "rates" in q <==> "rates" in p;
    assert "weights" in q <==> "weights" in p;
    if "rates" in p {
      assert q["rates"] == p["rates"];
    }
    if "weights" in p {
      assert q["weights"] == p["weights"];
    }
  }

  lemma DivByReciprocal(x: real, m: real)
    requires m != 0.0
    ensures x / (1.0 / m) == x * m
  {
  }

  /** p_1, p_2, p_3 as the script computes them: each rate is turned into its reciprocal,
      then the arrival flow is divided by that. The utilisation is flow times rate. */
  function ReciprocalUtilisations(arrivalRate: real, e: seq<real>, psRates: seq<real>, serviceRates: seq<real>): (p: seq<real>)
    requires |e| == 5 && |psRates| == 3 && |serviceRates| == 2
    requires psRates[0] != 0.0 && psRates[1] != 0.0 && psRates[2] != 0.0
    requires serviceRates[0] != 0.0 && serviceRates[1] != 0.0
    ensures |p| == 3
    ensures p[0] == arrivalRate * (e[0] * psRates[0] + e[1] * psRates[1] + e[2] * psRates[2])
    ensures p[1] == arrivalRate * e[3] * serviceRates[0]
    ensures p[2] == arrivalRate * e[4] * serviceRates[1]
  {
    var m11, m12, m13 := 1.0 / psRates[0], 1.0 / psRates[1], 1.0 / psRates[2];
    var m22, m33 := 1.0 / serviceRates[0], 1.0 / serviceRates[1];
    DivByReciprocal(arrivalRate * e[0], psRates[0]);
    DivByReciprocal(arrivalRate * e[1], psRates[1]);
    DivByReciprocal(arrivalRate * e[2], psRates[2]);
    DivByReciprocal(arrivalRate * e[3], serviceRates[0]);
    DivByReciprocal(arrivalRate * e[4], serviceRates[1]);
    [arrivalRate * e[0] / m11 + arrivalRate * e[1] / m12 + arrivalRate * e[2] / m13, arrivalRate * e[3] / m22, arrivalRate * e[4] / m33]
  }

  /** The three PS profiles are present and each yields a rate. */
  predicate ProfilesUsable(profiles: map<string, Profile>)
  {
    && NORMAL_KEY in profiles && MEDIUM_KEY in profiles && COMPLICATED_KEY in profiles
    && ProfileRate(profiles[NORMAL_KEY]).Success?
    && ProfileRate(profiles[MEDIUM_KEY]).Success?
    && ProfileRate(profiles[COMPLICATED_KEY]).Success?
  }

  /** The effective PS rates mu_11, mu_12, mu_13 of usable profiles. */
  function PsRates(profiles: map<string, Profile>): (mu: seq<real>)
    requires ProfilesUsable(profiles)
    ensures |mu| == 3 && mu[0] != 0.0 && mu[1] != 0.0 && mu[2] != 0.0
  {
    [ProfileRate(profiles[NORMAL_KEY]).value, ProfileRate(profiles[MEDIUM_KEY]).value,
     ProfileRate(profiles[COMPLICATED_KEY]).value]
  }

  /** The first error the profile stage raises: the three outer lookups come first, then
      the three rate computations. */
  function ProfileError(profiles: map<string, Profile>): InputError
  {
    if NORMAL_KEY !in profiles then MissingKey(NORMAL_KEY)
    else if MEDIUM_KEY !in profiles then MissingKey(MEDIUM_KEY)
    else if COMPLICATED_KEY !in profiles then MissingKey(COMPLICATED_KEY)
    else if ProfileRate(profiles[NORMAL_KEY]).Failure? then ProfileRate(profiles[NORMAL_KEY]).error
    else if ProfileRate(profiles[MEDIUM_KEY]).Failure? then ProfileRate(profiles[MEDIUM_KEY]).error
    else if ProfileRate(profiles[COMPLICATED_KEY]).Failure? then ProfileRate(profiles[COMPLICATED_KEY]).error
    else ZeroDivision
  }

  /** The two given service rates unpack and neither is zero. */
  predicate ServiceRatesUsable(serviceRates: seq<real>)
  {
    |serviceRates| == 2 && serviceRates[0] != 0.0 && serviceRates[1] != 0.0
  }

  /** `compute_propability_of_state`. `e` stands for the solver's answer: any vector
      that solves the balance system whenever the routing vectors unpack. */
  function StateProbability(v: Vectors, serviceRates: seq<real>, arrivalRate: seq<real>, state: seq<nat>,
                            profiles: map<string, Profile>, e: seq<real>): (r: Result<real, InputError>)
    requires |e| == 5
    requires Unpack(v).Success? ==> SolvesBalance(Unpack(v).value, e)
    ensures r.Success? <==>
      && Arities(v) && ProfilesUsable(profiles) && ServiceRatesUsable(serviceRates)
      && |arrivalRate| > 0 && |state| >= 3
    ensures !Arities(v) ==> r.Failure? && r.error == ArityMismatch(FirstMisfit(v))
    ensures Arities(v) && !ProfilesUsable(profiles) ==> r.Failure? && r.error == ProfileError(profiles)
    ensures Arities(v) && ProfilesUsable(profiles) && |serviceRates| != 2 ==>
      r.Failure? && r.error == ArityMismatch("service_rates")
    ensures Arities(v) && ProfilesUsable(profiles) && |serviceRates| == 2 && !ServiceRatesUsable(serviceRates) ==>
      r.Failure? && r.error == ZeroDivision
    ensures Arities(v) && ProfilesUsable(profiles) && ServiceRatesUsable(serviceRates) && |arrivalRate| == 0 ==>
      r.Failure? && r.error == IndexOutOfRange("arrival_rate")
    ensures Arities(v) && ProfilesUsable(profiles) && ServiceRatesUsable(serviceRates) && |arrivalRate| > 0 && |state| < 3
      ==> r.Failure? && r.error == IndexOutOfRange("given_state")
  {
    match Unpack(v)
    case Failure(err) => Failure(err)
    case Success(_) =>
      if !ProfilesUsable(profiles) then Failure(ProfileError(profiles))
      else if |serviceRates| != 2 then Failure(ArityMismatch("service_rates"))
      else if serviceRates[0] == 0.0 || serviceRates[1] == 0.0 then Failure(ZeroDivision)
      else if |arrivalRate| == 0 then Failure(IndexOutOfRange("arrival_rate"))
      else ThreeNodeProduct(ReciprocalUtilisations(arrivalRate[0], e, PsRates(profiles), serviceRates), state)
  }

  /** The value, with the balance equations applied: the medium and complicated PS nodes
      are visited once each, so p_1 = lambda (e_11 mu_11 + mu_12 + mu_13), p_2 =
      lambda e_22 mu_22 and p_3 = lambda e_33 mu_33, with mu_1x the effective Cox rates
      and lambda the first arrival rate only. */
  lemma StateProbabilityValue(v: Vectors, serviceRates: seq<real>, arrivalRate: seq<real>, state: seq<nat>,
                              profiles: map<string, Profile>, e: seq<real>)
    requires |e| == 5
    requires Unpack(v).Success? ==> SolvesBalance(Unpack(v).value, e)
    requires StateProbability(v, serviceRates, arrivalRate, state, profiles, e).Success?
    ensures ProfilesUsable(profiles) && |serviceRates| == 2 && |arrivalRate| > 0 && |state| >= 3
    ensures StateProbability(v, serviceRates, arrivalRate, state, profiles, e) ==
      ThreeNodeProduct([arrivalRate[0] * (e[0] * PsRates(profiles)[0] + PsRates(profiles)[1] + PsRates(profiles)[2]),
                        arrivalRate[0] * e[3] * serviceRates[0],
                        arrivalRate[0] * e[4] * serviceRates[1]], state)
  {
    BalanceEquations(Unpack(v).value, e);
    var mu := PsRates(profiles);
    var p := ReciprocalUtilisations(arrivalRate[0], e, mu, serviceRates);
    var q := [arrivalRate[0] * (e[0] * PsRates(profiles)[0] + PsRates(profiles)[1] + PsRates(profiles)[2]),
              arrivalRate[0] * e[3] * serviceRates[0],
              arrivalRate[0] * e[4] * serviceRates[1]];
    assert p[0] == q[0] && p[1] == q[1] && p[2] == q[2];
    assert p == q;
    assert StateProbability(v, serviceRates, arrivalRate, state, profiles, e) == ThreeNodeProduct(p, state);
  }

  /** When every department's utilisation stays in [0, 1), the answer is a probability. */
  lemma StateProbabilityBounded(v: Vectors, serviceRates: seq<real>, arrivalRate: seq<real>, state: seq<nat>,
                                profiles: map<string, Profile>, e: seq<real>)
    requires |e| == 5
    requires Unpack(v).Success? ==> SolvesBalance(Unpack(v).value, e)
    requires StateProbability(v, serviceRates, arrivalRate, state, profiles, e).Success?
    requires forall i :: 0 <= i < 3 ==>
      0.0 <= ReciprocalUtilisations(arrivalRate[0], e, PsRates(profiles), serviceRates)[i] < 1.0
    ensures 0.0 <= StateProbability(v, serviceRates, arrivalRate, state, profiles, e).value <= 1.0
  {
    ThreeNodeIsProbability(ReciprocalUtilisations(arrivalRate[0], e, PsRates(profiles), serviceRates), state);
  }
}
