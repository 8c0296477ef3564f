/** `compute_propability_of_state` of trials.py: the same three-department state
    probability with the service rates fixed at mu_11, mu_12, mu_13, mu_22, mu_33 =
    24, 32, 48, 20, 44. The `service_rates` argument is accepted and never read, and
    the arrival flow is divided by the rates as given (no reciprocals). */
module TrialsStateProbability {
  import opened Common
  import opened BalanceSystem
  import CoxStateProbability

  const TrialRates: seq<real> := [24.0, 32.0, 48.0, 20.0, 44.0]

  /** p_1, p_2, p_3: the flow into each department divided by its fixed rate. */
  function TrialUtilisations(arrivalRate: real, e: seq<real>): (p: seq<real>)
    requires |e| == 5
    ensures |p| == 3
  {
    [ arrivalRate * e[0] / TrialRates[0] + arrivalRate * e[1] / TrialRates[1] + arrivalRate * e[2] / TrialRates[2],
      arrivalRate * e[3] / TrialRates[3],
      arrivalRate * e[4] / TrialRates[4] ]
  }

  /** The whole function. `e` stands for the solver's answer, as in the Cox variant.
      Only three errors remain possible: a routing vector of the wrong length, an empty
      arrival-rate list, a state with fewer than three entries. */
  function StateProbability(v: Vectors, serviceRates: seq<real>, arrivalRate: seq<real>, state: seq<nat>,
                            e: seq<real>): (r: Result<real, InputError>)
    requires |e| == 5
    requires Unpack(v).Success? ==> SolvesBalance(Unpack(v).value, e)
    ensures r.Success? <==> Arities(v) && |arrivalRate| > 0 && |state| >= 3
    ensures !Arities(v) ==> r.Failure? && r.error == ArityMismatch(FirstMisfit(v))
    ensures Arities(v) && |arrivalRate| == 0 ==> r.Failure? && r.error == IndexOutOfRange("arrival_rate")
    ensures Arities(v) && |arrivalRate| > 0 && |state| < 3 ==> r.Failure? && r.error == IndexOutOfRange("given_state")
  {
    match Unpack(v)
    case Failure(err) => Failure(err)
    case Success(_) =>
      if |arrivalRate| == 0 then Failure(IndexOutOfRange("arrival_rate"))
      else ThreeNodeProduct(TrialUtilisations(arrivalRate[0], e), state)
  }

  /** Whatever `service_rates` holds, the answer is the same. */
  lemma ServiceRatesIgnored(v: Vectors, s1: seq<real>, s2: seq<real>, arrivalRate: seq<real>, state: seq<nat>, e: seq<real>)
    requires |e| == 5
    requires Unpack(v).Success? ==> SolvesBalance(Unpack(v).value, e)
    ensures StateProbability(v, s1, arrivalRate, state, e) == StateProbability(v, s2, arrivalRate, state, e)
  {
  }

  /** The value, with the balance equations applied: p_1 = lambda (e_11 / 24 + 1 / 32 +
      1 / 48), p_2 = lambda e_22 / 20, p_3 = lambda e_33 / 44. */
  lemma StateProbabilityValue(v: Vectors, serviceRates: seq<real>, arrivalRate: seq<real>, state: seq<nat>, e: seq<real>)
    requires |e| == 5
    requires Unpack(v).Success? ==> SolvesBalance(Unpack(v).value, e)
    requires StateProbability(v, serviceRates, arrivalRate, state, e).Success?
    ensures |arrivalRate| > 0
    ensures StateProbability(v, serviceRates, arrivalRate, state, e) ==
      ThreeNodeProduct([arrivalRate[0] * (e[0] / 24.0 + 1.0 / 32.0 + 1.0 / 48.0),
                        arrivalRate[0] * e[3] / 20.0,
                        arrivalRate[0] * e[4] / 44.0], state)
  {
    BalanceEquations(Unpack(v).value, e);
    var p := TrialUtilisations(arrivalRate[0], e);
    var q := [arrivalRate[0] * (e[0] / 24.0 + 1.0 / 32.0 + 1.0 / 48.0),
              arrivalRate[0] * e[3] / 20.0,
              arrivalRate[0] * e[4] / 44.0];
    assert p[0] == q[0] && p[1] == q[1] && p[2] == q[2];
    assert p == q;
    assert StateProbability(v, serviceRates, arrivalRate, state, e) == ThreeNodeProduct(p, state);
  }

  /** The two conventions meet when the Cox variant is handed the reciprocals of the fixed
      rates: multiplying by 1 / mu is dividing by mu. */
  lemma ConventionsAgree(arrivalRate: real, e: seq<real>)
    requires |e| == 5
    ensures CoxStateProbability.ReciprocalUtilisations(arrivalRate, e, [1.0 / 24.0, 1.0 / 32.0, 1.0 / 48.0], [1.0 / 20.0, 1.0 / 44.0])
      == TrialUtilisations(arrivalRate, e)
  {
    var p := CoxStateProbability.ReciprocalUtilisations(arrivalRate, e, [1.0 / 24.0, 1.0 / 32.0, 1.0 / 48.0], [1.0 / 20.0, 1.0 / 44.0]);
    var q := TrialUtilisations(arrivalRate, e);
    assert p[0] == q[0] && p[1] == q[1] && p[2] == q[2];
  }

  /** When arrivals are slow enough that every department's utilisation stays below 1,
      the answer is a probability. */
  lemma StateProbabilityBounded(v: Vectors, serviceRates: seq<real>, arrivalRate: seq<real>, state: seq<nat>, e: seq<real>)
    requires |e| == 5
    requires Unpack(v).Success? ==> SolvesBalance(Unpack(v).value, e)
    requires StateProbability(v, serviceRates, arrivalRate, state, e).Success?
    requires forall i :: 0 <= i < 3 ==> 0.0 <= TrialUtilisations(arrivalRate[0], e)[i] < 1.0
    ensures 0.0 <= StateProbability(v, serviceRates, arrivalRate, state, e).value <= 1.0
  {
    ThreeNodeIsProbability(TrialUtilisations(arrivalRate[0], e), state);
  }
}
