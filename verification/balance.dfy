/** What propability_function.py and trials.py share: unpacking the routing-probability
    vectors, the 5-node visit-ratio balance system A * e = b, and the three-node
    product of geometric marginals. Nodes, in the order of `e_values`: 11, 12, 13
    (the PS department for normal, medium and complicated issues), 22 (FIFO) and
    33 (LIFOPR). External arrivals enter the three PS nodes with probability 1 each.
    The linear solve itself is not modelled: a solution vector `e` is an input that
    satisfies A * e = b. */
module BalanceSystem {
  import opened Common
  import opened RealMath
  import ProductForm

  /** The errors the two scripts can raise before or around the solve. */
  datatype InputError =
    | ArityMismatch(argument: string)    // `ValueError` from tuple unpacking
    | MissingKey(key: string)            // `KeyError` from a dict lookup
    | IndexOutOfRange(argument: string)  // `IndexError` from a list index
    | ZeroDivision                       // `ZeroDivisionError`

  /** The twelve routing probabilities, named P_from_to (0 is outside the network). */
  datatype Routing = Routing(
    p11to33: real, p11to22: real, p11exit: real,
    p12to22: real, p12to33: real,
    p13to33: real, p13to22: real,
    p22to33: real, p22to11: real, p22exit: real,
    p33to22: real, p33exit: real)

  /** The five argument vectors of both scripts, in parameter order. */
  datatype Vectors = Vectors(ps: seq<real>, medium: seq<real>, complicated: seq<real>, fifo: seq<real>, lifopr: seq<real>)

  predicate Arities(v: Vectors)
  {
    |v.ps| == 3 && |v.medium| == 2 && |v.complicated| == 2 && |v.fifo| == 3 && |v.lifopr| == 2
  }

  /** The parameter name of the first vector, in parameter order, whose length is wrong. */
  function FirstMisfit(v: Vectors): string
  {
    if |v.ps| != 3 then "ps_values"
    else if |v.medium| != 2 then "ps_values_medium"
    else if |v.complicated| != 2 then "ps_values_comp"
    else if |v.fifo| != 3 then "fifo_values"
    else "lifopr_values"
  }

  /** The five tuple unpackings, in source order: the first vector of the wrong length
      raises. */
  function Unpack(v: Vectors): (r: Result<Routing, InputError>)
    ensures r.Success? <==> Arities(v)
    ensures r.Failure? ==> r.error.ArityMismatch?
    ensures r.Failure? ==> r.error.argument == FirstMisfit(v)
  {
    if |v.ps| != 3 then Failure(ArityMismatch("ps_values"))
    else if |v.medium| != 2 then Failure(ArityMismatch("ps_values_medium"))
    else if |v.complicated| != 2 then Failure(ArityMismatch("ps_values_comp"))
    else if |v.fifo| != 3 then Failure(ArityMismatch("fifo_values"))
    else if |v.lifopr| != 2 then Failure(ArityMismatch("lifopr_values"))
    else
      Success(Routing(v.ps[0], v.ps[1], v.ps[2], v.medium[0], v.medium[1],
                      v.complicated[0], v.complicated[1],
                      v.fifo[0], v.fifo[1], v.fifo[2], v.lifopr[0], v.lifopr[1]))
  }

  /** The vectors a routing record was unpacked from. */
  function Pack(rt: Routing): (v: Vectors)
    ensures Arities(v)
  {
    Vectors([rt.p11to33, rt.p11to22, rt.p11exit], [rt.p12to22, rt.p12to33],
            [rt.p13to33, rt.p13to22], [rt.p22to33, rt.p22to11, rt.p22exit],
            [rt.p33to22, rt.p33exit])
  }

  /** Unpacking loses nothing and invents nothing. */
  lemma UnpackRoundTrip(rt: Routing, v: Vectors)
    ensures Unpack(Pack(rt)).Success? && Unpack(Pack(rt)).value == rt
    ensures Unpack(v).Success? ==> Pack(Unpack(v).value) == v
  {
  }

  /** Row `r` of A times e. */
  function Dot(row: seq<real>, e: seq<real>): (d: real)
    requires |row| == |e|
  {
    if |row| == 0 then 0.0 else Dot(row[..|row| - 1], e[..|e| - 1]) + row[|row| - 1] * e[|e| - 1]
  }

  /** The coefficient matrix A of both scripts. */
  function BalanceMatrix(rt: Routing): (a: seq<seq<real>>)
    ensures |a| == 5 && forall i :: 0 <= i < 5 ==> |a[i]| == 5
  {
    [ [1.0, 0.0, 0.0, -rt.p22to11, 0.0],
      [0.0, 1.0, 0.0, 0.0, 0.0],
      [0.0, 0.0, 1.0, 0.0, 0.0],
      [-rt.p11to22, -rt.p12to22, -rt.p13to22, 1.0, -rt.p33to22],
      [-rt.p11to33, -rt.p12to33, -rt.p13to33, -rt.p22to33, 1.0] ]
  }

  /** The right-hand side b: one external arrival stream into each PS node. */
  const Injection: seq<real> := [1.0, 1.0, 1.0, 0.0, 0.0]

  /** e solves A * e = b. */
  ghost predicate SolvesBalance(rt: Routing, e: seq<real>)
  {
    && |e| == 5
    && forall i :: 0 <= i < 5 ==> Dot(BalanceMatrix(rt)[i], e) == Injection[i]
  }

  lemma DotFive(row: seq<real>, e: seq<real>)
    requires |row| == 5 && |e| == 5
    ensures Dot(row, e) == row[0] * e[0] + row[1] * e[1] + row[2] * e[2] + row[3] * e[3] + row[4] * e[4]
  {
    var r4, r3, r2, r1 := row[..4], row[..3], row[..2], row[..1];
    var e4, e3, e2, e1 := e[..4], e[..3], e[..2], e[..1];
    assert r4[..3] == r3 && r3[..2] == r2 && r2[..1] == r1 && r1[..0] == [];
    assert e4[..3] == e3 && e3[..2] == e2 && e2[..1] == e1 && e1[..0] == [];
    assert Dot(r1, e1) == row[0] * e[0];
    assert Dot(r2, e2) == Dot(r1, e1) + row[1] * e[1];
    assert Dot(r3, e3) == Dot(r2, e2) + row[2] * e[2];
    assert Dot(r4, e4) == Dot(r3, e3) + row[3] * e[3];
  }

  /** The traffic equations A * e = b stands for, in both directions: the medium and
      complicated PS nodes are visited exactly once, and every other visit ratio is the
      flow routed into its node. */
  lemma BalanceEquations(rt: Routing, e: seq<real>)
    requires |e| == 5
    ensures SolvesBalance(rt, e) <==>
      && e[1] == 1.0 && e[2] == 1.0
      && e[0] == 1.0 + rt.p22to11 * e[3]
      && e[3] == rt.p11to22 * e[0] + rt.p12to22 * e[1] + rt.p13to22 * e[2] + rt.p33to22 * e[4]
      && e[4] == rt.p11to33 * e[0] + rt.p12to33 * e[1] + rt.p13to33 * e[2] + rt.p22to33 * e[3]
  {
    var a := BalanceMatrix(rt);
    DotFive(a[0], e);
    DotFive(a[1], e);
    DotFive(a[2], e);
    DotFive(a[3], e);
    DotFive(a[4], e);
    assert SolvesBalance(rt, e) <==>
      Dot(a[0], e) == 1.0 && Dot(a[1], e) == 1.0 && Dot(a[2], e) == 1.0 && Dot(a[3], e) == 0.0 && Dot(a[4], e) == 0.0;
  }

  /** The exit probabilities are unpacked but take no part in the system. */
  lemma ExitProbabilitiesUnused(rt: Routing, x: real, y: real, z: real)
    ensures BalanceMatrix(rt.(p11exit := x, p22exit := y, p33exit := z)) == BalanceMatrix(rt)
  {
  }

  /** `(1 - p) * (p ** k)`. */
  function NodeMarginal(p: real, k: nat): real
  {
    (1.0 - p) * Pow(p, k)
  }

  /** The server counts and types of the three PS nodes in the general product form. */
  const OneServerEach: seq<int> := [1, 1, 1]
  const ThreePs: seq<string> := [ProductForm.PS, ProductForm.PS, ProductForm.PS]

  /** `pi_1 * pi_2 * pi_3` for utilisations p and the first three entries of the state;
      a state with fewer than three entries raises `IndexError`. */
  function ThreeNodeProduct(p: seq<real>, state: seq<nat>): (r: Result<real, InputError>)
    requires |p| == 3
    ensures r.Success? <==> |state| >= 3
    ensures r.Failure? ==> r.error == IndexOutOfRange("given_state")
  {
    if |state| < 3 then Failure(IndexOutOfRange("given_state"))
    else Success(NodeMarginal(p[0], state[0]) * NodeMarginal(p[1], state[1]) * NodeMarginal(p[2], state[2]))
  }

  /** The empty network: (1 - p_1)(1 - p_2)(1 - p_3). */
  lemma EmptyNetwork(p: seq<real>)
    requires |p| == 3
    ensures ThreeNodeProduct(p, [0, 0, 0]).Success?
    ensures ThreeNodeProduct(p, [0, 0, 0]).value == (1.0 - p[0]) * (1.0 - p[1]) * (1.0 - p[2])
  {
  }

  /** The three-node product is the general product form of `compute_state_probabilities`
      for three single-server PS stations with loads p, on the first three entries. */
  lemma AgreesWithGeneralProductForm(p: seq<real>, state: seq<nat>)
    requires |p| == 3 && |state| >= 3
    ensures ProductForm.JointProbability(state[..3], p, OneServerEach, ThreePs).Success?
    ensures ProductForm.JointProbability(state[..3], p, OneServerEach, ThreePs).value
      == ThreeNodeProduct(p, state).value
  {
    var s3 := state[..3];
    JointValue(p, s3);
    ThreeNodeValue(p, state);
    assert s3[0] == state[0] && s3[1] == state[1] && s3[2] == state[2];
  }

  lemma ThreeNodeValue(p: seq<real>, state: seq<nat>)
    requires |p| == 3 && |state| >= 3
    ensures ThreeNodeProduct(p, state).value
      == NodeMarginal(p[0], state[0]) * NodeMarginal(p[1], state[1]) * NodeMarginal(p[2], state[2])
  {
  }

  /** The general product form for three single-server PS stations, written out. */
  lemma JointValue(p: seq<real>, s: seq<nat>)
    requires |p| == 3 && |s| == 3
    ensures ProductForm.JointProbability(s, p, OneServerEach, ThreePs).Success?
    ensures ProductForm.JointProbability(s, p, OneServerEach, ThreePs).value
      == NodeMarginal(p[0], s[0]) * NodeMarginal(p[1], s[1]) * NodeMarginal(p[2], s[2])
  {
    ProductForm.JointIsProduct(s, p, OneServerEach, ThreePs);
    PsMarginals(p, s);
    ProductForm.ThreeFactors(NodeMarginal(p[0], s[0]), NodeMarginal(p[1], s[1]), NodeMarginal(p[2], s[2]));
  }

  /** The three station marginals of three single-server PS stations. */
  lemma PsMarginals(p: seq<real>, s: seq<nat>)
    requires |p| == 3 && |s| == 3
    ensures ProductForm.StationMarginals(s, p, OneServerEach, ThreePs)
      == [Success(NodeMarginal(p[0], s[0])), Success(NodeMarginal(p[1], s[1])), Success(NodeMarginal(p[2], s[2]))]
  {
    PsMarginal(p[0], s[0]);
    PsMarginal(p[1], s[1]);
    PsMarginal(p[2], s[2]);
  }

  /** A single-server PS station's marginal is the geometric marginal. */
  lemma PsMarginal(rho: real, k: nat)
    ensures ProductForm.Marginal(k, rho, 1, ProductForm.PS) == Success(NodeMarginal(rho, k))
  {
  }

  /** With every utilisation in [0, 1) the three-node product is a probability. */
  lemma ThreeNodeIsProbability(p: seq<real>, state: seq<nat>)
    requires |p| == 3 && |state| >= 3
    requires forall i :: 0 <= i < 3 ==> 0.0 <= p[i] < 1.0
    ensures 0.0 <= ThreeNodeProduct(p, state).value <= 1.0
  {
    AgreesWithGeneralProductForm(p, state);
    ProductForm.JointIsProbability(state[..3], p, OneServerEach, ThreePs);
  }
}
