/** The occupancy states of `generate_valid_states` (theoretical_funcitions.py): the
    tuples of `itertools.product(range(max_clients + 1), repeat=N)` whose total does not
    exceed `max_clients`, in the order `product` produces them (lexicographic, first
    station slowest). */
module StateSpace {
  import opened Common

  /** Lexicographic "strictly before" on tuples of equal length. */
  predicate LexLess(a: seq<nat>, b: seq<nat>)
    decreases |a|
  {
    && |a| > 0 && |b| > 0
    && (a[0] < b[0] || (a[0] == b[0] && LexLess(a[1..], b[1..])))
  }

  lemma {:induction false} LexIrreflexive(a: seq<nat>)
    ensures !LexLess(a, a)
    decreases |a|
  {
    if |a| > 0 {
      LexIrreflexive(a[1..]);
    }
  }

  /** Every tuple strictly precedes every later one: sorted and free of duplicates. */
  ghost predicate StrictlyIncreasing(ts: seq<seq<nat>>)
  {
    forall i, j :: 0 <= i < j < |ts| ==> LexLess(ts[i], ts[j])
  }

  /** `d` put in front of every tuple. */
  function Prepend(d: nat, ts: seq<seq<nat>>): (r: seq<seq<nat>>)
    ensures |r| == |ts|
    ensures forall i :: 0 <= i < |ts| ==> r[i] == [d] + ts[i]
  {
    if |ts| == 0 then [] else [[d] + ts[0]] + Prepend(d, ts[1..])
  }

  /** The tuples with first entry d, d + 1, ..., maxClients, in that order. */
  function Block(d: nat, maxClients: int, ts: seq<seq<nat>>): seq<seq<nat>>
    decreases maxClients - d
  {
    if d > maxClients then [] else Prepend(d, ts) + Block(d + 1, maxClients, ts)
  }

  /** `product(range(maxClients + 1), repeat=n)`. */
  function Product(n: nat, maxClients: int): seq<seq<nat>>
  {
    if n == 0 then [[]] else Block(0, maxClients, Product(n - 1, maxClients))
  }

  /** The tuples whose total does not exceed `maxClients`, in their original order. */
  function WithinTotal(ts: seq<seq<nat>>, maxClients: int): seq<seq<nat>>
  {
    if |ts| == 0 then []
    else (if SumInts(ts[0]) <= maxClients then [ts[0]] else []) + WithinTotal(ts[1..], maxClients)
  }

  /** `generate_valid_states(N, max_clients)`: a state is generated iff it has one entry
      per station and its total is within the bound, and the states come out in
      `product` order, each exactly once. */
  function ValidStates(n: nat, maxClients: int): (r: seq<seq<nat>>)
    ensures forall t :: t in r <==> |t| == n && SumInts(t) <= maxClients
    ensures StrictlyIncreasing(r)
    ensures forall i, j :: 0 <= i < j < |r| ==> r[i] != r[j]
  {
    var r := WithinTotal(Product(n, maxClients), maxClients);
    assert forall t :: t in r <==> |t| == n && SumInts(t) <= maxClients by {
      forall t ensures t in r <==> |t| == n && SumInts(t) <= maxClients {
        InValidStates(n, maxClients, t);
      }
    }
    ValidStatesOrdered(n, maxClients);
    r
  }

  ghost predicate EntriesAtMost(t: seq<nat>, maxClients: int)
  {
    forall i :: 0 <= i < |t| ==> t[i] <= maxClients
  }

  lemma {:induction false} InBlock(d: nat, maxClients: int, ts: seq<seq<nat>>, t: seq<nat>)
    ensures t in Block(d, maxClients, ts) <==> |t| > 0 && d <= t[0] <= maxClients && t[1..] in ts
    decreases maxClients - d
  {
    if d <= maxClients {
      InBlock(d + 1, maxClients, ts, t);
      if |t| > 0 && t[0] == d && t[1..] in ts {
        var i :| 0 <= i < |ts| && ts[i] == t[1..];
        assert Prepend(d, ts)[i] == t;
      }
      if t in Prepend(d, ts) {
        var i :| 0 <= i < |ts| && Prepend(d, ts)[i] == t;
        assert t[1..] == ts[i];
      }
    }
  }

  /** `product` yields exactly the n-tuples with entries in 0..maxClients. */
  lemma {:induction false} InProduct(n: nat, maxClients: int, t: seq<nat>)
    ensures t in Product(n, maxClients) <==> |t| == n && EntriesAtMost(t, maxClients)
  {
    if n > 0 {
      InBlock(0, maxClients, Product(n - 1, maxClients), t);
      if |t| > 0 {
        InProduct(n - 1, maxClients, t[1..]);
        if |t| == n && EntriesAtMost(t, maxClients) {
          assert EntriesAtMost(t[1..], maxClients) by {
            forall i | 0 <= i < |t[1..]| ensures t[1..][i] <= maxClients {
              assert t[1..][i] == t[i + 1];
            }
          }
        }
        if t in Product(n, maxClients) {
          forall i | 0 <= i < |t| ensures t[i] <= maxClients {
            if i > 0 {
              assert t[i] == t[1..][i - 1];
            }
          }
        }
      }
    }
  }

  lemma {:induction false} InWithinTotal(ts: seq<seq<nat>>, maxClients: int, t: seq<nat>)
    ensures t in WithinTotal(ts, maxClients) <==> t in ts && SumInts(t) <= maxClients
  {
    if |ts| > 0 {
      InWithinTotal(ts[1..], maxClients, t);
      assert t in ts <==> t == ts[0] || t in ts[1..];
    }
  }

  /** Each entry of a tuple is at most its total. */
  lemma {:induction false} EntryAtMostTotal(t: seq<nat>, i: nat)
    requires i < |t|
    ensures t[i] <= SumInts(t)
  {
    var front := t[..|t| - 1];
    if i < |t| - 1 {
      EntryAtMostTotal(front, i);
    }
  }

  /** The per-entry bound of `range` holds by itself once the total is within the bound. */
  lemma InValidStates(n: nat, maxClients: int, t: seq<nat>)
    ensures t in WithinTotal(Product(n, maxClients), maxClients) <==> |t| == n && SumInts(t) <= maxClients
  {
    InWithinTotal(Product(n, maxClients), maxClients, t);
    InProduct(n, maxClients, t);
    if |t| == n && SumInts(t) <= maxClients {
      forall i | 0 <= i < |t| ensures t[i] <= maxClients {
        EntryAtMostTotal(t, i);
      }
    }
  }

  lemma {:induction false} PrependIncreasing(d: nat, ts: seq<seq<nat>>)
    requires StrictlyIncreasing(ts)
    ensures StrictlyIncreasing(Prepend(d, ts))
  {
    var r := Prepend(d, ts);
    forall i, j | 0 <= i < j < |r|
      ensures LexLess(r[i], r[j])
    {
      assert r[i][1..] == ts[i] && r[j][1..] == ts[j];
    }
  }

  lemma {:induction false} BlockHeads(d: nat, maxClients: int, ts: seq<seq<nat>>)
    ensures forall t :: t in Block(d, maxClients, ts) ==> |t| > 0 && d <= t[0]
  {
    forall t | t in Block(d, maxClients, ts)
      ensures |t| > 0 && d <= t[0]
    {
      InBlock(d, maxClients, ts, t);
    }
  }

  lemma ConcatIncreasing(a: seq<seq<nat>>, b: seq<seq<nat>>)
    requires StrictlyIncreasing(a) && StrictlyIncreasing(b)
    requires forall x, y :: x in a && y in b ==> LexLess(x, y)
    ensures StrictlyIncreasing(a + b)
  {
    var c := a + b;
    forall i, j | 0 <= i < j < |c|
      ensures LexLess(c[i], c[j])
    {
      if j < |a| {
        assert c[i] == a[i] && c[j] == a[j];
      } else if i >= |a| {
        assert c[i] == b[i - |a|] && c[j] == b[j - |a|];
      } else {
        assert c[i] in a && c[j] in b;
      }
    }
  }

  lemma {:induction false} BlockIncreasing(d: nat, maxClients: int, ts: seq<seq<nat>>)
    requires StrictlyIncreasing(ts)
    ensures StrictlyIncreasing(Block(d, maxClients, ts))
    decreases maxClients - d
  {
    if d <= maxClients {
      PrependIncreasing(d, ts);
      BlockIncreasing(d + 1, maxClients, ts);
      BlockHeads(d + 1, maxClients, ts);
      var p := Prepend(d, ts);
      forall x, y | x in p && y in Block(d + 1, maxClients, ts)
        ensures LexLess(x, y)
      {
        var i :| 0 <= i < |p| && p[i] == x;
        assert x[0] == d;
      }
      ConcatIncreasing(p, Block(d + 1, maxClients, ts));
    }
  }

  lemma {:induction false} ProductIncreasing(n: nat, maxClients: int)
    ensures StrictlyIncreasing(Product(n, maxClients))
  {
    if n > 0 {
      ProductIncreasing(n - 1, maxClients);
      BlockIncreasing(0, maxClients, Product(n - 1, maxClients));
    }
  }

  lemma {:induction false} WithinTotalIncreasing(ts: seq<seq<nat>>, maxClients: int)
    requires StrictlyIncreasing(ts)
    ensures StrictlyIncreasing(WithinTotal(ts, maxClients))
  {
    if |ts| > 0 {
      var rest := ts[1..];
      assert StrictlyIncreasing(rest) by {
        forall i, j | 0 <= i < j < |rest| ensures LexLess(rest[i], rest[j]) {
          assert rest[i] == ts[i + 1] && rest[j] == ts[j + 1];
        }
      }
      WithinTotalIncreasing(rest, maxClients);
      var head: seq<seq<nat>> := if SumInts(ts[0]) <= maxClients then [ts[0]] else [];
      forall x, y | x in head && y in WithinTotal(rest, maxClients)
        ensures LexLess(x, y)
      {
        InWithinTotal(rest, maxClients, y);
        var j :| 0 <= j < |rest| && rest[j] == y;
        assert ts[j + 1] == y;
      }
      ConcatIncreasing(head, WithinTotal(rest, maxClients));
    }
  }

  lemma ValidStatesOrdered(n: nat, maxClients: int)
    ensures StrictlyIncreasing(WithinTotal(Product(n, maxClients), maxClients))
    ensures forall i, j :: 0 <= i < j < |WithinTotal(Product(n, maxClients), maxClients)| ==>
      WithinTotal(Product(n, maxClients), maxClients)[i] != WithinTotal(Product(n, maxClients), maxClients)[j]
  {
    ProductIncreasing(n, maxClients);
    WithinTotalIncreasing(Product(n, maxClients), maxClients);
    var v := WithinTotal(Product(n, maxClients), maxClients);
    forall i, j | 0 <= i < j < |v|
      ensures v[i] != v[j]
    {
      LexIrreflexive(v[i]);
    }
  }
}
