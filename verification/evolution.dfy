/** The genome-level operators shared by GA.py and GA_v2.py: single-point
    mutation with a fitness reset, single-point crossover over cyclic parent
    pairs, top-k parent selection and the population replacement of one
    generation. Random draws are parameters. */
module Evolution {
  import opened Wrappers

  /** A genome's fitness: unset (the source's string 'OFF') or a score. */
  datatype Fitness = Off | Score(value: real)

  datatype Genome<G> = Genome(genes: seq<G>, fitness: Fitness)

  // ---------------------------------------------------------------------
  // Number helpers shared by the gene rules.

  /** Python's int() of a float: truncation toward zero. */
  function Trunc(u: real): (t: int)
    ensures u >= 0.0 ==> 0 <= t && t as real <= u < t as real + 1.0
    ensures u < 0.0 ==> t <= 0 && t as real - 1.0 < u <= t as real
  {
    if u >= 0.0 then u.Floor else -((-u).Floor)
  }

  /** The clamp at the end of the bounded gene mutations. */
  function Clamp(aux: int, lo: int, hi: int): (r: int)
    requires lo <= hi
    ensures lo <= r <= hi
    ensures lo <= aux <= hi ==> r == aux
    ensures aux > hi ==> r == hi
    ensures aux < lo ==> r == lo
  {
    if aux > hi then hi else if aux < lo then lo else aux
  }

  // ---------------------------------------------------------------------
  // Genome.mutation (GA_v2.py:145-149, GA.py:69-73).

  /** With the draw `u` below `prob`, mutate the gene at `point` (drawn from
      the gene indices) and reset the fitness; otherwise leave the genome as
      it is. Drawing an index from no genes, or a gene mutation that fails,
      fails the whole mutation. */
  function MutateGenome<G>(x: Genome<G>, prob: real, u: real, point: nat, mutate: G -> Option<G>)
    : (r: Option<Genome<G>>)
    requires x.genes != [] ==> point < |x.genes|
    ensures prob <= u ==> r == Some(x)
    ensures r.None? <==> prob > u && (x.genes == [] || mutate(x.genes[point]).None?)
    ensures r.Some? ==> |r.value.genes| == |x.genes|
    ensures r.Some? ==> r.value.fitness == if prob > u then Off else x.fitness
    ensures r.Some? ==> forall i :: 0 <= i < |x.genes| && i != point ==> r.value.genes[i] == x.genes[i]
    ensures r.Some? && prob > u ==> mutate(x.genes[point]) == Some(r.value.genes[point])
  {
    if prob > u then
      if x.genes == [] then None
      else
        match mutate(x.genes[point])
        case None => None
        case Some(g) => Some(Genome(x.genes[point := g], Off))
    else Some(x)
  }

  /** One draw set of do_mutation for one genome. */
  datatype MutationDraw<!G> = MutationDraw(u: real, point: nat, mutate: G -> Option<G>)

  /** do_mutation (GA_v2.py:207-210): mutate every genome with its own draws;
      one failing gene mutation fails the call. */
  function DoMutation<G>(xs: seq<Genome<G>>, prob: real, draws: seq<MutationDraw<G>>): (r: Option<seq<Genome<G>>>)
    requires |draws| >= |xs|
    requires forall i :: 0 <= i < |xs| ==> xs[i].genes != [] ==> draws[i].point < |xs[i].genes|
    ensures r.Some? <==> forall i :: 0 <= i < |xs| ==>
      MutateGenome(xs[i], prob, draws[i].u, draws[i].point, draws[i].mutate).Some?
    ensures r.Some? ==> |r.value| == |xs| && forall i :: 0 <= i < |xs| ==>
      r.value[i] == MutateGenome(xs[i], prob, draws[i].u, draws[i].point, draws[i].mutate).value
    decreases |xs|
  {
    if xs == [] then Some([])
    else
      var head := MutateGenome(xs[0], prob, draws[0].u, draws[0].point, draws[0].mutate);
      var tail := DoMutation(xs[1..], prob, draws[1..]);
      assert forall i :: 1 <= i < |xs| ==> xs[1..][i - 1] == xs[i] && draws[1..][i - 1] == draws[i];
      if head.None? || tail.None? then None else Some([head.value] + tail.value)
  }

  /** genes_values (GA_v2.py:150-151): the value of every gene, in order. */
  function Values<G, V>(genes: seq<G>, value: G -> V): (r: seq<V>)
    ensures |r| == |genes|
    ensures forall i :: 0 <= i < |genes| ==> r[i] == value(genes[i])
    decreases |genes|
  {
    if genes == [] then [] else [value(genes[0])] + Values(genes[1..], value)
  }

  /** Reading values commutes with cutting and splicing gene lists. */
  lemma {:induction false} ValuesSplice<G, V>(a: seq<G>, b: seq<G>, value: G -> V)
    ensures Values(a + b, value) == Values(a, value) + Values(b, value)
  {
    var l := Values(a + b, value);
    var r := Values(a, value) + Values(b, value);
    assert |l| == |r|;
    forall i | 0 <= i < |l| ensures l[i] == r[i] {
      if i < |a| {
        assert (a + b)[i] == a[i];
      } else {
        assert (a + b)[i] == b[i - |a|];
      }
    }
  }

  // ---------------------------------------------------------------------
  // do_crossover (GA_v2.py:187-205, GA.py:110-128).

  /** Python slices s[:k] and s[k:], which clip at the end. */
  function Take<T>(s: seq<T>, k: nat): (r: seq<T>)
    ensures |r| == if k <= |s| then k else |s|
  {
    if k <= |s| then s[..k] else s
  }

  function Drop<T>(s: seq<T>, k: nat): (r: seq<T>)
    ensures |r| == if k <= |s| then |s| - k else 0
  {
    if k <= |s| then s[k..] else []
  }

  /** One round of do_crossover: two children spliced at `pt` with unset
      fitness, or copies of the two parents. */
  function Pair<G>(p1: Genome<G>, p2: Genome<G>, crossing: bool, pt: nat): seq<Genome<G>>
  {
    if crossing then
      [Genome(Take(p1.genes, pt) + Drop(p2.genes, pt), Off),
       Genome(Take(p2.genes, pt) + Drop(p1.genes, pt), Off)]
    else [p1, p2]
  }

  /** The values of a splice are the splice of the values. */
  lemma SpliceValues<G, V>(x: seq<G>, y: seq<G>, pt: nat, value: G -> V)
    requires pt <= |x| && pt <= |y|
    ensures Values(x[..pt] + y[pt..], value) == Values(x, value)[..pt] + Values(y, value)[pt..]
  {
    ValuesSplice(x[..pt], y[pt..], value);
    assert Values(x[..pt], value) == Values(x, value)[..pt];
    assert Values(y[pt..], value) == Values(y, value)[pt..];
  }

  /** A splice takes x's elements before the cut and y's from it on. */
  lemma SpliceAt<G>(x: seq<G>, y: seq<G>, pt: nat)
    requires pt <= |x| == |y|
    ensures |x[..pt] + y[pt..]| == |x|
    ensures forall i :: 0 <= i < pt ==> (x[..pt] + y[pt..])[i] == x[i]
    ensures forall i :: pt <= i < |x| ==> (x[..pt] + y[pt..])[i] == y[i]
  {
  }

  /** Spliced children of equal-length parents have that length, take the
      first parent's genes before the cut and the second's from it on (the
      other way round for the second child), and their values are the
      matching splices of the parents' values. */
  lemma PairSplices<G, V>(p1: Genome<G>, p2: Genome<G>, pt: nat, value: G -> V)
    requires |p1.genes| == |p2.genes| && 1 <= pt < |p1.genes|
    ensures var c := Pair(p1, p2, true, pt);
      && |c| == 2 && |c[0].genes| == |p1.genes| && |c[1].genes| == |p1.genes|
      && c[0].fitness == Off && c[1].fitness == Off
      && (forall i :: 0 <= i < pt ==> c[0].genes[i] == p1.genes[i] && c[1].genes[i] == p2.genes[i])
      && (forall i :: pt <= i < |p1.genes| ==> c[0].genes[i] == p2.genes[i] && c[1].genes[i] == p1.genes[i])
      && Values(c[0].genes, value) == Values(p1.genes, value)[..pt] + Values(p2.genes, value)[pt..]
  {
    var a, b := p1.genes[..pt] + p2.genes[pt..], p2.genes[..pt] + p1.genes[pt..];
    assert Pair(p1, p2, true, pt) == [Genome(a, Off), Genome(b, Off)];
    SpliceAt(p1.genes, p2.genes, pt);
    SpliceAt(p2.genes, p1.genes, pt);
    SpliceValues(p1.genes, p2.genes, pt, value);
  }

  /** The draws of one crossover round: the uniform draw compared with the
      crossover probability and the cut point. */
  datatype CrossDraw = CrossDraw(u: real, pt: nat)

  /** The number of rounds do_crossover runs to reach n_pop children. */
  function Rounds(nPop: nat): nat
  {
    (nPop + 1) / 2
  }

  /** The cut point of round i lies in range(1, len(parent1.genes)) whenever
      that range is not empty. */
  predicate CutsFit<G>(parents: seq<Genome<G>>, probCross: real, draws: seq<CrossDraw>, rounds: nat)
    requires |draws| >= rounds
  {
    |parents| >= 2 ==>
      forall i :: 0 <= i < rounds && probCross > draws[i].u && |parents[i % |parents|].genes| >= 2 ==>
        1 <= draws[i].pt < |parents[i % |parents|].genes|
  }

  /** Round i fails when it crosses and the first parent has fewer than two
      genes, so no cut point can be drawn. */
  predicate RoundFails<G>(parents: seq<Genome<G>>, probCross: real, draws: seq<CrossDraw>, i: nat)
    requires |parents| >= 2 && i < |draws|
  {
    probCross > draws[i].u && |parents[i % |parents|].genes| < 2
  }

  /** A positive multiple of n is at least n (a step of ModUnique). */
  lemma MulAtLeast(d: int, n: int)
    requires d >= 1 && n >= 1
    ensures d * n >= n
  {
  }

  /** The remainder is determined by any division with a remainder in range. */
  lemma ModUnique(a: int, n: int, q: int, r: int)
    requires n >= 1 && 0 <= r < n && a == q * n + r
    ensures a % n == r
  {
    var q' := a / n;
    var r' := a % n;
    assert a == q' * n + r';
    assert (q - q') * n == r' - r;
    if q > q' {
      MulAtLeast(q - q', n);
    } else if q < q' {
      MulAtLeast(q' - q, n);
    }
  }

  /** Counting modulo n steps up by one and wraps from n - 1 to 0. */
  lemma ModSucc(i: nat, n: nat)
    requires n >= 1
    ensures i % n != n - 1 ==> (i + 1) % n == i % n + 1
    ensures i % n == n - 1 ==> (i + 1) % n == 0
  {
    var q := i / n;
    assert i == q * n + i % n;
    if i % n == n - 1 {
      ModUnique(i + 1, n, q + 1, 0);
    } else {
      ModUnique(i + 1, n, q, i % n + 1);
    }
  }

  /** The two children of round i: parents i mod P and i + 1 mod P (P
      parents), crossed when the round's uniform draw is below the crossover
      probability. */
  function Mate<G>(parents: seq<Genome<G>>, probCross: real, draws: seq<CrossDraw>, i: nat): seq<Genome<G>>
    requires |parents| >= 2 && i < |draws|
  {
    Pair(parents[i % |parents|], parents[(i + 1) % |parents|], probCross > draws[i].u, draws[i].pt)
  }

  /** Reference definition of the first n rounds, one round at a time: the
      first failing round fails them all, otherwise round i contributes
      children 2i and 2i + 1. */
  function Crossed<G>(parents: seq<Genome<G>>, probCross: real, draws: seq<CrossDraw>, n: nat): (r: Result<seq<Genome<G>>>)
    requires |parents| >= 2 && n <= |draws|
    ensures r.Failure? <==> exists i :: 0 <= i < n && RoundFails(parents, probCross, draws, i)
    ensures r.Success? ==> |r.value| == 2 * n
    ensures r.Success? ==> forall i :: 0 <= i < n ==>
      r.value[2 * i .. 2 * i + 2] == Mate(parents, probCross, draws, i)
    decreases n
  {
    if n == 0 then Success([])
    else
      var prev := Crossed(parents, probCross, draws, n - 1);
      if prev.Failure? then prev
      else if RoundFails(parents, probCross, draws, n - 1) then Failure("ValueError: no cut point")
      else
        var pair := Mate(parents, probCross, draws, n - 1);
        assert forall i :: 0 <= i < n - 1 ==>
          (prev.value + pair)[2 * i .. 2 * i + 2] == prev.value[2 * i .. 2 * i + 2];
        assert (prev.value + pair)[2 * (n - 1) .. 2 * (n - 1) + 2] == pair;
        Success(prev.value + pair)
  }

  /** Every child of the first n rounds comes from its round's pair. */
  lemma CrossedMember<G>(parents: seq<Genome<G>>, probCross: real, draws: seq<CrossDraw>, n: nat, k: nat)
    requires |parents| >= 2 && n <= |draws|
    requires Crossed(parents, probCross, draws, n).Success?
    requires k < |Crossed(parents, probCross, draws, n).value|
    ensures k / 2 < n
    ensures Crossed(parents, probCross, draws, n).value[k] in Mate(parents, probCross, draws, k / 2)
  {
    var r := Crossed(parents, probCross, draws, n).value;
    var i := k / 2;
    assert r[2 * i .. 2 * i + 2][k - 2 * i] == r[k];
  }

  /** do_crossover: rounds pair parents at two wrapping indices until at
      least n_pop children exist, so the result has n_pop rounded up to even
      members. Fewer than two parents is an index error once a round runs. */
  method DoCrossover<G>(parents: seq<Genome<G>>, nPop: nat, probCross: real, draws: seq<CrossDraw>)
    returns (r: Result<seq<Genome<G>>>)
    requires |draws| >= Rounds(nPop)
    requires CutsFit(parents, probCross, draws, Rounds(nPop))
    ensures nPop > 0 && |parents| < 2 ==> r.Failure?
    ensures |parents| >= 2 ==>
      (r.Failure? <==> Crossed(parents, probCross, draws, Rounds(nPop)).Failure?)
    ensures |parents| >= 2 && r.Success? ==> r == Crossed(parents, probCross, draws, Rounds(nPop))
    ensures nPop == 0 ==> r == Success([])
    ensures r.Success? ==> nPop <= |r.value| <= nPop + 1
  {
    if nPop > 0 && |parents| < 2 {
      return Failure("IndexError: fewer than two parents");
    }
    if nPop == 0 {
      return Success([]);
    }
    var out: seq<Genome<G>> := [];
    var ind1 := 0;
    var ind2 := 1;
    var i := 0;
    while |out| < nPop
      invariant i <= Rounds(nPop) && |out| == 2 * i
      invariant ind1 == i % |parents| && ind2 == (i + 1) % |parents|
      invariant Crossed(parents, probCross, draws, i) == Success(out)
      decreases nPop - |out|
    {
      var p1 := parents[ind1];
      var p2 := parents[ind2];
      var crossing := probCross > draws[i].u;
      if crossing && |p1.genes| < 2 {
        assert RoundFails(parents, probCross, draws, i);
        return Failure("ValueError: no cut point");
      }
      out := out + Pair(p1, p2, crossing, draws[i].pt);
      ModSucc(i, |parents|);
      ModSucc(i + 1, |parents|);
      ind1 := if ind1 != |parents| - 1 then ind1 + 1 else 0;
      ind2 := if ind2 != |parents| - 1 then ind2 + 1 else 0;
      i := i + 1;
    }
    assert i == Rounds(nPop);
    r := Success(out);
  }

  // ---------------------------------------------------------------------
  // get_parents (GA_v2.py:183-185, GA.py:106-108).

  /** The index of a highest fitness among those not yet chosen, the lowest
      such index among ties. */
  method PickBest(fitness: seq<real>, chosen: seq<nat>) returns (b: nat)
    requires exists k :: 0 <= k < |fitness| && k !in chosen
    ensures b < |fitness| && b !in chosen
    ensures forall k :: 0 <= k < |fitness| && k !in chosen ==> fitness[k] <= fitness[b]
  {
    var k := 0;
    while k in chosen
      invariant 0 <= k <= |fitness|
      invariant forall m :: 0 <= m < k ==> m in chosen
      decreases |fitness| - k
    {
      k := k + 1;
    }
    b := k;
    while k < |fitness|
      invariant b < |fitness| && b !in chosen && b <= k <= |fitness|
      invariant forall m :: 0 <= m < k && m !in chosen ==> fitness[m] <= fitness[b]
    {
      if k !in chosen && fitness[k] > fitness[b] {
        b := k;
      }
      k := k + 1;
    }
  }

  /** The order np.argsort(-fitness) gives, cut to n_select: distinct indices,
      fitness non-increasing along it, and no index left out beats one taken.
      The sort it uses is not stable; this picks the lowest index among equal
      fitnesses, one of the orders it may produce. */
  method GetParents<G>(population: seq<Genome<G>>, fitness: seq<real>, nSelect: nat)
    returns (r: Result<seq<Genome<G>>>, order: seq<nat>)
    requires |fitness| == |population|
    ensures r.Failure? <==> nSelect > |population|
    ensures r.Success? ==>
      && |order| == nSelect && |r.value| == nSelect
      && (forall a :: 0 <= a < nSelect ==> order[a] < |population| && r.value[a] == population[order[a]])
      && (forall a, b :: 0 <= a < b < nSelect ==> order[a] != order[b])
      && (forall a, b :: 0 <= a < b < nSelect ==> fitness[order[a]] >= fitness[order[b]])
      && (forall k, a :: 0 <= k < |population| && k !in order && 0 <= a < nSelect ==>
            fitness[k] <= fitness[order[a]])
  {
    order := [];
    if nSelect > |population| {
      return Failure("IndexError: fewer genomes than parents"), order;
    }
    var parents: seq<Genome<G>> := [];
    while |order| < nSelect
      invariant |order| == |parents| <= nSelect
      invariant forall a :: 0 <= a < |order| ==> order[a] < |population| && parents[a] == population[order[a]]
      invariant forall a, b :: 0 <= a < b < |order| ==> order[a] != order[b]
      invariant forall a, b :: 0 <= a < b < |order| ==> fitness[order[a]] >= fitness[order[b]]
      invariant forall k, a :: 0 <= k < |population| && k !in order && 0 <= a < |order| ==>
        fitness[k] <= fitness[order[a]]
    {
      assert exists k :: 0 <= k < |fitness| && k !in order by {
        Pigeonhole(order, |population|);
      }
      var b := PickBest(fitness, order);
      order := order + [b];
      parents := parents + [population[b]];
    }
    r := Success(parents);
  }

  /** Fewer distinct indices than n leave some index below n out. */
  lemma {:induction false} Pigeonhole(order: seq<nat>, n: nat)
    requires |order| < n
    requires forall a, b :: 0 <= a < b < |order| ==> order[a] != order[b]
    ensures exists k :: 0 <= k < n && k !in order
    decreases n
  {
    if n - 1 in order {
      var j :| 0 <= j < |order| && order[j] == n - 1;
      var rest := order[..j] + order[j + 1..];
      assert forall a :: 0 <= a < |rest| ==> rest[a] == if a < j then order[a] else order[a + 1];
      Pigeonhole(rest, n - 1);
      var k :| 0 <= k < n - 1 && k !in rest;
      assert k !in order;
    }
  }

  // ---------------------------------------------------------------------
  // One generation of evolve (GA_v2.py:218-223, GA.py:138-142).

  /** The next population: the mutated offspring followed by the first n_elit
      parents. More elites than parents is an index error. */
  function NextPopulation<G>(mutated: seq<Genome<G>>, parents: seq<Genome<G>>, nElit: nat)
    : (r: Result<seq<Genome<G>>>)
    ensures r.Failure? <==> nElit > |parents|
    ensures r.Success? ==> |r.value| == |mutated| + nElit
    ensures r.Success? ==> r.value[..|mutated|] == mutated && r.value[|mutated|..] == parents[..nElit]
  {
    if nElit > |parents| then Failure("IndexError: more elites than parents")
    else Success(mutated + parents[..nElit])
  }

  /** The children of a crossover of equal-width parents have that width. */
  lemma CrossedWidth<G>(parents: seq<Genome<G>>, probCross: real, draws: seq<CrossDraw>, n: nat, width: nat)
    requires |parents| >= 2 && n <= |draws|
    requires forall k :: 0 <= k < |parents| ==> |parents[k].genes| == width
    ensures var r := Crossed(parents, probCross, draws, n);
      r.Success? ==> forall k :: 0 <= k < |r.value| ==> |r.value[k].genes| == width
  {
    var r := Crossed(parents, probCross, draws, n);
    if r.Success? {
      forall k | 0 <= k < |r.value| ensures |r.value[k].genes| == width {
        CrossedMember(parents, probCross, draws, n, k);
      }
    }
  }

  /** The first n_elit of a selection order in which fitness does not
      increase, and which no left-out index beats, are beaten by no index
      outside them. */
  lemma ElitesDominate(fitness: seq<real>, order: seq<nat>, nElit: nat)
    requires nElit <= |order|
    requires forall a :: 0 <= a < |order| ==> order[a] < |fitness|
    requires forall a, b :: 0 <= a < b < |order| ==> fitness[order[a]] >= fitness[order[b]]
    requires forall k, a :: 0 <= k < |fitness| && k !in order && 0 <= a < |order| ==>
      fitness[k] <= fitness[order[a]]
    ensures forall k, a :: 0 <= k < |fitness| && k !in order[..nElit] && 0 <= a < nElit ==>
      fitness[k] <= fitness[order[..nElit][a]]
  {
    forall k, a | 0 <= k < |fitness| && k !in order[..nElit] && 0 <= a < nElit
      ensures fitness[k] <= fitness[order[..nElit][a]]
    {
      if b :| 0 <= b < |order| && order[b] == k {
        assert fitness[order[a]] >= fitness[order[b]];
      }
    }
  }

  /** do_crossover followed by do_mutation (GA_v2.py:220-221) on parents of
      one width, as a function: no children for n_pop 0, an index error for
      fewer than two parents, otherwise the crossover rounds and then one
      mutation per child, either of which may fail. */
  function Bred<G>(parents: seq<Genome<G>>, width: nat, nPop: nat, probCross: real, probMut: real,
      cross: seq<CrossDraw>, mut: seq<MutationDraw<G>>): (r: Result<seq<Genome<G>>>)
    requires forall k :: 0 <= k < |parents| ==> |parents[k].genes| == width
    requires |cross| >= Rounds(nPop) && |mut| >= 2 * Rounds(nPop)
    requires forall i :: 0 <= i < 2 * Rounds(nPop) && width > 0 ==> mut[i].point < width
    ensures nPop == 0 ==> r == Success([])
    ensures nPop > 0 && |parents| < 2 ==> r.Failure?
    ensures nPop > 0 && |parents| >= 2 ==> (
      var c := Crossed(parents, probCross, cross, Rounds(nPop));
      CrossedWidth(parents, probCross, cross, Rounds(nPop), width);
      && (r.Success? <==> c.Success? && DoMutation(c.value, probMut, mut).Some?)
      && (r.Success? ==> r.value == DoMutation(c.value, probMut, mut).value))
    ensures r.Success? ==> |r.value| == 2 * Rounds(nPop)
    ensures r.Success? ==> forall k :: 0 <= k < |r.value| ==> |r.value[k].genes| == width
  {
    if nPop == 0 then Success([])
    else if |parents| < 2 then Failure("IndexError: fewer than two parents")
    else
      var c := Crossed(parents, probCross, cross, Rounds(nPop));
      if c.Failure? then Failure(c.error)
      else
        CrossedWidth(parents, probCross, cross, Rounds(nPop), width);
        var m := DoMutation(c.value, probMut, mut);
        if m.None? then Failure("gene mutation failed") else Success(m.value)
  }

  /** do_crossover followed by do_mutation on parents of one width: n_pop
      rounded up to even children of that width. */
  method Offspring<G>(parents: seq<Genome<G>>, width: nat, nPop: nat, probCross: real, probMut: real,
      cross: seq<CrossDraw>, mut: seq<MutationDraw<G>>)
    returns (r: Result<seq<Genome<G>>>)
    requires forall k :: 0 <= k < |parents| ==> |parents[k].genes| == width
    requires |cross| >= Rounds(nPop) && |mut| >= 2 * Rounds(nPop)
    requires forall i :: 0 <= i < Rounds(nPop) && probCross > cross[i].u && width >= 2 ==>
      1 <= cross[i].pt < width
    requires forall i :: 0 <= i < 2 * Rounds(nPop) && width > 0 ==> mut[i].point < width
    ensures r.Success? <==> Bred(parents, width, nPop, probCross, probMut, cross, mut).Success?
    ensures r.Success? ==> r == Bred(parents, width, nPop, probCross, probMut, cross, mut)
  {
    var crossed := DoCrossover(parents, nPop, probCross, cross);
    if crossed.Failure? {
      return Failure(crossed.error);
    }
    var cs := crossed.value;
    assert |cs| == 2 * Rounds(nPop) && forall k :: 0 <= k < |cs| ==> |cs[k].genes| == width by {
      if nPop > 0 {
        CrossedWidth(parents, probCross, cross, Rounds(nPop), width);
      }
    }
    var mutated := DoMutation(cs, probMut, mut);
    if mutated.None? {
      return Failure("gene mutation failed");
    }
    r := Success(mutated.value);
  }

  /** The genomes at the given population indices, in that order. */
  function Picked<G>(population: seq<Genome<G>>, selected: seq<nat>): (r: seq<Genome<G>>)
    requires forall a :: 0 <= a < |selected| ==> selected[a] < |population|
    ensures |r| == |selected| && forall a :: 0 <= a < |selected| ==> r[a] == population[selected[a]]
  {
    if selected == [] then [] else [population[selected[0]]] + Picked(population, selected[1..])
  }

  /** One generation of evolve: the n_select fittest become parents, their
      crossover and mutation give n_pop (rounded up to even) offspring, and
      the n_elit fittest parents follow them unchanged. `selected` are the
      population indices of the parents, fittest first; the elites are its
      first n_elit. */
  method Generation<G>(population: seq<Genome<G>>, fitness: seq<real>, width: nat,
      nPop: nat, nSelect: nat, nElit: nat, probCross: real, probMut: real,
      cross: seq<CrossDraw>, mut: seq<MutationDraw<G>>)
    returns (r: Result<seq<Genome<G>>>, selected: seq<nat>)
    requires |fitness| == |population|
    requires forall k :: 0 <= k < |population| ==> |population[k].genes| == width
    requires |cross| >= Rounds(nPop) && |mut| >= 2 * Rounds(nPop)
    requires forall i :: 0 <= i < Rounds(nPop) && probCross > cross[i].u && width >= 2 ==>
      1 <= cross[i].pt < width
    requires forall i :: 0 <= i < 2 * Rounds(nPop) && width > 0 ==> mut[i].point < width
    ensures nSelect <= |population| ==>
      && |selected| == nSelect
      && (forall a :: 0 <= a < nSelect ==> selected[a] < |population|)
      && (forall a, b :: 0 <= a < b < nSelect ==> selected[a] != selected[b])
      && (forall a, b :: 0 <= a < b < nSelect ==> fitness[selected[a]] >= fitness[selected[b]])
      && (forall k, a :: 0 <= k < |population| && k !in selected && 0 <= a < nSelect ==>
            fitness[k] <= fitness[selected[a]])
    ensures r.Failure? <==>
      || nSelect > |population|
      || Bred(Picked(population, selected), width, nPop, probCross, probMut, cross, mut).Failure?
      || nElit > nSelect
    ensures r.Success? ==>
      && |r.value| == 2 * Rounds(nPop) + nElit
      && r.value[..2 * Rounds(nPop)]
           == Bred(Picked(population, selected), width, nPop, probCross, probMut, cross, mut).value
      && forall a :: 0 <= a < nElit ==> r.value[2 * Rounds(nPop) + a] == population[selected[a]]
    ensures r.Success? ==> forall k :: 0 <= k < |r.value| ==> |r.value[k].genes| == width
    ensures r.Success? ==> forall k, a :: 0 <= k < |population| && k !in selected[..nElit] && 0 <= a < nElit ==>
      fitness[k] <= fitness[selected[a]]
  {
    var parents;
    parents, selected := GetParents(population, fitness, nSelect);
    if parents.Failure? {
      return Failure(parents.error), selected;
    }
    var ps := parents.value;
    assert ps == Picked(population, selected);
    var offspring := Offspring(ps, width, nPop, probCross, probMut, cross, mut);
    if offspring.Failure? {
      return Failure(offspring.error), selected;
    }
    var ms := offspring.value;
    var next := NextPopulation(ms, ps, nElit);
    if next.Failure? {
      return next, selected;
    }
    ElitesDominate(fitness, selected, nElit);
    r := next;
  }
}
