/** The genes of GA_v2.py: five integer model parameters that move by a
    clamped step and 44 real network weights that move by a rejected step,
    with the ranges every initialisation and mutation keeps. */
module GenesV2 {
  import opened Wrappers
  import opened Evolution

  // ---------------------------------------------------------------------
  // The clamped step shared by Gen_01, Gen_02, Gen_04 and Gen_05.

  /** One mutation of a gene bounded by [lo, hi]: strictly inside, add the
      truncated draw `u`, or the coin `sign` when that truncates to 0; at lo
      add the truncated draw, at hi subtract it; then clamp into [lo, hi].
      A value outside [lo, hi] reaches the clamp with nothing assigned, which
      is an error. */
  function ClampedStep(v: int, lo: int, hi: int, u: real, sign: int): (r: Option<int>)
    requires lo <= hi
    ensures r.None? <==> v < lo || hi < v
    ensures r.Some? ==> lo <= r.value <= hi
    ensures lo < hi && 1.0 <= u && v == lo ==> r.value > v
    ensures lo < hi && 1.0 <= u && v == hi ==> r.value < v
    ensures lo < v < hi && (sign == -1 || sign == 1) ==> r.value != v
  {
    if lo < v < hi then
      var d := Trunc(u);
      Some(Clamp(v + (if d != 0 then d else sign), lo, hi))
    else if v == lo then Some(Clamp(v + Trunc(u), lo, hi))
    else if v == hi then Some(Clamp(v - Trunc(u), lo, hi))
    else None
  }

  // ---------------------------------------------------------------------
  // Genes and their draws.

  /** One gene, by class: Gen_01 carrying capacity, Gen_02 fission
      threshold, Gen_03 catchment, Gen_04 leapfrog distance, Gen_05
      permanence, Gen_06 a network weight. */
  datatype Gene =
    | Capacity(n: int)
    | Fission(n: int)
    | Catchment(n: int)
    | Leap(n: int)
    | Permanence(n: int)
    | Weight(w: real)

  /** The random draws one gene mutation may use: the uniform step draw, the
      -1/+1 coin, Gen_04's reset draw and Gen_06's normal draw. */
  datatype GeneDraw = GeneDraw(u: real, sign: int, reset: real, z: real)

  predicate SignOk(d: GeneDraw)
  {
    d.sign == -1 || d.sign == 1
  }

  predicate SameKind(g: Gene, h: Gene)
  {
    && (g.Capacity? <==> h.Capacity?)
    && (g.Fission? <==> h.Fission?)
    && (g.Catchment? <==> h.Catchment?)
    && (g.Leap? <==> h.Leap?)
    && (g.Permanence? <==> h.Permanence?)
    && (g.Weight? <==> h.Weight?)
  }

  /** The range each class keeps. */
  predicate GeneOk(g: Gene)
  {
    match g
    case Capacity(n) => 20 <= n <= 100
    case Fission(n) => 50 <= n <= 250
    case Catchment(n) => 1 <= n <= 3
    case Leap(n) => n == 0 || 15 <= n <= 25
    case Permanence(n) => 10 <= n <= 30
    case Weight(w) => -20.0 <= w <= 20.0
  }

  /** Gen_06.mutation's rejection: a step that leaves [-20, 20] keeps the old
      weight. */
  function WeightStep(w: real, z: real): (r: real)
    ensures r == w || r == w + z
    ensures r == w + z <==> (-20.0 <= w + z <= 20.0 || z == 0.0)
    ensures -20.0 <= w <= 20.0 ==> -20.0 <= r <= 20.0
  {
    if w + z < -20.0 || w + z > 20.0 then w else w + z
  }

  /** The mutation of one gene, by class. A bounded integer gene keeps its
      range and its forced direction at the edges; catchment alternates
      between 2 and 1 or 3; leapfrogging is switched off by the reset draw
      and otherwise comes back at exactly 15. */
  function MutateGene(g: Gene, d: GeneDraw): (r: Option<Gene>)
    ensures r.Some? ==> SameKind(g, r.value)
    ensures GeneOk(g) && SignOk(d) ==> r.Some? && GeneOk(r.value)
    ensures g.Catchment? && SignOk(d) ==>
      r.Some? && (if g.n == 2 then r.value.n == 1 || r.value.n == 3 else r.value.n == 2)
    ensures g.Leap? && 0.25 > d.reset ==> r == Some(Leap(0))
    ensures g.Leap? && 0.25 <= d.reset && g.n == 0 ==> r == Some(Leap(15))
  {
    match g
    case Capacity(n) =>
      var s := ClampedStep(n, 20, 100, d.u, d.sign);
      if s.None? then None else Some(Capacity(s.value))
    case Fission(n) =>
      var s := ClampedStep(n, 50, 250, d.u, d.sign);
      if s.None? then None else Some(Fission(s.value))
    case Catchment(n) =>
      Some(Catchment(if n == 2 then n + d.sign else 2))
    case Leap(n) =>
      if 0.25 > d.reset then Some(Leap(0))
      else if n == 0 then Some(Leap(15))
      else
        var s := ClampedStep(n, 15, 25, d.u, d.sign);
        if s.None? then None else Some(Leap(s.value))
    case Permanence(n) =>
      var s := ClampedStep(n, 10, 30, d.u, d.sign);
      if s.None? then None else Some(Permanence(s.value))
    case Weight(w) =>
      Some(Weight(WeightStep(w, d.z)))
  }

  // ---------------------------------------------------------------------
  // Genomes.

  /** Genome.initialize's layout: the five parameter genes in order, then 44
      weights. */
  predicate Layout(genes: seq<Gene>)
  {
    && |genes| == 49
    && genes[0].Capacity? && genes[1].Fission? && genes[2].Catchment?
    && genes[3].Leap? && genes[4].Permanence?
    && forall i :: 5 <= i < 49 ==> genes[i].Weight?
  }

  /** The layout with every gene in its range. */
  predicate Valid(genes: seq<Gene>)
  {
    Layout(genes) && forall i :: 0 <= i < |genes| ==> GeneOk(genes[i])
  }

  /** The draws of Genome.initialize, one per gene: uniform draws for the
      integer genes (Gen_03 draws its value directly, Gen_04 first tosses
      the 0.5 coin) and 44 uniform weights. */
  datatype InitDraws = InitDraws(
    capacity: real, fission: real, catchment: int, leapCoin: real, leap: real,
    permanence: real, weights: seq<real>)

  /** The draws lie in the intervals the source samples from. */
  predicate InitDrawsOk(d: InitDraws)
  {
    && 20.0 <= d.capacity < 100.0
    && 50.0 <= d.fission < 250.0
    && 1 <= d.catchment <= 3
    && 15.0 <= d.leap < 25.0
    && 10.0 <= d.permanence < 30.0
    && |d.weights| == 44
    && forall i :: 0 <= i < 44 ==> -5.0 <= d.weights[i] < 5.0
  }

  /** Genome.initialize with Gen_01..Gen_06.initialize: every gene from its
      draw, integer genes truncated. The initial values sit inside the
      ranges mutation keeps, one below the upper bound. */
  function Initialize(d: InitDraws): (genes: seq<Gene>)
    requires |d.weights| == 44
    ensures Layout(genes)
    ensures InitDrawsOk(d) ==> Valid(genes)
    ensures InitDrawsOk(d) ==>
      && genes[0].n <= 99 && genes[1].n <= 249 && genes[4].n <= 29
      && (genes[3].n == 0 || genes[3].n <= 24)
      && forall i :: 5 <= i < 49 ==> -5.0 <= genes[i].w < 5.0
  {
    var ws := seq(44, i requires 0 <= i < 44 => Weight(d.weights[i]));
    [Capacity(Trunc(d.capacity)), Fission(Trunc(d.fission)), Catchment(d.catchment),
     Leap(if 0.5 > d.leapCoin then 0 else Trunc(d.leap)), Permanence(Trunc(d.permanence))] + ws
  }

  /** Genome.mutation with the gene rules of this file. */
  function Mutation(x: Genome<Gene>, prob: real, u: real, point: nat, d: GeneDraw): Option<Genome<Gene>>
    requires x.genes != [] ==> point < |x.genes|
  {
    MutateGenome(x, prob, u, point, (g: Gene) => MutateGene(g, d))
  }

  /** A mutation of a valid genome with a proper coin never fails and keeps
      it valid. */
  lemma MutationKeepsValid(x: Genome<Gene>, prob: real, u: real, point: nat, d: GeneDraw)
    requires x.genes != [] ==> point < |x.genes|
    requires Valid(x.genes) && SignOk(d)
    ensures Mutation(x, prob, u, point, d).Some?
    ensures Valid(Mutation(x, prob, u, point, d).value.genes)
  {
    var r := Mutation(x, prob, u, point, d);
    forall i | 0 <= i < |x.genes| ensures GeneOk(r.value.genes[i]) && SameKind(x.genes[i], r.value.genes[i]) {
      if i == point && prob > u {
        assert MutateGene(x.genes[i], d) == Some(r.value.genes[i]);
      }
    }
  }

  /** One genome's draws in do_mutation. */
  datatype GenomeDraw = GenomeDraw(u: real, point: nat, gene: GeneDraw)

  /** do_mutation over a population with the gene rules of this file. */
  function MutatePopulation(xs: seq<Genome<Gene>>, prob: real, draws: seq<GenomeDraw>)
    : (r: Option<seq<Genome<Gene>>>)
    requires |draws| >= |xs|
    requires forall i :: 0 <= i < |xs| ==> xs[i].genes != [] ==> draws[i].point < |xs[i].genes|
    ensures r.Some? <==> forall i :: 0 <= i < |xs| ==>
      Mutation(xs[i], prob, draws[i].u, draws[i].point, draws[i].gene).Some?
    ensures r.Some? ==> |r.value| == |xs| && forall i :: 0 <= i < |xs| ==>
      r.value[i] == Mutation(xs[i], prob, draws[i].u, draws[i].point, draws[i].gene).value
  {
    var md := seq(|draws|, i requires 0 <= i < |draws| =>
      MutationDraw(draws[i].u, draws[i].point, (g: Gene) => MutateGene(g, draws[i].gene)));
    DoMutation(xs, prob, md)
  }

  /** do_mutation of a valid population with proper coins never fails and
      keeps every genome valid. */
  lemma MutatePopulationKeepsValid(xs: seq<Genome<Gene>>, prob: real, draws: seq<GenomeDraw>)
    requires |draws| >= |xs|
    requires forall i :: 0 <= i < |xs| ==> xs[i].genes != [] ==> draws[i].point < |xs[i].genes|
    requires forall i :: 0 <= i < |xs| ==> Valid(xs[i].genes) && SignOk(draws[i].gene)
    ensures var r := MutatePopulation(xs, prob, draws);
      r.Some? && |r.value| == |xs| && forall i :: 0 <= i < |xs| ==> Valid(r.value[i].genes)
  {
    forall i | 0 <= i < |xs|
      ensures Mutation(xs[i], prob, draws[i].u, draws[i].point, draws[i].gene).Some?
      ensures Valid(Mutation(xs[i], prob, draws[i].u, draws[i].point, draws[i].gene).value.genes)
    {
      MutationKeepsValid(xs[i], prob, draws[i].u, draws[i].point, draws[i].gene);
    }
  }

  /** A child spliced from two valid gene lists at any cut is valid: its
      gene i is gene i of one of them. */
  lemma SpliceKeepsValid(a: seq<Gene>, b: seq<Gene>, pt: nat)
    requires Valid(a) && Valid(b)
    ensures Valid(Take(a, pt) + Drop(b, pt))
  {
    var c := Take(a, pt) + Drop(b, pt);
    assert |c| == 49;
    forall i | 0 <= i < 49 ensures c[i] == a[i] || c[i] == b[i] {
      if i < pt {
        assert c[i] == a[i];
      } else {
        assert c[i] == b[i];
      }
    }
  }

  /** A crossover round of two valid parents yields valid children. */
  lemma PairKeepsValid(p1: Genome<Gene>, p2: Genome<Gene>, crossing: bool, pt: nat)
    requires Valid(p1.genes) && Valid(p2.genes)
    ensures forall c :: c in Pair(p1, p2, crossing, pt) ==> Valid(c.genes)
  {
    if crossing {
      SpliceKeepsValid(p1.genes, p2.genes, pt);
      SpliceKeepsValid(p2.genes, p1.genes, pt);
    }
  }

  /** do_crossover of valid parents yields only valid children. */
  lemma CrossoverKeepsValid(parents: seq<Genome<Gene>>, probCross: real, draws: seq<CrossDraw>, n: nat)
    requires |parents| >= 2 && n <= |draws|
    requires forall k :: 0 <= k < |parents| ==> Valid(parents[k].genes)
    ensures var r := Crossed(parents, probCross, draws, n);
      r.Success? ==> forall k :: 0 <= k < |r.value| ==> Valid(r.value[k].genes)
  {
    var r := Crossed(parents, probCross, draws, n);
    if r.Success? {
      forall k | 0 <= k < |r.value| ensures Valid(r.value[k].genes) {
        var i := k / 2;
        CrossedMember(parents, probCross, draws, n, k);
        PairKeepsValid(parents[i % |parents|], parents[(i + 1) % |parents|], probCross > draws[i].u, draws[i].pt);
      }
    }
  }
}
