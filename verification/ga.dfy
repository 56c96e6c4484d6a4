/** The genes of GA.py: five integer model parameters whose mutations reject
    any step that would leave the gene's range, with the ranges every
    initialisation and mutation keeps. */
module GenesV1 {
  import opened Wrappers
  import opened Evolution

  /** The rejection shared by every gene of this file: the step `d` is taken
      when it lands in [lo, hi], otherwise the value stays. */
  function RejectStep(v: int, lo: int, hi: int, d: int): (r: int)
    ensures r == v || r == v + d
    ensures r == v + d <==> (lo <= v + d <= hi || d == 0)
    ensures lo <= v <= hi ==> lo <= r <= hi
  {
    if v + d < lo || v + d > hi then v else v + d
  }

  /** One gene, by class: Gen_01 carrying capacity, Gen_02 fission
      threshold, Gen_03 catchment, Gen_04 leapfrog distance, Gen_05
      permanence. */
  datatype Gene =
    | Capacity(n: int)
    | Fission(n: int)
    | Catchment(n: int)
    | Leap(n: int)
    | Permanence(n: int)

  /** The random draws one gene mutation may use: the uniform step draw, the
      -1/+1 coin and Gen_04's reset draw. */
  datatype GeneDraw = GeneDraw(u: real, sign: int, reset: real)

  predicate SameKind(g: Gene, h: Gene)
  {
    && (g.Capacity? <==> h.Capacity?)
    && (g.Fission? <==> h.Fission?)
    && (g.Catchment? <==> h.Catchment?)
    && (g.Leap? <==> h.Leap?)
    && (g.Permanence? <==> h.Permanence?)
  }

  /** The range each class keeps. */
  predicate GeneOk(g: Gene)
  {
    match g
    case Capacity(n) => 10 <= n <= 250
    case Fission(n) => 50 <= n <= 500
    case Catchment(n) => 1 <= n <= 3
    case Leap(n) => n == 0 || 10 <= n <= 50
    case Permanence(n) => 10 <= n <= 30
  }

  /** The mutation of one gene, by class. Every class keeps its range
      whatever the draws; catchment moves by the coin or stays; leapfrogging
      is switched off by the reset draw and otherwise comes back at exactly
      15. */
  function MutateGene(g: Gene, d: GeneDraw): (r: Gene)
    ensures SameKind(g, r)
    ensures GeneOk(g) ==> GeneOk(r)
    ensures g.Catchment? ==> r.n == g.n || r.n == g.n + d.sign
    ensures g.Leap? && 0.25 > d.reset ==> r == Leap(0)
    ensures g.Leap? && 0.25 <= d.reset && g.n == 0 ==> r == Leap(15)
  {
    match g
    case Capacity(n) => Capacity(RejectStep(n, 10, 250, Trunc(d.u)))
    case Fission(n) => Fission(RejectStep(n, 50, 500, Trunc(d.u)))
    case Catchment(n) => Catchment(RejectStep(n, 1, 3, d.sign))
    case Leap(n) =>
      if 0.25 > d.reset then Leap(0)
      else if n == 0 then Leap(15)
      else Leap(RejectStep(n, 10, 50, Trunc(d.u)))
    case Permanence(n) => Permanence(RejectStep(n, 10, 30, Trunc(d.u)))
  }

  // ---------------------------------------------------------------------
  // Genomes.

  /** Genome.initialize's layout: the five genes in order. */
  predicate Layout(genes: seq<Gene>)
  {
    && |genes| == 5
    && genes[0].Capacity? && genes[1].Fission? && genes[2].Catchment?
    && genes[3].Leap? && genes[4].Permanence?
  }

  /** The layout with every gene in its range. */
  predicate Valid(genes: seq<Gene>)
  {
    Layout(genes) && forall i :: 0 <= i < |genes| ==> GeneOk(genes[i])
  }

  /** The draws of Genome.initialize, one per gene (Gen_03 draws its value
      directly, Gen_04 first tosses the 0.5 coin). */
  datatype InitDraws = InitDraws(
    capacity: real, fission: real, catchment: int, leapCoin: real, leap: real, permanence: real)

  /** The draws lie in the intervals the source samples from. */
  predicate InitDrawsOk(d: InitDraws)
  {
    && 10.0 <= d.capacity < 250.0
    && 50.0 <= d.fission < 300.0
    && 1 <= d.catchment <= 3
    && 10.0 <= d.leap < 50.0
    && 10.0 <= d.permanence < 30.0
  }

  /** Genome.initialize with Gen_01..Gen_05.initialize: every gene from its
      draw, truncated. The initial values sit inside the ranges mutation
      keeps, below the upper bound (the fission threshold well below it). */
  function Initialize(d: InitDraws): (genes: seq<Gene>)
    ensures Layout(genes)
    ensures InitDrawsOk(d) ==> Valid(genes)
    ensures InitDrawsOk(d) ==>
      && genes[0].n <= 249 && genes[1].n <= 299 && genes[4].n <= 29
      && (genes[3].n == 0 || genes[3].n <= 49)
  {
    [Capacity(Trunc(d.capacity)), Fission(Trunc(d.fission)), Catchment(d.catchment),
     Leap(if 0.5 > d.leapCoin then 0 else Trunc(d.leap)), Permanence(Trunc(d.permanence))]
  }

  /** Genome.mutation with the gene rules of this file. */
  function Mutation(x: Genome<Gene>, prob: real, u: real, point: nat, d: GeneDraw): Option<Genome<Gene>>
    requires x.genes != [] ==> point < |x.genes|
  {
    MutateGenome(x, prob, u, point, (g: Gene) => Some(MutateGene(g, d)))
  }

  /** A mutation of a valid genome never fails and keeps it valid. */
  lemma MutationKeepsValid(x: Genome<Gene>, prob: real, u: real, point: nat, d: GeneDraw)
    requires x.genes != [] ==> point < |x.genes|
    requires Valid(x.genes)
    ensures Mutation(x, prob, u, point, d).Some?
    ensures Valid(Mutation(x, prob, u, point, d).value.genes)
  {
    var r := Mutation(x, prob, u, point, d);
    forall i | 0 <= i < |x.genes| ensures GeneOk(r.value.genes[i]) && SameKind(x.genes[i], r.value.genes[i]) {
      if i == point && prob > u {
        assert Some(MutateGene(x.genes[i], d)) == Some(r.value.genes[i]);
      }
    }
  }

  /** One genome's draws in do_mutation. */
  datatype GenomeDraw = GenomeDraw(u: real, point: nat, gene: GeneDraw)

  /** do_mutation over a population with the gene rules of this file. */
  function MutatePopulation(xs: seq<Genome<Gene>>, prob: real, draws: seq<GenomeDraw>)
    : (r: Option<seq<Genome<Gene>>>)
    requires |draws| >= |xs|
    requires forall i :: 0 <= i < |xs| ==> xs[i].genes != [] ==> draws[i].point < |xs[i].genes|
    ensures r.Some? <==> forall i :: 0 <= i < |xs| ==>
      Mutation(xs[i], prob, draws[i].u, draws[i].point, draws[i].gene).Some?
    ensures r.Some? ==> |r.value| == |xs| && forall i :: 0 <= i < |xs| ==>
      r.value[i] == Mutation(xs[i], prob, draws[i].u, draws[i].point, draws[i].gene).value
  {
    var md := seq(|draws|, i requires 0 <= i < |draws| =>
      MutationDraw(draws[i].u, draws[i].point, (g: Gene) => Some(MutateGene(g, draws[i].gene))));
    DoMutation(xs, prob, md)
  }

  /** do_mutation of a valid population never fails and keeps every genome
      valid. */
  lemma MutatePopulationKeepsValid(xs: seq<Genome<Gene>>, prob: real, draws: seq<GenomeDraw>)
    requires |draws| >= |xs|
    requires forall i :: 0 <= i < |xs| ==> xs[i].genes != [] ==> draws[i].point < |xs[i].genes|
    requires forall i :: 0 <= i < |xs| ==> Valid(xs[i].genes)
    ensures var r := MutatePopulation(xs, prob, draws);
      r.Some? && |r.value| == |xs| && forall i :: 0 <= i < |xs| ==> Valid(r.value[i].genes)
  {
    forall i | 0 <= i < |xs|
      ensures Mutation(xs[i], prob, draws[i].u, draws[i].point, draws[i].gene).Some?
      ensures Valid(Mutation(xs[i], prob, draws[i].u, draws[i].point, draws[i].gene).value.genes)
    {
      MutationKeepsValid(xs[i], prob, draws[i].u, draws[i].point, draws[i].gene);
    }
  }

  /** A child spliced from two valid gene lists at any cut is valid: its
      gene i is gene i of one of them. */
  lemma SpliceKeepsValid(a: seq<Gene>, b: seq<Gene>, pt: nat)
    requires Valid(a) && Valid(b)
    ensures Valid(Take(a, pt) + Drop(b, pt))
  {
    var c := Take(a, pt) + Drop(b, pt);
    assert |c| == 5;
    forall i | 0 <= i < 5 ensures c[i] == a[i] || c[i] == b[i] {
      if i < pt {
        assert c[i] == a[i];
      } else {
        assert c[i] == b[i];
      }
    }
  }

  /** A crossover round of two valid parents yields valid children. */
  lemma PairKeepsValid(p1: Genome<Gene>, p2: Genome<Gene>, crossing: bool, pt: nat)
    requires Valid(p1.genes) && Valid(p2.genes)
    ensures forall c :: c in Pair(p1, p2, crossing, pt) ==> Valid(c.genes)
  {
    if crossing {
      SpliceKeepsValid(p1.genes, p2.genes, pt);
      SpliceKeepsValid(p2.genes, p1.genes, pt);
    }
  }

  /** do_crossover of valid parents yields only valid children. */
  lemma CrossoverKeepsValid(parents: seq<Genome<Gene>>, probCross: real, draws: seq<CrossDraw>, n: nat)
    requires |parents| >= 2 && n <= |draws|
    requires forall k :: 0 <= k < |parents| ==> Valid(parents[k].genes)
    ensures var r := Crossed(parents, probCross, draws, n);
      r.Success? ==> forall k :: 0 <= k < |r.value| ==> Valid(r.value[k].genes)
  {
    var r := Crossed(parents, probCross, draws, n);
    if r.Success? {
      forall k | 0 <= k < |r.value| ensures Valid(r.value[k].genes) {
        var i := k / 2;
        CrossedMember(parents, probCross, draws, n, k);
        PairKeepsValid(parents[i % |parents|], parents[(i + 1) % |parents|], probCross > draws[i].u, draws[i].pt);
      }
    }
  }
}
