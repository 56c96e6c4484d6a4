/** The fitness score of both model drivers (model.py:74-95 and
    model_un.py:138-158): simulated arrival dates are compared with per-site
    probability tables of dated archaeological sites. */
module Scoring {
  import opened Geometry
  import opened Wrappers

  /** One dated site: its cell and a table from date (years BP) to probability. */
  datatype Site = Site(coords: Coord, probs: map<int, real>)

  /** Simulated arrival dates by cell; 0 means the cell was never reached. */
  type Arrivals = map<Coord, int>

  /** No two sites share a cell: the date tables are a dict keyed by cell
      (utils.py:15-33), so the number of sites is the number of distinct
      cells. */
  predicate Distinct(sites: seq<Site>)
  {
    forall i, j :: 0 <= i < j < |sites| ==> sites[i].coords != sites[j].coords
  }

  /** Every probability of every table is non-negative. */
  predicate NonNegative(sites: seq<Site>)
  {
    forall i, d :: 0 <= i < |sites| && d in sites[i].probs ==> sites[i].probs[d] >= 0.0
  }

  // ---------------------------------------------------------------------
  // The largest probability of a table.

  /** Adding y to a set whose largest element is m gives the larger of the
      two as the largest element. */
  lemma LargestInsert(s: set<real>, y: real, m: real)
    requires y in s && m in s - {y}
    requires forall x :: x in s - {y} ==> x <= m
    ensures var top := if y <= m then m else y;
      top in s && forall x :: x in s ==> x <= top
  {
    var top := if y <= m then m else y;
    forall x | x in s ensures x <= top {
      if x != y {
        assert x in s - {y};
      }
    }
  }

  lemma {:induction false} LargestExists(s: set<real>)
    requires s != {}
    ensures exists m :: m in s && forall x :: x in s ==> x <= m
    decreases |s|
  {
    assert exists y :: y in s by {
      if forall y :: y !in s {
        assert false;
      }
    }
    var y :| y in s;
    var rest := s - {y};
    if rest == {} {
      forall x | x in s ensures x <= y {
        assert x !in rest;
      }
    } else {
      LargestExists(rest);
      var m :| m in rest && forall x :: x in rest ==> x <= m;
      LargestInsert(s, y, m);
    }
  }

  /** `max(table.values())`. */
  function Largest(s: set<real>): (m: real)
    requires s != {}
    ensures m in s && forall x :: x in s ==> x <= m
  {
    LargestExists(s);
    var m :| m in s && forall x :: x in s ==> x <= m;
    m
  }

  // ---------------------------------------------------------------------
  // Per-site contribution and the two averages.

  /** What one site adds to the score: nothing when the cell was never dated
      or its date is not in the table, otherwise the date's probability
      normalised by the table's largest one. A site off the grid is a missing
      key and a table whose largest value is 0 divides by zero. */
  function Contribution(arrival: Arrivals, s: Site): (r: Result<real>)
    ensures r.Failure? <==>
      s.coords !in arrival
      || (arrival[s.coords] != 0 && arrival[s.coords] in s.probs
          && Largest(s.probs.Values) == 0.0)
    ensures r.Success? && (arrival[s.coords] == 0 || arrival[s.coords] !in s.probs) ==>
      r.value == 0.0
    ensures r.Success? && arrival[s.coords] != 0 && arrival[s.coords] in s.probs ==>
      r.value * Largest(s.probs.Values) == s.probs[arrival[s.coords]]
  {
    if s.coords !in arrival then
      Failure("KeyError: site off the grid")
    else
      var date := arrival[s.coords];
      if date == 0 || date !in s.probs then
        Success(0.0)
      else
        assert s.probs[date] in s.probs.Values;
        var top := Largest(s.probs.Values);
        if top == 0.0 then Failure("ZeroDivisionError: table maximum is 0") else Success(s.probs[date] / top)
  }

  /** A contribution of a non-negative table lies in [0, 1]. */
  lemma ContributionBounds(arrival: Arrivals, s: Site)
    requires forall d :: d in s.probs ==> s.probs[d] >= 0.0
    ensures var r := Contribution(arrival, s);
      r.Success? ==> 0.0 <= r.value <= 1.0
  {
    var r := Contribution(arrival, s);
    if r.Success? && arrival[s.coords] != 0 && arrival[s.coords] in s.probs {
      var p := s.probs[arrival[s.coords]];
      assert p in s.probs.Values;
      var top := Largest(s.probs.Values);
      assert 0.0 <= p <= top && top != 0.0;
      assert r.value * top == p;
    }
  }

  /** The sum of the contributions of a list of sites, failing on the first
      failing site. */
  function Total(arrival: Arrivals, sites: seq<Site>): (r: Result<real>)
    ensures r.Failure? <==> exists i :: 0 <= i < |sites| && Contribution(arrival, sites[i]).Failure?
    decreases |sites|
  {
    if sites == [] then Success(0.0)
    else
      var head := Contribution(arrival, sites[0]);
      var tail := Total(arrival, sites[1..]);
      assert forall i :: 1 <= i < |sites| ==> sites[i] == sites[1..][i - 1];
      if head.Failure? then Failure(head.error)
      else if tail.Failure? then Failure(tail.error)
      else Success(head.value + tail.value)
  }

  /** With non-negative tables the total lies between 0 and the number of sites. */
  lemma {:induction false} TotalBounds(arrival: Arrivals, sites: seq<Site>)
    requires NonNegative(sites)
    ensures var r := Total(arrival, sites);
      r.Success? ==> 0.0 <= r.value <= |sites| as real
    decreases |sites|
  {
    if sites != [] {
      ContributionBounds(arrival, sites[0]);
      assert NonNegative(sites[1..]) by {
        forall i, d | 0 <= i < |sites[1..]| && d in sites[1..][i].probs
          ensures sites[1..][i].probs[d] >= 0.0
        {
          assert sites[1..][i] == sites[i + 1];
        }
      }
      TotalBounds(arrival, sites[1..]);
    }
  }

  /** eval of model_un.py: the total over all sites divided by their number
      (dividing by an empty table is an error). */
  function EvalSingle(arrival: Arrivals, sites: seq<Site>): (r: Result<real>)
    requires Distinct(sites)
    ensures r.Failure? <==> sites == [] || Total(arrival, sites).Failure?
    ensures r.Success? ==> r.value * |sites| as real == Total(arrival, sites).value
  {
    if sites == [] then Failure("ZeroDivisionError: no dated sites")
    else
      var t := Total(arrival, sites);
      if t.Failure? then t else Success(t.value / |sites| as real)
  }

  /** With non-negative tables, the single-culture score lies in [0, 1]. */
  lemma EvalSingleBounds(arrival: Arrivals, sites: seq<Site>)
    requires Distinct(sites) && NonNegative(sites)
    ensures var r := EvalSingle(arrival, sites);
      r.Success? ==> 0.0 <= r.value <= 1.0
  {
    TotalBounds(arrival, sites);
  }

  /** One culture of model.py's eval: its own arrival layer and date table. */
  datatype Culture = Culture(arrival: Arrivals, sites: seq<Site>)

  /** The sum over cultures of each culture's average score. */
  function SumOfAverages(cultures: seq<Culture>): (r: Result<real>)
    requires forall i :: 0 <= i < |cultures| ==> Distinct(cultures[i].sites)
    ensures r.Failure? <==>
      exists i :: 0 <= i < |cultures| && EvalSingle(cultures[i].arrival, cultures[i].sites).Failure?
    decreases |cultures|
  {
    if cultures == [] then Success(0.0)
    else
      var head := EvalSingle(cultures[0].arrival, cultures[0].sites);
      var tail := SumOfAverages(cultures[1..]);
      assert forall i :: 1 <= i < |cultures| ==> cultures[i] == cultures[1..][i - 1];
      if head.Failure? then head
      else if tail.Failure? then tail
      else Success(head.value + tail.value)
  }

  /** eval of model.py: the per-culture averages summed and divided by the
      fixed constant 4, whatever the number of cultures. */
  function EvalAll(cultures: seq<Culture>): (r: Result<real>)
    requires forall i :: 0 <= i < |cultures| ==> Distinct(cultures[i].sites)
    ensures r.Failure? <==> SumOfAverages(cultures).Failure?
    ensures r.Success? ==> r.value * 4.0 == SumOfAverages(cultures).value
  {
    var s := SumOfAverages(cultures);
    if s.Failure? then s else Success(s.value / 4.0)
  }

  lemma {:induction false} SumOfAveragesBounds(cultures: seq<Culture>)
    requires forall i :: 0 <= i < |cultures| ==> Distinct(cultures[i].sites) && NonNegative(cultures[i].sites)
    ensures var r := SumOfAverages(cultures);
      r.Success? ==> 0.0 <= r.value <= |cultures| as real
    decreases |cultures|
  {
    if cultures != [] {
      EvalSingleBounds(cultures[0].arrival, cultures[0].sites);
      assert forall i :: 0 <= i < |cultures[1..]| ==> cultures[1..][i] == cultures[i + 1];
      SumOfAveragesBounds(cultures[1..]);
    }
  }

  /** With non-negative tables, model.py's score lies in [0, |cultures| / 4];
      with the four cultures of the parameter file it lies in [0, 1]. */
  lemma EvalAllBounds(cultures: seq<Culture>)
    requires forall i :: 0 <= i < |cultures| ==> Distinct(cultures[i].sites) && NonNegative(cultures[i].sites)
    ensures var r := EvalAll(cultures);
      r.Success? ==> 0.0 <= r.value && r.value * 4.0 <= |cultures| as real
  {
    SumOfAveragesBounds(cultures);
  }

  /** A culture none of whose sites was reached scores 0. */
  lemma {:induction false} UnreachedScoresZero(arrival: Arrivals, sites: seq<Site>)
    requires forall i :: 0 <= i < |sites| ==> sites[i].coords in arrival && arrival[sites[i].coords] == 0
    ensures Total(arrival, sites) == Success(0.0)
    decreases |sites|
  {
    if sites != [] {
      assert forall i :: 0 <= i < |sites[1..]| ==> sites[1..][i] == sites[i + 1];
      UnreachedScoresZero(arrival, sites[1..]);
    }
  }

  /** The single-culture score of a non-empty table none of whose sites was
      reached is 0. */
  lemma UnreachedEvalZero(arrival: Arrivals, sites: seq<Site>)
    requires Distinct(sites) && sites != []
    requires forall i :: 0 <= i < |sites| ==> sites[i].coords in arrival && arrival[sites[i].coords] == 0
    ensures EvalSingle(arrival, sites) == Success(0.0)
  {
    UnreachedScoresZero(arrival, sites);
  }
}
