/**
 * The evolutionary optimizer of genetic.py: genes and agents, tournament
 * selection, single-point crossover, per-gene mutation, and the
 * `GeneticAlgorithm` class that drives them over generations.
 *
 * Every random draw is an argument. A draw of `random()` is a real in
 * [0, 1) (`UnitDraw`); the fitness callback is a function of an agent's gene
 * values.
 */
module Genetic {
  import opened Wrappers
  import Utils

  /** The default `cross_rate` of `crossover`. */
  const CrossRate: real := 0.9
  /** The default `reset_rate` of `mutate`. */
  const ResetRate: real := 0.1
  /** The default `k` of `tournament_selection`. */
  const TournamentSize: int := 3

  /** A value `random()` can return. */
  predicate UnitDraw(u: real)
  {
    0.0 <= u < 1.0
  }

  // ---------------------------------------------------------------------------
  // Sequence helpers: Python's clipping slices.

  /** `s[:k]` */
  function Take<T>(s: seq<T>, k: nat): (r: seq<T>)
    ensures |r| == if k < |s| then k else |s|
    ensures forall i :: 0 <= i < |r| ==> r[i] == s[i]
  {
    if k < |s| then s[..k] else s
  }

  /** `s[k:]` */
  function Drop<T>(s: seq<T>, k: nat): (r: seq<T>)
    ensures |r| == if k < |s| then |s| - k else 0
    ensures forall i :: 0 <= i < |r| ==> r[i] == s[k + i]
  {
    if k < |s| then s[k..] else []
  }

  // ---------------------------------------------------------------------------
  // Genes and agents.

  /**
   * The value `Gene(v)` stores: `value or random()`. A missing value and an
   * explicit 0.0 are both falsy, so both are replaced by `draw`.
   */
  function InitialValue(v: Option<real>, draw: real): real
  {
    if v.Some? && v.value != 0.0 then v.value else draw
  }

  /** The values of the genes of `Agent.copy()`; gene `i` uses `redraw(i)` if it is 0.0. */
  function CopyValues(vs: seq<real>, redraw: nat -> real): (r: seq<real>)
    ensures |r| == |vs|
    ensures forall i :: 0 <= i < |vs| ==> r[i] == InitialValue(Some(vs[i]), redraw(i))
  {
    seq(|vs|, i requires 0 <= i < |vs| => InitialValue(Some(vs[i]), redraw(i)))
  }

  /** A copy is exact exactly at the genes whose value is not 0.0 (or whose redraw happens to equal it). */
  lemma CopyValuesAt(vs: seq<real>, redraw: nat -> real, i: nat)
    requires i < |vs|
    ensures vs[i] != 0.0 ==> CopyValues(vs, redraw)[i] == vs[i]
    ensures vs[i] == 0.0 ==> CopyValues(vs, redraw)[i] == redraw(i)
  {
  }

  /** An agent without a 0.0 gene is copied exactly. */
  lemma CopyExactWithoutZeros(vs: seq<real>, redraw: nat -> real)
    requires forall i :: 0 <= i < |vs| ==> vs[i] != 0.0
    ensures CopyValues(vs, redraw) == vs
  {
  }

  /** Copying keeps every gene in [0, 1) when the redraws are `random()` values. */
  lemma CopyKeepsUnit(vs: seq<real>, redraw: nat -> real)
    requires forall i :: 0 <= i < |vs| ==> UnitDraw(vs[i])
    requires forall i :: UnitDraw(redraw(i))
    ensures forall i :: 0 <= i < |vs| ==> UnitDraw(CopyValues(vs, redraw)[i])
  {
  }

  /** A gene: one number, meant to lie in [0, 1). */
  class Gene {
    var value: real

    /** `Gene(value)`; `draw` is the `random()` used when `value` is missing or 0.0. */
    constructor (v: Option<real>, draw: real)
      ensures value == InitialValue(v, draw)
    {
      value := InitialValue(v, draw);
    }

    /** `Gene.copy()`: a new gene built from this one's value. */
    method Copy(draw: real) returns (g: Gene)
      ensures fresh(g)
      ensures g.value == InitialValue(Some(value), draw)
    {
      g := new Gene(Some(value), draw);
    }
  }

  /** No gene object occurs twice. */
  ghost predicate Distinct(gs: seq<Gene>)
  {
    forall i, j :: 0 <= i < j < |gs| ==> gs[i] != gs[j]
  }

  /** No gene object occurs in both. */
  ghost predicate Disjoint(a: seq<Gene>, b: seq<Gene>)
  {
    forall g :: g in a ==> g !in b
  }

  /** The values of a list of genes. */
  function ValuesOf(gs: seq<Gene>): (r: seq<real>)
    reads gs
    ensures |r| == |gs|
    ensures forall i :: 0 <= i < |gs| ==> r[i] == gs[i].value
  {
    if gs == [] then [] else [gs[0].value] + ValuesOf(gs[1..])
  }

  /** An agent: an ordered list of genes. */
  class Agent {
    var genes: seq<Gene>

    /** The agent owns its genes: none occurs twice. */
    ghost predicate Valid()
      reads this
    {
      Distinct(genes)
    }

    /** The gene values, in order. */
    function Values(): seq<real>
      reads this, genes
    {
      ValuesOf(genes)
    }

    /** `Agent(genes)`; a missing list is the empty list. */
    constructor (gs: seq<Gene>)
      ensures genes == gs
    {
      genes := gs;
    }

    /**
     * `Agent.copy()`: a new agent with new genes of the same values, except
     * that a 0.0 gene is re-randomised with `redraw` of its position.
     */
    method Copy(redraw: nat -> real) returns (c: Agent)
      ensures fresh(c) && c.Valid()
      ensures forall g :: g in c.genes ==> fresh(g)
      ensures c.Values() == CopyValues(Values(), redraw)
    {
      var gs: seq<Gene> := [];
      for i := 0 to |genes|
        invariant |gs| == i
        invariant Distinct(gs)
        invariant forall k :: 0 <= k < i ==> fresh(gs[k])
        invariant forall k :: 0 <= k < i ==> gs[k].value == InitialValue(Some(genes[k].value), redraw(k))
      {
        var g := genes[i].Copy(redraw(i));
        gs := gs + [g];
      }
      c := new Agent(gs);
    }
  }

  // ---------------------------------------------------------------------------
  // Tournament selection.

  /** A `random.sample` of `k` distinct positions out of `0 .. n-1`. */
  predicate ValidSample(sample: seq<nat>, k: nat, n: nat)
  {
    && |sample| == k
    && (forall j :: 0 <= j < k ==> sample[j] < n)
    && (forall i, j :: 0 <= i < j < k ==> sample[i] != sample[j])
  }

  /**
   * The position of the last entry of `sorted(xs)` under a stable ascending
   * sort: a maximum, strictly greater than every entry after it.
   */
  function LastMaxIndex(xs: seq<real>): (j: nat)
    requires |xs| > 0
    ensures j < |xs|
    ensures forall i :: 0 <= i < |xs| ==> xs[i] <= xs[j]
    ensures forall i :: j < i < |xs| ==> xs[i] < xs[j]
  {
    if |xs| == 1 then 0
    else
      var j := LastMaxIndex(xs[..|xs| - 1]);
      if xs[|xs| - 1] >= xs[j] then |xs| - 1 else j
  }

  /** The two properties of `LastMaxIndex` pin down one position. */
  lemma LastMaxIndexUnique(xs: seq<real>, j: nat)
    requires j < |xs|
    requires forall i :: 0 <= i < |xs| ==> xs[i] <= xs[j]
    requires forall i :: j < i < |xs| ==> xs[i] < xs[j]
    ensures LastMaxIndex(xs) == j
  {
  }

  function Min(a: nat, b: nat): nat
  {
    if a < b then a else b
  }

  /** The scores of the sampled positions, in sample order. */
  function SampledScores(scores: seq<real>, sample: seq<nat>): (r: seq<real>)
    requires forall j :: 0 <= j < |sample| ==> sample[j] < |scores|
    ensures |r| == |sample|
    ensures forall j :: 0 <= j < |sample| ==> r[j] == scores[sample[j]]
  {
    seq(|sample|, j requires 0 <= j < |sample| => scores[sample[j]])
  }

  /**
   * The position `tournament_selection` picks among the `m` pairs of
   * `zip(pop, scores)`: `random.sample` raises for `k < 0` or `k > m`, and
   * `[-1]` raises on the empty selection of `k = 0`.
   */
  function TournamentIndex(m: nat, scores: seq<real>, k: int, sample: seq<nat>): (r: Result<nat>)
    requires m <= |scores|
    requires 0 <= k <= m ==> ValidSample(sample, k, m)
    ensures r.Failure? <==> k <= 0 || m < k
    ensures r.Failure? ==> r.error == if k == 0 then IndexError else ValueError("Sample larger than population or is negative")
    ensures r.Success? ==> exists j :: (0 <= j < k && r.value == sample[j]
      && forall i :: j < i < k ==> scores[sample[i]] < scores[r.value])
    ensures r.Success? ==> r.value < m
    ensures r.Success? ==> forall j :: 0 <= j < k ==> scores[sample[j]] <= scores[r.value]
  {
    if k < 0 || m < k then Failure(ValueError("Sample larger than population or is negative"))
    else if k == 0 then Failure(IndexError)
    else
      var j := LastMaxIndex(SampledScores(scores, sample));
      Success(sample[j])
  }

  /**
   * `tournament_selection(pop, scores, k)`: the agent of the best-scoring
   * pair among `k` sampled ones; on equal scores the one sampled last.
   */
  function TournamentSelection<T>(pop: seq<T>, scores: seq<real>, k: int, sample: seq<nat>): (r: Result<T>)
    requires 0 <= k <= Min(|pop|, |scores|) ==> ValidSample(sample, k, Min(|pop|, |scores|))
    ensures r.Failure? <==> k <= 0 || Min(|pop|, |scores|) < k
    ensures r.Success? ==> exists j :: (0 <= j < k && sample[j] < |pop| && r.value == pop[sample[j]]
      && (forall i :: 0 <= i < k ==> scores[sample[i]] <= scores[sample[j]])
      && (forall i :: j < i < k ==> scores[sample[i]] < scores[sample[j]]))
  {
    var j :- TournamentIndex(Min(|pop|, |scores|), scores, k, sample);
    Success(pop[j])
  }

  // ---------------------------------------------------------------------------
  // Crossover.

  /** A unit draw scaled by a positive `m` lies in [0, m). */
  lemma ScaleUnit(u: real, m: real)
    requires UnitDraw(u) && m > 0.0
    ensures 0.0 <= u * m < m
  {
    assert u * m < 1.0 * m;
  }

  /** `randint(0, n)` from a `random()` draw: uniform over 0 .. n. */
  function RandInt(n: nat, u: real): (r: nat)
    requires UnitDraw(u)
    ensures r <= n
  {
    var x := u * (n + 1) as real;
    ScaleUnit(u, (n + 1) as real);
    x.Floor
  }

  /**
   * The slice swap `c1.genes[:pt], c2.genes[:pt] = c2.genes[:pt], c1.genes[:pt]`
   * on gene values.
   */
  function Recombine<T>(a: seq<T>, b: seq<T>, pt: nat): (seq<T>, seq<T>)
  {
    (Take(b, pt) + Drop(a, pt), Take(a, pt) + Drop(b, pt))
  }

  /**
   * For parents of equal length `L` and `pt <= L`, both children have length
   * `L`; the first takes the second parent's genes before `pt` and its own
   * from `pt` on, the second the other way round.
   */
  lemma RecombineAt<T>(a: seq<T>, b: seq<T>, pt: nat)
    requires |a| == |b| && pt <= |a|
    ensures |Recombine(a, b, pt).0| == |a| && |Recombine(a, b, pt).1| == |a|
    ensures forall i :: 0 <= i < |a| ==> Recombine(a, b, pt).0[i] == (if i < pt then b[i] else a[i])
    ensures forall i :: 0 <= i < |a| ==> Recombine(a, b, pt).1[i] == (if i < pt then a[i] else b[i])
  {
  }

  /** Crossover point 0 leaves both children as they are. */
  lemma RecombineAtZero<T>(a: seq<T>, b: seq<T>)
    ensures Recombine(a, b, 0) == (a, b)
  {
    assert Take(b, 0) + Drop(a, 0) == a;
    assert Take(a, 0) + Drop(b, 0) == b;
  }

  /** Crossover point `L` swaps two children of length `L` completely. */
  lemma RecombineAtEnd<T>(a: seq<T>, b: seq<T>)
    requires |a| == |b|
    ensures Recombine(a, b, |a|) == (b, a)
  {
    assert Take(b, |a|) + Drop(a, |a|) == b;
    assert Take(a, |a|) + Drop(b, |a|) == a;
  }

  /** Crossover introduces no new value and loses none: the genes of the two children together are those of the two parents. */
  lemma RecombineKeepsGenes<T>(a: seq<T>, b: seq<T>, pt: nat)
    ensures multiset(Recombine(a, b, pt).0) + multiset(Recombine(a, b, pt).1) == multiset(a) + multiset(b)
  {
    assert a == Take(a, pt) + Drop(a, pt);
    assert b == Take(b, pt) + Drop(b, pt);
  }

  /** The random draws of one `crossover` call, in the order it makes them. */
  datatype CrossDraw = CrossDraw(
    redraw1: nat -> real,  // `p1.copy()`: the `random()` a 0.0 gene at each position would use
    redraw2: nat -> real,  // `p2.copy()`
    gate: real,            // `random() < cross_rate`
    point: real)           // the draw behind `randint(0, len(p1.genes))`

  /** The gene values of the two children `crossover(p1, p2, crossRate)` returns. */
  function CrossoverValues(v1: seq<real>, v2: seq<real>, crossRate: real, d: CrossDraw): (seq<real>, seq<real>)
    requires UnitDraw(d.point)
  {
    var c1, c2 := CopyValues(v1, d.redraw1), CopyValues(v2, d.redraw2);
    if d.gate < crossRate then Recombine(c1, c2, RandInt(|v1|, d.point)) else (c1, c2)
  }

  /**
   * Without a 0.0 gene: if the gate fails both children equal their own
   * parents, otherwise they are the recombination at the drawn point; the
   * children of equal-length parents have that length.
   */
  lemma CrossoverValuesExact(v1: seq<real>, v2: seq<real>, crossRate: real, d: CrossDraw)
    requires UnitDraw(d.point)
    requires forall i :: 0 <= i < |v1| ==> v1[i] != 0.0
    requires forall i :: 0 <= i < |v2| ==> v2[i] != 0.0
    ensures crossRate <= d.gate ==> CrossoverValues(v1, v2, crossRate, d) == (v1, v2)
    ensures d.gate < crossRate ==> CrossoverValues(v1, v2, crossRate, d) == Recombine(v1, v2, RandInt(|v1|, d.point))
    ensures |v1| == |v2| ==> |CrossoverValues(v1, v2, crossRate, d).0| == |v1| == |CrossoverValues(v1, v2, crossRate, d).1|
  {
    CopyExactWithoutZeros(v1, d.redraw1);
    CopyExactWithoutZeros(v2, d.redraw2);
    if d.gate < crossRate && |v1| == |v2| {
      RecombineAt(v1, v2, RandInt(|v1|, d.point));
    }
  }

  /** A prefix of one list followed by a suffix of a disjoint one has no repeated gene. */
  lemma SpliceOneDistinct(p: seq<Gene>, q: seq<Gene>, k: nat)
    requires Distinct(p) && Distinct(q) && Disjoint(p, q)
    ensures Distinct(Take(p, k) + Drop(q, k))
  {
    var x := Take(p, k) + Drop(q, k);
    forall i, j | 0 <= i < j < |x|
      ensures x[i] != x[j]
    {
      if i < |Take(p, k)| <= j {
        assert x[i] == p[i] && p[i] in p && x[j] == q[k + j - |Take(p, k)|];
      }
    }
  }

  /** Splicing two disjoint lists of distinct genes yields two disjoint lists of distinct genes. */
  lemma SpliceDistinct(a: seq<Gene>, b: seq<Gene>, pt: nat)
    requires Distinct(a) && Distinct(b) && Disjoint(a, b)
    ensures Distinct(Recombine(a, b, pt).0) && Distinct(Recombine(a, b, pt).1)
    ensures Disjoint(Recombine(a, b, pt).0, Recombine(a, b, pt).1)
  {
    SpliceOneDistinct(b, a, pt);
    SpliceOneDistinct(a, b, pt);
    var (x, y) := Recombine(a, b, pt);
    forall g | g in x
      ensures g !in y
    {
      var i :| 0 <= i < |x| && x[i] == g;
      forall j | 0 <= j < |y|
        ensures y[j] != g
      {
        SpliceApart(a, b, pt, i, j);
      }
    }
  }

  /** A gene of the first spliced list is never one of the second. */
  lemma SpliceApart(a: seq<Gene>, b: seq<Gene>, pt: nat, i: nat, j: nat)
    requires Distinct(a) && Distinct(b) && Disjoint(a, b)
    requires i < |Recombine(a, b, pt).0| && j < |Recombine(a, b, pt).1|
    ensures Recombine(a, b, pt).0[i] != Recombine(a, b, pt).1[j]
  {
    var (x, y) := Recombine(a, b, pt);
    var tb, ta := |Take(b, pt)|, |Take(a, pt)|;
    if i < tb {
      assert x[i] == b[i] && b[i] in b;
    } else {
      assert x[i] == a[pt + i - tb] && a[pt + i - tb] in a;
    }
    if j < ta {
      assert y[j] == a[j] && a[j] in a;
    } else {
      assert y[j] == b[pt + j - ta] && b[pt + j - ta] in b;
    }
  }

  /** The values of spliced gene lists are the spliced values. */
  lemma SpliceValues(a: seq<Gene>, b: seq<Gene>, pt: nat)
    ensures ValuesOf(Recombine(a, b, pt).0) == Recombine(ValuesOf(a), ValuesOf(b), pt).0
    ensures ValuesOf(Recombine(a, b, pt).1) == Recombine(ValuesOf(a), ValuesOf(b), pt).1
  {
    ValuesOfSplice(Take(b, pt), Drop(a, pt), Take(ValuesOf(b), pt), Drop(ValuesOf(a), pt));
    ValuesOfSplice(Take(a, pt), Drop(b, pt), Take(ValuesOf(a), pt), Drop(ValuesOf(b), pt));
  }

  /** The values of a front and a back put together, given those of each part. */
  lemma ValuesOfSplice(front: seq<Gene>, back: seq<Gene>, vf: seq<real>, vb: seq<real>)
    requires |front| == |vf| && forall i :: 0 <= i < |vf| ==> front[i].value == vf[i]
    requires |back| == |vb| && forall i :: 0 <= i < |vb| ==> back[i].value == vb[i]
    ensures ValuesOf(front + back) == vf + vb
  {
    var v := ValuesOf(front + back);
    forall i | 0 <= i < |v|
      ensures v[i] == (vf + vb)[i]
    {
      if i < |vf| {
        assert (front + back)[i] == front[i];
      } else {
        assert (front + back)[i] == back[i - |vf|];
      }
    }
  }

  /**
   * `crossover(p1, p2, cross_rate)`: copies of both parents, whose gene lists
   * are spliced at a random point when the gate passes. The parents are not
   * changed (the method modifies nothing) and the children own new genes.
   */
  method Crossover(p1: Agent, p2: Agent, crossRate: real, d: CrossDraw) returns (c1: Agent, c2: Agent)
    requires UnitDraw(d.point)
    ensures fresh(c1) && fresh(c2) && c1.Valid() && c2.Valid()
    ensures forall g :: g in c1.genes ==> fresh(g)
    ensures forall g :: g in c2.genes ==> fresh(g)
    ensures Disjoint(c1.genes, c2.genes)
    ensures c1.Values() == CrossoverValues(old(p1.Values()), old(p2.Values()), crossRate, d).0
    ensures c2.Values() == CrossoverValues(old(p1.Values()), old(p2.Values()), crossRate, d).1
  {
    c1, c2 := CopyPair(p1, p2, d.redraw1, d.redraw2);
    if d.gate < crossRate {
      var pt := RandInt(|p1.genes|, d.point);
      SpliceChildren(c1, c2, pt);
    }
  }

  /** Copies of two agents; the copies share no gene with each other or with anything older. */
  method CopyPair(p1: Agent, p2: Agent, redraw1: nat -> real, redraw2: nat -> real) returns (c1: Agent, c2: Agent)
    ensures fresh(c1) && fresh(c2) && c1 != c2 && c1.Valid() && c2.Valid()
    ensures forall g :: g in c1.genes ==> fresh(g)
    ensures forall g :: g in c2.genes ==> fresh(g)
    ensures Disjoint(c1.genes, c2.genes)
    ensures c1.Values() == CopyValues(p1.Values(), redraw1)
    ensures c2.Values() == CopyValues(p2.Values(), redraw2)
  {
    c1 := p1.Copy(redraw1);
    c2 := p2.Copy(redraw2);
    forall i, j | 0 <= i < |c1.genes| && 0 <= j < |c2.genes|
      ensures c1.genes[i] != c2.genes[j]
    {
      assert c1.genes[i] in c1.genes && c2.genes[j] in c2.genes;
    }
  }

  /** Swaps the prefixes of two fresh children, keeping each one's genes its own. */
  method SpliceChildren(c1: Agent, c2: Agent, pt: nat)
    requires c1 != c2 && c1.Valid() && c2.Valid() && Disjoint(c1.genes, c2.genes)
    modifies c1, c2
    ensures c1.Valid() && c2.Valid() && Disjoint(c1.genes, c2.genes)
    ensures forall g :: g in c1.genes ==> g in old(c1.genes) || g in old(c2.genes)
    ensures forall g :: g in c2.genes ==> g in old(c1.genes) || g in old(c2.genes)
    ensures (c1.Values(), c2.Values()) == Recombine(old(c1.Values()), old(c2.Values()), pt)
  {
    ghost var g1, g2 := c1.genes, c2.genes;
    ghost var (x, y) := Recombine(g1, g2, pt);
    assert Distinct(x) && Distinct(y) && Disjoint(x, y) by { SpliceDistinct(g1, g2, pt); }
    assert (forall g :: g in x ==> g in g1 || g in g2) && (forall g :: g in y ==> g in g1 || g in g2) by {
      SpliceMembers(g1, g2, pt);
    }
    SwapPrefixes(c1, c2, pt);
  }

  /** Every gene of the spliced lists comes from one of the two lists. */
  lemma SpliceMembers(a: seq<Gene>, b: seq<Gene>, pt: nat)
    ensures forall g :: g in Recombine(a, b, pt).0 ==> g in a || g in b
    ensures forall g :: g in Recombine(a, b, pt).1 ==> g in a || g in b
  {
    RecombineKeepsGenes(a, b, pt);
    var (x, y) := Recombine(a, b, pt);
    assert forall g :: g in x ==> g in multiset(x) + multiset(y);
    assert forall g :: g in y ==> g in multiset(x) + multiset(y);
  }

  /**
   * The slice assignment `c1.genes[:pt], c2.genes[:pt] = c2.genes[:pt], c1.genes[:pt]`
   * on two agents.
   */
  method SwapPrefixes(c1: Agent, c2: Agent, pt: nat)
    requires c1 != c2
    modifies c1, c2
    ensures c1.genes == Recombine(old(c1.genes), old(c2.genes), pt).0
    ensures c2.genes == Recombine(old(c1.genes), old(c2.genes), pt).1
    ensures (c1.Values(), c2.Values()) == Recombine(old(c1.Values()), old(c2.Values()), pt)
  {
    SpliceValues(c1.genes, c2.genes, pt);
    c1.genes, c2.genes := Take(c2.genes, pt) + Drop(c1.genes, pt), Take(c1.genes, pt) + Drop(c2.genes, pt);
  }

  // ---------------------------------------------------------------------------
  // Mutation.

  /** The random draws of one gene's turn in `GeneticAlgorithm.mutate`. */
  datatype GeneDraw = GeneDraw(
    gate: real,       // `random() < self.mutation_chance`
    resetGate: real,  // `random() < reset_rate`
    uniform: real,    // the `random()` of a reset
    gauss: real)      // the sample of the normal distribution fitted to the agent's genes

  /**
   * The value `mutate(agent, gene, reset_rate)` writes into the gene of an
   * agent with `geneCount` genes: a fresh uniform value, or the clamped
   * Gaussian sample. Fitting the distribution needs two genes at least; with
   * fewer, `NormalDist.from_samples` raises.
   */
  function MutatedValue(geneCount: nat, d: GeneDraw, resetRate: real): (r: Result<real>)
    ensures r.Failure? <==> resetRate <= d.resetGate && geneCount < 2
    ensures r.Failure? ==> r.error == StatisticsError
    ensures r.Success? && d.resetGate < resetRate ==> r.value == d.uniform
    ensures r.Success? && resetRate <= d.resetGate ==> r.value == Utils.Clamp(d.gauss)
    ensures r.Success? && resetRate <= d.resetGate ==> UnitDraw(r.value)
    ensures r.Success? && UnitDraw(d.uniform) ==> UnitDraw(r.value)
  {
    if d.resetGate < resetRate then Success(d.uniform)
    else if geneCount < 2 then Failure(StatisticsError)
    else Success(Utils.Clamp(d.gauss))
  }

  /**
   * `mutate(agent, gene, reset_rate)`: overwrites `gene.value` and nothing
   * else; raises before writing when the Gaussian branch meets an agent of
   * fewer than two genes.
   */
  method MutateGene(agent: Agent, gene: Gene, resetRate: real, d: GeneDraw) returns (r: Outcome)
    modifies gene
    ensures r.Pass? <==> MutatedValue(|agent.genes|, d, resetRate).Success?
    ensures r.Pass? ==> gene.value == MutatedValue(|agent.genes|, d, resetRate).value
    ensures r.Fail? ==> r.error == StatisticsError && gene.value == old(gene.value)
  {
    if d.resetGate < resetRate {
      gene.value := d.uniform;
    } else {
      if |agent.genes| < 2 {
        return Fail(StatisticsError);
      }
      gene.value := Utils.Clamp(d.gauss);
    }
    r := Pass;
  }

  /** Whether gene `i` of an agent with values `vs` is selected for mutation and then fails. */
  predicate MutationFails(vs: seq<real>, draws: nat -> GeneDraw, chance: real, i: nat)
  {
    draws(i).gate < chance && MutatedValue(|vs|, draws(i), ResetRate).Failure?
  }

  /**
   * The gene values after `GeneticAlgorithm.mutate`: gene `i` is mutated when
   * its gate draw is below `chance` and kept otherwise. Only the Gaussian
   * branch on an agent of fewer than two genes raises, so the one gene of a
   * one-gene agent is the only gene whose mutation can fail.
   */
  function MutateAll(vs: seq<real>, draws: nat -> GeneDraw, chance: real): (r: Result<seq<real>>)
  {
    if |vs| == 1 && MutationFails(vs, draws, chance, 0) then Failure(StatisticsError)
    else Success(seq(|vs|, i requires 0 <= i < |vs| && !MutationFails(vs, draws, chance, i) => MutatedAt(vs, draws, chance, i)))
  }

  /** Gene `i` after mutation: the mutated value when its gate draw is below `chance`, else unchanged. */
  function MutatedAt(vs: seq<real>, draws: nat -> GeneDraw, chance: real, i: nat): real
    requires i < |vs| && !MutationFails(vs, draws, chance, i)
  {
    if draws(i).gate < chance then MutatedValue(|vs|, draws(i), ResetRate).value else vs[i]
  }

  /**
   * Mutation keeps the gene count, leaves every gene whose gate draw is at
   * least `chance` alone, and puts every mutated gene in [0, 1). It can only
   * fail on a one-gene agent.
   */
  lemma MutateAllSpec(vs: seq<real>, draws: nat -> GeneDraw, chance: real)
    ensures MutateAll(vs, draws, chance).Failure? ==> |vs| == 1
    ensures 2 <= |vs| ==> MutateAll(vs, draws, chance).Success?
    ensures MutateAll(vs, draws, chance).Success? ==> |MutateAll(vs, draws, chance).value| == |vs|
    ensures MutateAll(vs, draws, chance).Success? ==> forall i :: 0 <= i < |vs| && chance <= draws(i).gate ==>
      MutateAll(vs, draws, chance).value[i] == vs[i]
    ensures MutateAll(vs, draws, chance).Success? ==> forall i :: 0 <= i < |vs| && draws(i).gate < chance && UnitDraw(draws(i).uniform) ==>
      UnitDraw(MutateAll(vs, draws, chance).value[i])
  {
  }

  /** With every gate draw at least `chance`, mutation changes nothing. */
  lemma MutateAllGatesClosed(vs: seq<real>, draws: nat -> GeneDraw, chance: real)
    requires forall i :: 0 <= i < |vs| ==> chance <= draws(i).gate
    ensures MutateAll(vs, draws, chance) == Success(vs)
  {
    assert !exists i :: 0 <= i < |vs| && MutationFails(vs, draws, chance, i);
    assert MutateAll(vs, draws, chance).value == vs;
  }

  // ---------------------------------------------------------------------------
  // One generation, on values.

  /** The random draws of one `run_single_iteration`. */
  datatype IterationDraws = IterationDraws(
    samples: nat -> seq<nat>,              // the `random.sample` of parent slot i
    cross: nat -> CrossDraw,               // the `crossover` of pair k
    mutation: nat -> (nat -> GeneDraw))    // the `mutate` of child c (2k and 2k+1 for pair k)

  /** The draws are ones the random source can return for a population of `n` agents. */
  ghost predicate DrawsFit(d: IterationDraws, n: nat)
  {
    && (TournamentSize <= n ==> forall i :: ValidSample(d.samples(i), TournamentSize, n))
    && (forall k :: UnitDraw(d.cross(k).point))
  }

  /** The positions of the parents chosen for the first `slots` slots. */
  function SelectIndices(n: nat, scores: seq<real>, samples: nat -> seq<nat>, slots: nat): (r: Result<seq<nat>>)
    requires n <= |scores|
    requires TournamentSize <= n ==> forall i :: ValidSample(samples(i), TournamentSize, n)
    ensures r.Success? ==> |r.value| == slots && forall i :: 0 <= i < slots ==> r.value[i] < n
    ensures r.Failure? <==> 0 < slots && n < TournamentSize
  {
    if slots == 0 then Success([])
    else
      var earlier :- SelectIndices(n, scores, samples, slots - 1);
      var p :- TournamentIndex(n, scores, TournamentSize, samples(slots - 1));
      Success(earlier + [p])
  }

  /** Parent slot `i` holds the winner of tournament `i`, the one drawn with `samples(i)`. */
  lemma {:induction false} SelectIndicesWinners(n: nat, scores: seq<real>, samples: nat -> seq<nat>, slots: nat)
    requires n <= |scores|
    requires TournamentSize <= n ==> forall i :: ValidSample(samples(i), TournamentSize, n)
    ensures var r := SelectIndices(n, scores, samples, slots);
      r.Success? ==> forall i :: 0 <= i < slots ==> TournamentIndex(n, scores, TournamentSize, samples(i)) == Success(r.value[i])
  {
    if slots > 0 {
      SelectIndicesWinners(n, scores, samples, slots - 1);
    }
  }

  /** The two children of one pair of parents, crossed over and then mutated. */
  function Offspring(v1: seq<real>, v2: seq<real>, cd: CrossDraw, m1: nat -> GeneDraw, m2: nat -> GeneDraw, chance: real)
    : Result<(seq<real>, seq<real>)>
    requires UnitDraw(cd.point)
  {
    var (c1, c2) := CrossoverValues(v1, v2, CrossRate, cd);
    var n1 :- MutateAll(c1, m1, chance);
    var n2 :- MutateAll(c2, m2, chance);
    Success((n1, n2))
  }

  /**
   * The offspring of pair `k`: parents `2k` and `2k + 1`, crossed over with
   * the draws of call `k`, the children mutated with those of calls `2k` and
   * `2k + 1`. For an even number of parents these are exactly the chunks of
   * `grouper(parents, 2)`, with no fill value (`Utils.PairsOfEven`).
   */
  function PairOffspring(parents: seq<seq<real>>, d: IterationDraws, chance: real, k: nat): Result<(seq<real>, seq<real>)>
    requires 2 * k + 2 <= |parents|
    requires forall j :: UnitDraw(d.cross(j).point)
  {
    Offspring(parents[2 * k], parents[2 * k + 1], d.cross(k), d.mutation(2 * k), d.mutation(2 * k + 1), chance)
  }

  /**
   * The pairs `grouper(parents, 2)` yields for an even number of parents are
   * the pairs `PairOffspring` breeds: chunk `k` is parents `2k` and `2k + 1`,
   * and there are exactly `|parents| / 2` chunks, none padded with `fill`.
   */
  lemma GrouperPairs(parents: seq<seq<real>>, d: IterationDraws, chance: real, fill: seq<real>, k: nat)
    requires |parents| % 2 == 0 && 2 * k + 2 <= |parents|
    requires forall j :: UnitDraw(d.cross(j).point)
    ensures |Utils.Grouper(parents, 2, fill)| == |parents| / 2
    ensures var chunk := Utils.Grouper(parents, 2, fill)[k];
      chunk == [parents[2 * k], parents[2 * k + 1]]
      && PairOffspring(parents, d, chance, k) == Offspring(chunk[0], chunk[1], d.cross(k), d.mutation(2 * k), d.mutation(2 * k + 1), chance)
  {
    Utils.PairsOfEven(parents, fill);
  }

  /** The outcomes of the pairs, in order: the first failure, or all children laid end to end. */
  function Collect(outcomes: seq<Result<(seq<real>, seq<real>)>>): Result<seq<seq<real>>>
  {
    if outcomes == [] then Success([])
    else
      var earlier :- Collect(outcomes[..|outcomes| - 1]);
      var kids :- outcomes[|outcomes| - 1];
      Success(earlier + [kids.0, kids.1])
  }

  /**
   * `outcomes[k]` is the offspring of pair `k`. The quantifier is only
   * instantiated where a pair's offspring is mentioned.
   */
  ghost predicate PairsOf(outcomes: seq<Result<(seq<real>, seq<real>)>>, parents: seq<seq<real>>, d: IterationDraws, chance: real)
    requires 2 * |outcomes| <= |parents|
    requires forall j :: UnitDraw(d.cross(j).point)
  {
    forall k {:trigger PairOffspring(parents, d, chance, k)} :: 0 <= k < |outcomes| ==> outcomes[k] == PairOffspring(parents, d, chance, k)
  }

  /** The offspring of each of the first `pairs` pairs. */
  function PairOutcomes(parents: seq<seq<real>>, d: IterationDraws, chance: real, pairs: nat): (r: seq<Result<(seq<real>, seq<real>)>>)
    requires 2 * pairs <= |parents|
    requires forall j :: UnitDraw(d.cross(j).point)
    ensures |r| == pairs && PairsOf(r, parents, d, chance)
  {
    seq(pairs, k requires 0 <= k < pairs => PairOffspring(parents, d, chance, k))
  }

  /** The children of the first `pairs` pairs `parents[2k], parents[2k+1]`. */
  function Breed(parents: seq<seq<real>>, d: IterationDraws, chance: real, pairs: nat): Result<seq<seq<real>>>
    requires 2 * pairs <= |parents|
    requires forall j :: UnitDraw(d.cross(j).point)
  {
    Collect(PairOutcomes(parents, d, chance, pairs))
  }

  /** Collecting one more outcome appends its children, or fails with it. */
  lemma CollectStep(outcomes: seq<Result<(seq<real>, seq<real>)>>, k: nat, earlier: seq<seq<real>>)
    requires k < |outcomes| && Collect(outcomes[..k]) == Success(earlier)
    ensures outcomes[k].Failure? ==> Collect(outcomes[..k + 1]) == Failure(outcomes[k].error)
    ensures outcomes[k].Success? ==> Collect(outcomes[..k + 1]) == Success(earlier + [outcomes[k].value.0, outcomes[k].value.1])
  {
    assert outcomes[..k + 1][..k] == outcomes[..k];
  }

  /** Once an outcome fails, collecting more fails with the same error. */
  lemma {:induction false} CollectFailureSticks(outcomes: seq<Result<(seq<real>, seq<real>)>>, k: nat)
    requires k <= |outcomes| && Collect(outcomes[..k]).Failure?
    ensures Collect(outcomes) == Collect(outcomes[..k])
    decreases |outcomes| - k
  {
    if k < |outcomes| {
      var last := |outcomes| - 1;
      assert outcomes[..last][..k] == outcomes[..k];
      CollectFailureSticks(outcomes[..last], k);
    } else {
      assert outcomes[..k] == outcomes;
    }
  }

  /** Every pair contributes two children. */
  lemma {:induction false} CollectCount(outcomes: seq<Result<(seq<real>, seq<real>)>>)
    ensures Collect(outcomes).Success? ==> |Collect(outcomes).value| == 2 * |outcomes|
  {
    if outcomes != [] {
      CollectCount(outcomes[..|outcomes| - 1]);
    }
  }

  /** When every pair that succeeds has two children of `L` genes, so do all the children collected. */
  lemma {:induction false} CollectGeneCount(outcomes: seq<Result<(seq<real>, seq<real>)>>, L: nat)
    requires forall k :: 0 <= k < |outcomes| && outcomes[k].Success? ==> |outcomes[k].value.0| == L && |outcomes[k].value.1| == L
    ensures Collect(outcomes).Success? ==> AllOfLength(Collect(outcomes).value, L)
  {
    if outcomes != [] {
      CollectGeneCount(outcomes[..|outcomes| - 1], L);
    }
  }

  /** When every pair succeeds, so does collecting them. */
  lemma {:induction false} CollectSucceeds(outcomes: seq<Result<(seq<real>, seq<real>)>>)
    requires forall k :: 0 <= k < |outcomes| ==> outcomes[k].Success?
    ensures Collect(outcomes).Success?
  {
    if outcomes != [] {
      CollectSucceeds(outcomes[..|outcomes| - 1]);
    }
  }

  /** `[fitness(a) for a in population]`, on the agents' gene values. */
  function Scores(vals: seq<seq<real>>, fitness: seq<real> -> real): (r: seq<real>)
    ensures |r| == |vals| && forall i :: 0 <= i < |vals| ==> r[i] == fitness(vals[i])
  {
    if vals == [] then [] else [fitness(vals[0])] + Scores(vals[1..], fitness)
  }

  /** The gene values of the parents at the given positions. */
  function Pick(vals: seq<seq<real>>, idx: seq<nat>): (r: seq<seq<real>>)
    requires forall i :: 0 <= i < |idx| ==> idx[i] < |vals|
    ensures |r| == |idx| && forall i :: 0 <= i < |idx| ==> r[i] == vals[idx[i]]
  {
    seq(|idx|, i requires 0 <= i < |idx| => vals[idx[i]])
  }

  /**
   * The gene values of the generation `run_single_iteration` builds from a
   * population with gene values `vals` and fitness `scores`. Breeding takes
   * `|vals| / 2` pairs, so an odd last parent would be dropped here, where
   * the code would call `crossover(p, None)` and fail; a valid algorithm
   * always has an even population, so that case does not arise.
   */
  function NextGeneration(vals: seq<seq<real>>, scores: seq<real>, d: IterationDraws, chance: real): Result<seq<seq<real>>>
    requires |vals| == |scores| && DrawsFit(d, |vals|)
  {
    var idx :- SelectIndices(|vals|, scores, d.samples, |vals|);
    Breed(Pick(vals, idx), d, chance, |vals| / 2)
  }

  /** Breeding `pairs` pairs gives `2 * pairs` children. */
  lemma BreedCount(parents: seq<seq<real>>, d: IterationDraws, chance: real, pairs: nat)
    requires 2 * pairs <= |parents|
    requires forall k :: UnitDraw(d.cross(k).point)
    ensures Breed(parents, d, chance, pairs).Success? ==> |Breed(parents, d, chance, pairs).value| == 2 * pairs
  {
    CollectCount(PairOutcomes(parents, d, chance, pairs));
  }

  /** Every gene list has `L` genes. */
  predicate AllOfLength(vs: seq<seq<real>>, L: nat)
  {
    forall i :: 0 <= i < |vs| ==> |vs[i]| == L
  }

  /**
   * Two parents of `L` genes have two children of `L` genes, and with at
   * least two genes mutation cannot fail.
   */
  lemma OffspringShape(v1: seq<real>, v2: seq<real>, cd: CrossDraw, m1: nat -> GeneDraw, m2: nat -> GeneDraw, chance: real)
    requires UnitDraw(cd.point) && |v1| == |v2|
    ensures var kids := Offspring(v1, v2, cd, m1, m2, chance);
      && (2 <= |v1| ==> kids.Success?)
      && (kids.Success? ==> |kids.value.0| == |v1| && |kids.value.1| == |v1|)
  {
    var (c1, c2) := CrossoverValues(v1, v2, CrossRate, cd);
    if cd.gate < CrossRate {
      RecombineAt(CopyValues(v1, cd.redraw1), CopyValues(v2, cd.redraw2), RandInt(|v1|, cd.point));
    }
    MutateAllSpec(c1, m1, chance);
    MutateAllSpec(c2, m2, chance);
  }

  /** When every parent has `L` genes, so does every child. */
  lemma BreedGeneCount(parents: seq<seq<real>>, d: IterationDraws, chance: real, pairs: nat, L: nat)
    requires 2 * pairs <= |parents|
    requires forall k :: UnitDraw(d.cross(k).point)
    requires AllOfLength(parents, L)
    ensures Breed(parents, d, chance, pairs).Success? ==> AllOfLength(Breed(parents, d, chance, pairs).value, L)
  {
    var outcomes := PairOutcomes(parents, d, chance, pairs);
    forall k | 0 <= k < pairs
      ensures outcomes[k].Success? ==> |outcomes[k].value.0| == L && |outcomes[k].value.1| == L
    {
      OffspringShape(parents[2 * k], parents[2 * k + 1], d.cross(k), d.mutation(2 * k), d.mutation(2 * k + 1), chance);
      assert outcomes[k] == PairOffspring(parents, d, chance, k);
    }
    CollectGeneCount(outcomes, L);
  }

  /** Agents of at least two genes never make breeding fail. */
  lemma BreedSucceeds(parents: seq<seq<real>>, d: IterationDraws, chance: real, pairs: nat, L: nat)
    requires 2 * pairs <= |parents| && 2 <= L
    requires forall k :: UnitDraw(d.cross(k).point)
    requires AllOfLength(parents, L)
    ensures Breed(parents, d, chance, pairs).Success?
  {
    var outcomes := PairOutcomes(parents, d, chance, pairs);
    forall k | 0 <= k < pairs
      ensures outcomes[k].Success?
    {
      OffspringShape(parents[2 * k], parents[2 * k + 1], d.cross(k), d.mutation(2 * k), d.mutation(2 * k + 1), chance);
      assert outcomes[k] == PairOffspring(parents, d, chance, k);
    }
    CollectSucceeds(outcomes);
  }

  /**
   * When the tournaments pick the parents at `idx`, the next generation is
   * the collected offspring of their pairs, as many as there were agents.
   */
  lemma NextGenerationPairs(vals: seq<seq<real>>, scores: seq<real>, d: IterationDraws, chance: real, idx: seq<nat>)
    returns (outcomes: seq<Result<(seq<real>, seq<real>)>>)
    requires |vals| == |scores| && |vals| % 2 == 0 && DrawsFit(d, |vals|)
    requires SelectIndices(|vals|, scores, d.samples, |vals|) == Success(idx)
    ensures |outcomes| == |vals| / 2 && PairsOf(outcomes, Pick(vals, idx), d, chance)
    ensures NextGeneration(vals, scores, d, chance) == Collect(outcomes)
    ensures Collect(outcomes).Success? ==> |Collect(outcomes).value| == |vals|
  {
    outcomes := PairOutcomes(Pick(vals, idx), d, chance, |vals| / 2);
    CollectCount(outcomes);
  }

  /**
   * A generation has as many agents as the one before; if every agent had
   * `L` genes, every new one does. A population of fewer than three agents
   * cannot hold a tournament of three and fails; with three or more agents
   * of at least two genes each, the generation is always built.
   */
  lemma NextGenerationSpec(vals: seq<seq<real>>, scores: seq<real>, d: IterationDraws, chance: real, L: nat)
    requires |vals| == |scores| && |vals| % 2 == 0 && DrawsFit(d, |vals|)
    requires AllOfLength(vals, L)
    ensures 0 < |vals| < TournamentSize ==> NextGeneration(vals, scores, d, chance).Failure?
    ensures TournamentSize <= |vals| && 2 <= L ==> NextGeneration(vals, scores, d, chance).Success?
    ensures NextGeneration(vals, scores, d, chance).Success? ==>
      |NextGeneration(vals, scores, d, chance).value| == |vals|
    ensures NextGeneration(vals, scores, d, chance).Success? ==>
      AllOfLength(NextGeneration(vals, scores, d, chance).value, L)
  {
    var sel := SelectIndices(|vals|, scores, d.samples, |vals|);
    if sel.Success? {
      var parents := Pick(vals, sel.value);
      BreedCount(parents, d, chance, |vals| / 2);
      BreedGeneCount(parents, d, chance, |vals| / 2, L);
      if 2 <= L {
        BreedSucceeds(parents, d, chance, |vals| / 2, L);
      }
    }
  }

  /** Every gene value lies in [0, 1). */
  predicate AllUnit(vs: seq<real>)
  {
    forall i :: 0 <= i < |vs| ==> UnitDraw(vs[i])
  }

  /** Every gene of every agent lies in [0, 1). */
  predicate AllGenesUnit(vss: seq<seq<real>>)
  {
    forall i :: 0 <= i < |vss| ==> AllUnit(vss[i])
  }

  /** The `random()` draws of one iteration that can become gene values: copy redraws and resets. */
  ghost predicate UnitValueDraws(d: IterationDraws)
  {
    && (forall k, i :: UnitDraw(d.cross(k).redraw1(i)) && UnitDraw(d.cross(k).redraw2(i)))
    && (forall c, i :: UnitDraw(d.mutation(c)(i).uniform))
  }

  /**
   * Crossing over two parents with genes in [0, 1) gives children with genes
   * in [0, 1): copying redraws only into [0, 1), and the slice swap only
   * moves genes between the copies.
   */
  lemma CrossoverInUnit(v1: seq<real>, v2: seq<real>, cd: CrossDraw)
    requires UnitDraw(cd.point) && AllUnit(v1) && AllUnit(v2)
    requires forall i :: UnitDraw(cd.redraw1(i)) && UnitDraw(cd.redraw2(i))
    ensures AllUnit(CrossoverValues(v1, v2, CrossRate, cd).0) && AllUnit(CrossoverValues(v1, v2, CrossRate, cd).1)
  {
    var a, b := CopyValues(v1, cd.redraw1), CopyValues(v2, cd.redraw2);
    CopyKeepsUnit(v1, cd.redraw1);
    CopyKeepsUnit(v2, cd.redraw2);
    var (c1, c2) := CrossoverValues(v1, v2, CrossRate, cd);
    if cd.gate < CrossRate {
      RecombineKeepsGenes(a, b, RandInt(|v1|, cd.point));
      forall x | x in multiset(c1) + multiset(c2)
        ensures UnitDraw(x)
      {
        assert x in a || x in b;
      }
      forall i | 0 <= i < |c1| ensures UnitDraw(c1[i]) { assert c1[i] in multiset(c1); }
      forall i | 0 <= i < |c2| ensures UnitDraw(c2[i]) { assert c2[i] in multiset(c2); }
    }
  }

  /**
   * The children of two parents with genes in [0, 1) have genes in [0, 1):
   * after crossover, mutation writes either a reset draw or a clamped
   * sample.
   */
  lemma OffspringInUnit(v1: seq<real>, v2: seq<real>, cd: CrossDraw, m1: nat -> GeneDraw, m2: nat -> GeneDraw, chance: real)
    requires UnitDraw(cd.point) && AllUnit(v1) && AllUnit(v2)
    requires forall i :: UnitDraw(cd.redraw1(i)) && UnitDraw(cd.redraw2(i))
    requires forall i :: UnitDraw(m1(i).uniform) && UnitDraw(m2(i).uniform)
    ensures var kids := Offspring(v1, v2, cd, m1, m2, chance);
      kids.Success? ==> AllUnit(kids.value.0) && AllUnit(kids.value.1)
  {
    var (c1, c2) := CrossoverValues(v1, v2, CrossRate, cd);
    CrossoverInUnit(v1, v2, cd);
    MutateAllSpec(c1, m1, chance);
    MutateAllSpec(c2, m2, chance);
  }

  /** When every pair that succeeds has children with genes in [0, 1), so do all the children collected. */
  lemma {:induction false} CollectInUnit(outcomes: seq<Result<(seq<real>, seq<real>)>>)
    requires forall k :: 0 <= k < |outcomes| && outcomes[k].Success? ==> AllUnit(outcomes[k].value.0) && AllUnit(outcomes[k].value.1)
    ensures Collect(outcomes).Success? ==> AllGenesUnit(Collect(outcomes).value)
  {
    if outcomes != [] {
      CollectInUnit(outcomes[..|outcomes| - 1]);
    }
  }

  /**
   * The `Gene` invariant over a whole generation: when every gene of the
   * population lies in [0, 1) and so does every `random()` draw that can
   * become a gene value, every gene of the next generation lies in [0, 1).
   */
  lemma NextGenerationInUnit(vals: seq<seq<real>>, scores: seq<real>, d: IterationDraws, chance: real)
    requires |vals| == |scores| && DrawsFit(d, |vals|)
    requires AllGenesUnit(vals) && UnitValueDraws(d)
    ensures NextGeneration(vals, scores, d, chance).Success? ==>
      AllGenesUnit(NextGeneration(vals, scores, d, chance).value)
  {
    var sel := SelectIndices(|vals|, scores, d.samples, |vals|);
    if sel.Success? {
      var parents := Pick(vals, sel.value);
      var outcomes := PairOutcomes(parents, d, chance, |vals| / 2);
      forall k | 0 <= k < |outcomes| && outcomes[k].Success?
        ensures AllUnit(outcomes[k].value.0) && AllUnit(outcomes[k].value.1)
      {
        assert outcomes[k] == PairOffspring(parents, d, chance, k);
        assert AllUnit(parents[2 * k]) && AllUnit(parents[2 * k + 1]);
        OffspringInUnit(parents[2 * k], parents[2 * k + 1], d.cross(k), d.mutation(2 * k), d.mutation(2 * k + 1), chance);
      }
      CollectInUnit(outcomes);
    }
  }

  // ---------------------------------------------------------------------------
  // The best agent of a run.

  /** Every generation has at least one score. */
  predicate AllNonEmpty(ss: seq<seq<real>>)
  {
    forall g :: 0 <= g < |ss| ==> |ss[g]| > 0
  }

  /**
   * The generation and position of the pair `run` returns: each generation's
   * best (`sorted(...)[-1]`) replaces the running best only when its score is
   * strictly greater.
   */
  function BestIndex(ss: seq<seq<real>>): (r: (nat, nat))
    requires |ss| > 0 && AllNonEmpty(ss)
    ensures r.0 < |ss| && r.1 < |ss[r.0]|
    ensures r.1 == LastMaxIndex(ss[r.0])
    ensures forall g, i :: 0 <= g < |ss| && 0 <= i < |ss[g]| ==> ss[g][i] <= ss[r.0][r.1]
    ensures forall g, i :: 0 <= g < r.0 && 0 <= i < |ss[g]| ==> ss[g][i] < ss[r.0][r.1]
  {
    BestOf(ss, |ss|)
  }

  /** `BestIndex` over the first `n` generations of `ss`. */
  function BestOf(ss: seq<seq<real>>, n: nat): (r: (nat, nat))
    requires 0 < n <= |ss| && AllNonEmpty(ss)
    ensures r.0 < n && r.1 < |ss[r.0]|
    ensures r.1 == LastMaxIndex(ss[r.0])
    ensures forall g, i :: 0 <= g < n && 0 <= i < |ss[g]| ==> ss[g][i] <= ss[r.0][r.1]
    ensures forall g, i :: 0 <= g < r.0 && 0 <= i < |ss[g]| ==> ss[g][i] < ss[r.0][r.1]
  {
    if n == 1 then (0, LastMaxIndex(ss[0]))
    else
      var (g, i) := BestOf(ss, n - 1);
      var j := LastMaxIndex(ss[n - 1]);
      if ss[n - 1][j] > ss[g][i] then (n - 1, j) else (g, i)
  }

  /** Generations appended after the first `n` do not change `BestOf(ss, n)`. */
  lemma {:induction false} BestOfPrefix(ss: seq<seq<real>>, s: seq<real>, n: nat)
    requires 0 < n <= |ss| && AllNonEmpty(ss) && AllNonEmpty(ss + [s])
    ensures BestOf(ss + [s], n) == BestOf(ss, n)
  {
    assert (ss + [s])[n - 1] == ss[n - 1];
    if n > 1 {
      BestOfPrefix(ss, s, n - 1);
    }
  }

  /**
   * Iteration `g` of a run: `gens[g]` was scored as `scores[g]` and bred into
   * `gens[g + 1]` with that iteration's draws.
   */
  ghost predicate Bred(gens: seq<seq<seq<real>>>, scores: seq<seq<real>>, fitness: seq<real> -> real,
                       draws: nat -> IterationDraws, chance: real, g: nat)
    requires g < |scores| && g + 1 < |gens|
  {
    && scores[g] == Scores(gens[g], fitness)
    && DrawsFit(draws(g), |gens[g]|)
    && NextGeneration(gens[g], scores[g], draws(g), chance) == Success(gens[g + 1])
  }

  /**
   * A run of `|scores|` iterations on gene values: `gens[g]` is the
   * population before iteration `g` and every generation is bred from the
   * one before it. The quantifier is only instantiated where an iteration is
   * mentioned.
   */
  ghost predicate Evolution(gens: seq<seq<seq<real>>>, scores: seq<seq<real>>, fitness: seq<real> -> real,
                            draws: nat -> IterationDraws, chance: real)
  {
    && |gens| == |scores| + 1
    && forall g {:trigger Bred(gens, scores, fitness, draws, chance, g)} :: 0 <= g < |scores| ==>
         Bred(gens, scores, fitness, draws, chance, g)
  }

  /** The iteration after the recorded ones raises `err`. */
  ghost predicate Stalls(gens: seq<seq<seq<real>>>, scores: seq<seq<real>>, fitness: seq<real> -> real,
                         draws: nat -> IterationDraws, chance: real, err: Error)
  {
    && |gens| == |scores| + 1
    && DrawsFit(draws(|scores|), |gens[|scores|]|)
    && NextGeneration(gens[|scores|], Scores(gens[|scores|], fitness), draws(|scores|), chance) == Failure(err)
  }

  /** A successful iteration extends the record of a run by one generation. */
  lemma EvolutionPush(gens: seq<seq<seq<real>>>, scores: seq<seq<real>>, fitness: seq<real> -> real,
                      draws: nat -> IterationDraws, chance: real, next: seq<seq<real>>)
    requires Evolution(gens, scores, fitness, draws, chance)
    requires DrawsFit(draws(|scores|), |gens[|scores|]|)
    requires NextGeneration(gens[|scores|], Scores(gens[|scores|], fitness), draws(|scores|), chance) == Success(next)
    ensures Evolution(gens + [next], scores + [Scores(gens[|scores|], fitness)], fitness, draws, chance)
  {
    var gens', scores' := gens + [next], scores + [Scores(gens[|scores|], fitness)];
    forall g | 0 <= g < |scores|
      ensures Bred(gens', scores', fitness, draws, chance, g)
    {
      BredExtend(gens, scores, fitness, draws, chance, next, Scores(gens[|scores|], fitness), g);
    }
    BredAt(gens', scores', fitness, draws, chance, |scores|, gens[|scores|], next);
  }

  /** Iteration `g` is recorded when its two generations and its scores are the ones bred. */
  lemma BredAt(gens: seq<seq<seq<real>>>, scores: seq<seq<real>>, fitness: seq<real> -> real,
               draws: nat -> IterationDraws, chance: real, g: nat, cur: seq<seq<real>>, next: seq<seq<real>>)
    requires g < |scores| && g + 1 < |gens|
    requires gens[g] == cur && gens[g + 1] == next && scores[g] == Scores(cur, fitness)
    requires DrawsFit(draws(g), |cur|)
    requires NextGeneration(cur, Scores(cur, fitness), draws(g), chance) == Success(next)
    ensures Bred(gens, scores, fitness, draws, chance, g)
  {
  }

  /** An iteration already recorded stays recorded when the record grows. */
  lemma BredExtend(gens: seq<seq<seq<real>>>, scores: seq<seq<real>>, fitness: seq<real> -> real,
                   draws: nat -> IterationDraws, chance: real, next: seq<seq<real>>, s: seq<real>, g: nat)
    requires Evolution(gens, scores, fitness, draws, chance) && g < |scores|
    ensures Bred(gens + [next], scores + [s], fitness, draws, chance, g)
  {
    assert Bred(gens, scores, fitness, draws, chance, g);
    assert (gens + [next])[g] == gens[g] && (gens + [next])[g + 1] == gens[g + 1] && (scores + [s])[g] == scores[g];
  }

  /** The best pair of a run one generation longer: the new generation's best only if strictly better. */
  lemma BestIndexPush(ss: seq<seq<real>>, s: seq<real>)
    requires |ss| > 0 && AllNonEmpty(ss) && |s| > 0
    ensures AllNonEmpty(ss + [s])
    ensures var (g, i) := BestIndex(ss);
      BestIndex(ss + [s]) == if s[LastMaxIndex(s)] > ss[g][i] then (|ss|, LastMaxIndex(s)) else (g, i)
  {
    var ss' := ss + [s];
    assert ss'[|ss|] == s;
    assert forall g :: 0 <= g < |ss| ==> ss'[g] == ss[g];
    BestOfPrefix(ss, s, |ss|);
  }

  /**
   * The loop body of `run` on one finished iteration: the best of `agents`
   * by `scores` (`sorted(zip(...))[-1]`) replaces `best` when there is none
   * yet or when its score is strictly greater.
   */
  function KeepBest(best: Option<(Agent, real)>, agents: seq<Agent>, scores: seq<real>): Option<(Agent, real)>
    requires 0 < |scores| <= |agents|
  {
    var j := LastMaxIndex(scores);
    if best.None? || scores[j] > best.value.1 then Some((agents[j], scores[j])) else best
  }

  /** `pops[g]`, `gens[g]` and `scores[g]` all describe populations of `n` agents. */
  ghost predicate RunShape(n: nat, pops: seq<seq<Agent>>, gens: seq<seq<seq<real>>>, scores: seq<seq<real>>)
  {
    && |pops| == |scores| && |gens| == |scores| + 1
    && (forall g :: 0 <= g < |gens| ==> |gens[g]| == n)
    && (forall g :: 0 <= g < |scores| ==> |scores[g]| == n && |pops[g]| == n)
  }

  /** `best` is the pair at `BestIndex(scores)`, or `None` before the first iteration. */
  ghost predicate BestSoFar(best: Option<(Agent, real)>, pops: seq<seq<Agent>>, scores: seq<seq<real>>)
    requires |pops| == |scores| && forall g :: 0 <= g < |scores| ==> |pops[g]| == |scores[g]|
  {
    && (best.None? <==> scores == [])
    && (best.Some? ==>
          && AllNonEmpty(scores)
          && var (g, i) := BestIndex(scores); best == Some((pops[g][i], scores[g][i])))
  }

  /** One more iteration of `n` agents keeps the shape of the record. */
  lemma RunShapePush(n: nat, pops: seq<seq<Agent>>, gens: seq<seq<seq<real>>>, scores: seq<seq<real>>,
                     agents: seq<Agent>, next: seq<seq<real>>, s: seq<real>)
    requires RunShape(n, pops, gens, scores) && |agents| == |s| == |next| == n
    ensures RunShape(n, pops + [agents], gens + [next], scores + [s])
  {
  }

  /** `KeepBest` tracks `BestIndex` as the record grows. */
  lemma BestSoFarPush(best: Option<(Agent, real)>, pops: seq<seq<Agent>>, scores: seq<seq<real>>,
                      agents: seq<Agent>, s: seq<real>)
    requires |pops| == |scores| && forall g :: 0 <= g < |scores| ==> |pops[g]| == |scores[g]|
    requires BestSoFar(best, pops, scores) && 0 < |s| == |agents|
    ensures BestSoFar(KeepBest(best, agents, s), pops + [agents], scores + [s])
    ensures var (g, i) := BestIndex(scores + [s]);
      || (g == |scores| && i == LastMaxIndex(s) && KeepBest(best, agents, s).value.0 == agents[i])
      || (best.Some? && KeepBest(best, agents, s) == best && (g, i) == BestIndex(scores))
  {
    var pops', scores' := pops + [agents], scores + [s];
    assert pops'[|scores|] == agents && scores'[|scores|] == s;
    if scores != [] {
      BestIndexPush(scores, s);
      var (g, i) := BestIndex(scores);
      assert pops'[g] == pops[g] && scores'[g] == scores[g];
    } else {
      assert scores' == [s];
    }
  }

  /**
   * One finished iteration of `run` keeps everything the loop knows: the
   * record grows by the scored population, and the best agent still holds
   * the gene values recorded for it.
   */
  lemma RunRecordPush(n: nat, best: Option<(Agent, real)>, pops: seq<seq<Agent>>, gens: seq<seq<seq<real>>>,
                      scores: seq<seq<real>>, agents: seq<Agent>, next: seq<seq<real>>, s: seq<real>)
    requires RunShape(n, pops, gens, scores) && BestSoFar(best, pops, scores)
    requires best.Some? ==> best.value.0.Values() == gens[BestIndex(scores).0][BestIndex(scores).1]
    requires 0 < n && |agents| == |s| == |next| == n
    requires forall k :: 0 <= k < n ==> agents[k].Values() == gens[|scores|][k]
    ensures RunShape(n, pops + [agents], gens + [next], scores + [s])
    ensures BestSoFar(KeepBest(best, agents, s), pops + [agents], scores + [s])
    ensures var (g, i) := BestIndex(scores + [s]);
      KeepBest(best, agents, s).value.0.Values() == (gens + [next])[g][i]
  {
    RunShapePush(n, pops, gens, scores, agents, next, s);
    BestSoFarPush(best, pops, scores, agents, s);
    var (g, i) := BestIndex(scores + [s]);
    assert (gens + [next])[g] == gens[g];
  }

  // ---------------------------------------------------------------------------
  // The driver.

  /** Every gene of every agent of a population. */
  ghost function GenesOf(pop: seq<Agent>): set<object>
    reads pop
  {
    set a, i | a in pop && 0 <= i < |a.genes| :: a.genes[i]
  }

  /** The gene values of every agent of a population. */
  function PopulationValues(pop: seq<Agent>): (r: seq<seq<real>>)
    reads pop, GenesOf(pop)
    ensures |r| == |pop|
    ensures forall i :: 0 <= i < |pop| ==> r[i] == pop[i].Values()
  {
    if pop == [] then [] else [pop[0].Values()] + PopulationValues(pop[1..])
  }

  /**
   * The genes of agent `j` hold the values `vals[j]`, position by position:
   * `PopulationValues(pop) == vals` in terms of the gene fields.
   */
  ghost predicate GenesHold(pop: seq<Agent>, vals: seq<seq<real>>)
    reads pop, GenesOf(pop)
  {
    && |pop| == |vals|
    && (forall j :: 0 <= j < |pop| ==> |pop[j].genes| == |vals[j]|)
    && (forall j, i :: 0 <= j < |pop| && 0 <= i < |pop[j].genes| ==> pop[j].genes[i].value == vals[j][i])
  }

  /** `GenesHold` is `PopulationValues` read field by field. */
  lemma GenesHoldValues(pop: seq<Agent>, vals: seq<seq<real>>)
    ensures GenesHold(pop, vals) <==> PopulationValues(pop) == vals
  {
    if GenesHold(pop, vals) {
      assert forall j :: 0 <= j < |pop| ==> pop[j].Values() == vals[j];
    }
  }

  /** The agents at positions `idx` of a population hold the values at those positions. */
  lemma PickValues(pop: seq<Agent>, picked: seq<Agent>, idx: seq<nat>)
    requires |picked| == |idx| && forall k :: 0 <= k < |idx| ==> idx[k] < |pop| && picked[k] == pop[idx[k]]
    ensures PopulationValues(picked) == Pick(PopulationValues(pop), idx)
  {
  }

  /** The agents of pair `k` hold the values of pair `k`. */
  lemma PairValues(pop: seq<Agent>, vals: seq<seq<real>>, k: nat)
    requires GenesHold(pop, vals) && 2 * k + 1 < |pop|
    ensures pop[2 * k].Values() == vals[2 * k] && pop[2 * k + 1].Values() == vals[2 * k + 1]
  {
    GenesHoldValues(pop, vals);
  }

  /** Appending agents appends their gene values. */
  lemma GenesHoldAppend(pop: seq<Agent>, vals: seq<seq<real>>, more: seq<Agent>, moreVals: seq<seq<real>>)
    requires GenesHold(pop, vals) && GenesHold(more, moreVals)
    ensures GenesHold(pop + more, vals + moreVals)
  {
  }

  /** Whether `mutation_chance` is falsy: missing or 0.0. */
  predicate Falsy(chance: Option<real>)
  {
    chance.None? || chance.value == 0.0
  }

  /**
   * The checks of `GeneticAlgorithm.__init__` and the mutation chance it
   * stores: `mutation_chance or 1 / len(population[0].genes)`.
   */
  function InitChecks(popSize: nat, firstGeneCount: nat, chance: Option<real>): (r: Result<real>)
    ensures r.Success? <==> 0 < popSize && popSize % 2 == 0 && (!Falsy(chance) || 0 < firstGeneCount)
    ensures popSize == 0 ==> r == Failure(ValueError("population is empty"))
    ensures 0 < popSize && popSize % 2 != 0 ==> r == Failure(ValueError("population has an odd number of agents"))
    ensures r.Success? && !Falsy(chance) ==> r.value == chance.value
    ensures r.Success? && Falsy(chance) ==> r.value * firstGeneCount as real == 1.0
    ensures 0 < popSize && popSize % 2 == 0 && Falsy(chance) && firstGeneCount == 0 ==> r == Failure(ZeroDivisionError)
  {
    if popSize == 0 then Failure(ValueError("population is empty"))
    else if popSize % 2 != 0 then Failure(ValueError("population has an odd number of agents"))
    else if !Falsy(chance) then Success(chance.value)
    else if firstGeneCount == 0 then Failure(ZeroDivisionError)
    else Success(1.0 / firstGeneCount as real)
  }

  /** An explicit chance of 0 is the same as none: it becomes 1 / gene count. */
  lemma ZeroChanceIsDefault(popSize: nat, firstGeneCount: nat)
    ensures InitChecks(popSize, firstGeneCount, Some(0.0)) == InitChecks(popSize, firstGeneCount, None)
  {
  }

  class GeneticAlgorithm {
    /** The callback given to the constructor; `run_single_iteration` never calls it. */
    const fitnessFunction: seq<real> -> real
    var population: seq<Agent>
    var mutationChance: real

    /** The population is never empty and always even. */
    ghost predicate Valid()
      reads this
    {
      0 < |population| && |population| % 2 == 0
    }

    constructor Init(fitness: seq<real> -> real, pop: seq<Agent>, chance: real)
      requires 0 < |pop| && |pop| % 2 == 0
      ensures Valid()
      ensures fitnessFunction == fitness && population == pop && mutationChance == chance
    {
      fitnessFunction, population, mutationChance := fitness, pop, chance;
    }

    /** `GeneticAlgorithm(fitness_function, population, mutation_chance)`, which raises on a bad population. */
    static method New(fitness: seq<real> -> real, pop: seq<Agent>, chance: Option<real>) returns (r: Result<GeneticAlgorithm>)
      ensures var checks := InitChecks(|pop|, if pop == [] then 0 else |pop[0].genes|, chance);
        && (r.Success? <==> checks.Success?)
        && (r.Failure? ==> r.error == checks.error)
        && (r.Success? ==> fresh(r.value) && r.value.Valid() && r.value.population == pop
                           && r.value.mutationChance == checks.value && r.value.fitnessFunction == fitness)
    {
      var checks := InitChecks(|pop|, if pop == [] then 0 else |pop[0].genes|, chance);
      if checks.Failure? {
        return Failure(checks.error);
      }
      var ga := new GeneticAlgorithm.Init(fitness, pop, checks.value);
      r := Success(ga);
    }

    /**
     * `GeneticAlgorithm.mutate(child)`: each gene whose gate draw is below
     * the mutation chance is mutated in place; the gene list itself is kept.
     */
    method Mutate(child: Agent, draws: nat -> GeneDraw) returns (r: Outcome)
      requires child.Valid()
      modifies child.genes
      ensures r.Pass? <==> MutateAll(old(child.Values()), draws, mutationChance).Success?
      ensures r.Pass? ==> child.Values() == MutateAll(old(child.Values()), draws, mutationChance).value
      ensures r.Fail? ==> r.error == StatisticsError && child.Values() == old(child.Values())
      ensures child.genes == old(child.genes)
    {
      ghost var vs, gs := child.Values(), child.genes;
      var n := |child.genes|;
      for i := 0 to n
        invariant child.genes == gs
        invariant forall k :: i <= k < n ==> gs[k].value == vs[k]
        invariant forall k :: 0 <= k < i ==> !MutationFails(vs, draws, mutationChance, k)
        invariant forall k :: 0 <= k < i ==> gs[k].value == MutatedAt(vs, draws, mutationChance, k)
      {
        if draws(i).gate < mutationChance {
          var o := MutateGene(child, child.genes[i], ResetRate, draws(i));
          if o.Fail? {
            assert MutationFails(vs, draws, mutationChance, i);
            return o;
          }
          assert gs[i].value == MutatedAt(vs, draws, mutationChance, i);
        }
      }
      r := Pass;
    }

    /**
     * `run(iterations)`: runs `iterations` generations and returns the best
     * agent seen with its score, or `None` when no generation was run. The
     * best of each generation is the last of its highest-scoring agents
     * (`sorted(...)[-1]`); it replaces the running best only when strictly
     * better, so the earliest of equal scores is kept. An iteration that
     * raises stops the run with its error.
     *
     * The ghost results record the run: `pops[g]` is the population
     * iteration `g` scored, `gens[g]` its gene values and `scores[g]` its
     * scores; the last entry of `gens` is the population left behind.
     */
    method Run(fitness: seq<real> -> real, draws: nat -> IterationDraws, iterations: int)
      returns (r: Result<Option<(Agent, real)>>, ghost pops: seq<seq<Agent>>, ghost gens: seq<seq<seq<real>>>,
               ghost scores: seq<seq<real>>)
      requires Valid() && forall g :: DrawsFit(draws(g), |population|)
      modifies this
      ensures Valid() && |population| == old(|population|) && mutationChance == old(mutationChance)
      ensures Evolution(gens, scores, fitness, draws, mutationChance)
      ensures gens[0] == old(PopulationValues(population)) && gens[|scores|] == PopulationValues(population)
      ensures |pops| == |scores| && (0 < |pops| ==> pops[0] == old(population))
      ensures forall g :: 0 <= g < |pops| ==> |pops[g]| == |gens[g]| == |scores[g]|
      ensures r.Success? ==> |scores| == if iterations < 0 then 0 else iterations
      ensures r.Failure? ==> |scores| < iterations && Stalls(gens, scores, fitness, draws, mutationChance, r.error)
      ensures r.Success? && iterations <= 0 ==> r.value == None
      ensures r.Success? && 0 < iterations ==>
        (&& AllNonEmpty(scores)
         && var (g, i) := BestIndex(scores);
           r.value == Some((pops[g][i], scores[g][i])) && pops[g][i].Values() == gens[g][i])
    {
      ghost var n := |population|;
      var best: Option<(Agent, real)> := None;
      pops, gens, scores := [], [PopulationValues(population)], [];
      var generation := 0;
      while generation < iterations
        invariant 0 <= generation == |scores| && generation <= if iterations < 0 then 0 else iterations
        invariant Valid() && |population| == n && mutationChance == old(mutationChance)
        invariant RunShape(n, pops, gens, scores) && Evolution(gens, scores, fitness, draws, mutationChance)
        invariant BestSoFar(best, pops, scores)
        invariant gens[0] == old(PopulationValues(population)) && gens[generation] == PopulationValues(population)
        invariant if generation == 0 then population == old(population) else pops[0] == old(population)
        invariant best.Some? ==> best.value.0.Values() == gens[BestIndex(scores).0][BestIndex(scores).1]
      {
        var failed, best', pops', gens', scores' := Advance(fitness, draws, generation, best, pops, gens, scores);
        if failed.Some? {
          return Failure(failed.value), pops, gens, scores;
        }
        best, pops, gens, scores := best', pops', gens', scores';
        generation := generation + 1;
      }
      r := Success(best);
    }

    /**
     * One iteration of `run` on its record so far: either the iteration
     * raises, leaving the population as it was, or the record grows by the
     * population just scored and the best agent is updated.
     */
    method Advance(fitness: seq<real> -> real, draws: nat -> IterationDraws, generation: nat,
                   best: Option<(Agent, real)>, ghost pops: seq<seq<Agent>>, ghost gens: seq<seq<seq<real>>>,
                   ghost scores: seq<seq<real>>)
      returns (failed: Option<Error>, best': Option<(Agent, real)>, ghost pops': seq<seq<Agent>>,
               ghost gens': seq<seq<seq<real>>>, ghost scores': seq<seq<real>>)
      requires Valid() && generation == |scores| && DrawsFit(draws(generation), |population|)
      requires RunShape(|population|, pops, gens, scores) && Evolution(gens, scores, fitness, draws, mutationChance)
      requires BestSoFar(best, pops, scores) && gens[generation] == PopulationValues(population)
      requires best.Some? ==> best.value.0.Values() == gens[BestIndex(scores).0][BestIndex(scores).1]
      modifies this
      ensures Valid() && |population| == old(|population|) && mutationChance == old(mutationChance)
      ensures failed.Some? ==>
        (&& population == old(population) && gens[generation] == PopulationValues(population)
         && Stalls(gens, scores, fitness, draws, mutationChance, failed.value))
      ensures failed.None? ==>
        && RunShape(|population|, pops', gens', scores') && Evolution(gens', scores', fitness, draws, mutationChance)
        && pops' == pops + [old(population)] && |scores'| == |scores| + 1 && gens'[0] == gens[0]
        && BestSoFar(best', pops', scores') && gens'[|scores'|] == PopulationValues(population)
        && (best'.Some? ==> best'.value.0.Values() == gens'[BestIndex(scores').0][BestIndex(scores').1])
    {
      var step := Keep(fitness, draws, generation, gens, scores, if best.Some? then best.value.0 else population[0]);
      if step.Failure? {
        return Some(step.error), best, pops, gens, scores;
      }
      var (previous, generationScores) := step.value;
      RunRecordPush(|population|, best, pops, gens, scores, previous, PopulationValues(population), generationScores);
      failed, best' := None, KeepBest(best, previous, generationScores);
      pops', gens', scores' := pops + [previous], gens + [PopulationValues(population)], scores + [generationScores];
    }

    /**
     * `Step`, together with what it leaves alone: the agents it returns and
     * any agent `kept` aside keep their gene values.
     */
    method Keep(fitness: seq<real> -> real, draws: nat -> IterationDraws, generation: nat,
                ghost gens: seq<seq<seq<real>>>, ghost scores: seq<seq<real>>, ghost kept: Agent)
      returns (step: Result<(seq<Agent>, seq<real>)>)
      requires Valid() && Evolution(gens, scores, fitness, draws, mutationChance) && generation == |scores|
      requires gens[|scores|] == PopulationValues(population) && DrawsFit(draws(|scores|), |population|)
      modifies this
      ensures Valid() && |population| == old(|population|) && mutationChance == old(mutationChance)
      ensures kept.Values() == old(kept.Values())
      ensures step.Failure? ==>
        (&& population == old(population) && gens[generation] == PopulationValues(population)
         && Stalls(gens, scores, fitness, draws, mutationChance, step.error))
      ensures step.Success? ==>
        (&& step.value.0 == old(population) && |step.value.1| == |population|
         && Evolution(gens + [PopulationValues(population)], scores + [step.value.1], fitness, draws, mutationChance)
         && forall k :: 0 <= k < |step.value.0| ==> step.value.0[k].Values() == gens[generation][k])
    {
      ghost var current := population;
      assert forall k :: 0 <= k < |current| ==> current[k].Values() == gens[generation][k];
      step := Step(fitness, draws, generation, gens, scores);
    }

    /**
     * `run_single_iteration()` inside `run`, described by the record of the
     * run: the generation is bred from the last recorded one, the previous
     * agents keep the recorded gene values, and so does any other agent.
     */
    method Step(fitness: seq<real> -> real, draws: nat -> IterationDraws, generation: nat,
                ghost gens: seq<seq<seq<real>>>, ghost scores: seq<seq<real>>)
      returns (step: Result<(seq<Agent>, seq<real>)>)
      requires Valid() && Evolution(gens, scores, fitness, draws, mutationChance) && generation == |scores|
      requires gens[|scores|] == PopulationValues(population) && DrawsFit(draws(|scores|), |population|)
      modifies this
      ensures Valid() && |population| == old(|population|) && mutationChance == old(mutationChance)
      ensures step.Failure? ==>
        (&& population == old(population) && gens[generation] == PopulationValues(population)
         && Stalls(gens, scores, fitness, draws, mutationChance, step.error))
      ensures step.Success? ==>
        (&& step.value.0 == old(population) && |step.value.1| == |population|
         && Evolution(gens + [PopulationValues(population)], scores + [step.value.1], fitness, draws, mutationChance))
    {
      ghost var vals := PopulationValues(population);
      step := RunSingleIteration(fitness, draws(generation));
      if step.Failure? {
        assert forall k :: 0 <= k < |population| ==> population[k].Values() == vals[k];
      } else {
        ghost var next := NextGeneration(vals, Scores(vals, fitness), draws(|scores|), mutationChance).value;
        GenesHoldValues(population, next);
        EvolutionPush(gens, scores, fitness, draws, mutationChance, next);
      }
    }

    /**
     * `run_single_iteration()`: scores the population with `fitness` (the
     * module-level name the source calls, not `fitnessFunction`), selects as
     * many parents as there are agents, crosses each consecutive pair over,
     * mutates both children and makes them the new population. Returns the
     * previous population and its scores; raises, leaving the population as
     * it was, when a tournament or a mutation fails.
     */
    method RunSingleIteration(fitness: seq<real> -> real, d: IterationDraws) returns (r: Result<(seq<Agent>, seq<real>)>)
      requires Valid() && DrawsFit(d, |population|)
      modifies this
      ensures Valid() && |population| == old(|population|) && mutationChance == old(mutationChance)
      ensures var vals := old(PopulationValues(population));
              var next := NextGeneration(vals, Scores(vals, fitness), d, mutationChance);
        && (r.Success? <==> next.Success?)
        && (r.Failure? ==> r.error == next.error && population == old(population))
        && (r.Success? ==> r.value == (old(population), Scores(vals, fitness)) && GenesHold(population, next.value))
      ensures r.Success? ==> forall i :: 0 <= i < |population| ==> fresh(population[i]) && population[i].Valid()
    {
      var scores, children := Reproduce(fitness, d, PopulationValues(population));
      if children.Failure? {
        return Failure(children.error);
      }
      var previous := population;
      population := children.value;
      r := Success((previous, scores));
    }

    /**
     * What `run_single_iteration` computes before it replaces the
     * population: the scores, the parents of the tournaments and their
     * children, or the error that stops it.
     */
    method Reproduce(fitness: seq<real> -> real, d: IterationDraws, ghost vals: seq<seq<real>>)
      returns (scores: seq<real>, r: Result<seq<Agent>>)
      requires Valid() && DrawsFit(d, |population|) && PopulationValues(population) == vals
      ensures var next := NextGeneration(vals, Scores(vals, fitness), d, mutationChance);
        && scores == Scores(vals, fitness)
        && (r.Success? <==> next.Success?)
        && (r.Failure? ==> r.error == next.error)
        && (r.Success? ==> GenesHold(r.value, next.value) && |r.value| == |vals|)
      ensures r.Success? ==> forall i :: 0 <= i < |r.value| ==> fresh(r.value[i]) && r.value[i].Valid()
    {
      scores := Scores(PopulationValues(population), fitness);
      var parents := SelectAll(scores, d, vals);
      if parents.Failure? {
        return scores, Failure(parents.error);
      }
      r := BreedParents(parents.value, vals, scores, d, SelectIndices(|vals|, scores, d.samples, |vals|).value);
    }

    /** The selection half of `run_single_iteration`: one tournament winner per agent. */
    method SelectAll(scores: seq<real>, d: IterationDraws, ghost vals: seq<seq<real>>) returns (parents: Result<seq<Agent>>)
      requires |scores| == |population| && DrawsFit(d, |population|) && PopulationValues(population) == vals
      ensures var sel := SelectIndices(|vals|, scores, d.samples, |vals|);
        && (parents.Success? <==> sel.Success?)
        && (parents.Failure? ==> parents.error == sel.error)
        && (parents.Success? ==> PopulationValues(parents.value) == Pick(vals, sel.value))
    {
      parents := SelectParents(population, scores, d.samples);
      if parents.Success? {
        PickValues(population, parents.value, SelectIndices(|vals|, scores, d.samples, |vals|).value);
      }
    }

    /**
     * The breeding half of `run_single_iteration`: the parents the
     * tournaments picked, at positions `idx`, bred pair by pair into the next
     * generation.
     */
    method BreedParents(parents: seq<Agent>, ghost vals: seq<seq<real>>, ghost scores: seq<real>, d: IterationDraws, ghost idx: seq<nat>)
      returns (r: Result<seq<Agent>>)
      requires |vals| == |scores| && 0 < |vals| && |vals| % 2 == 0 && DrawsFit(d, |vals|)
      requires SelectIndices(|vals|, scores, d.samples, |vals|) == Success(idx)
      requires PopulationValues(parents) == Pick(vals, idx)
      ensures var next := NextGeneration(vals, scores, d, mutationChance);
        && (r.Success? <==> next.Success?)
        && (r.Failure? ==> r.error == next.error)
        && (r.Success? ==> GenesHold(r.value, next.value) && |r.value| == |vals|)
      ensures r.Success? ==> forall i :: 0 <= i < |r.value| ==> fresh(r.value[i]) && r.value[i].Valid()
    {
      ghost var outcomes := NextGenerationPairs(vals, scores, d, mutationChance, idx);
      GenesHoldValues(parents, Pick(vals, idx));
      r := BreedAll(parents, Pick(vals, idx), d, outcomes);
    }

    /**
     * The inner loops of `run_single_iteration`: for each pair of
     * `grouper(parents, 2)`, the two crossover children, each mutated and
     * appended in turn. Only new objects are changed, so the parents keep
     * their gene values.
     */
    method BreedAll(parents: seq<Agent>, ghost pv: seq<seq<real>>, d: IterationDraws, ghost outcomes: seq<Result<(seq<real>, seq<real>)>>)
      returns (r: Result<seq<Agent>>)
      requires |parents| % 2 == 0 && |outcomes| == |parents| / 2 && forall k :: UnitDraw(d.cross(k).point)
      requires GenesHold(parents, pv) && PairsOf(outcomes, pv, d, mutationChance)
      ensures (r.Success? <==> Collect(outcomes).Success?) && (r.Failure? ==> r.error == Collect(outcomes).error)
      ensures r.Success? ==> GenesHold(r.value, Collect(outcomes).value)
      ensures r.Success? ==> forall i :: 0 <= i < |r.value| ==> fresh(r.value[i]) && r.value[i].Valid()
    {
      var children: seq<Agent> := [];
      ghost var kidVals: seq<seq<real>> := [];
      for k := 0 to |parents| / 2
        invariant Collect(outcomes[..k]) == Success(kidVals)
        invariant GenesHold(children, kidVals)
        invariant forall j :: 0 <= j < |children| ==> fresh(children[j]) && children[j].Valid()
      {
        PairValues(parents, pv, k);
        var kids := BreedNext(parents, pv, d, outcomes, k);
        CollectStep(outcomes, k, kidVals);
        if kids.Failure? {
          CollectFailureSticks(outcomes, k + 1);
          return Failure(kids.error);
        }
        ghost var kv := [outcomes[k].value.0, outcomes[k].value.1];
        GenesHoldAppend(children, kidVals, kids.value, kv);
        kidVals := kidVals + kv;
        children := children + kids.value;
      }
      assert outcomes[..|parents| / 2] == outcomes;
      r := Success(children);
    }

    /**
     * Breeding pair `k` of the parents, whose gene values are `pv`: the two
     * new agents hold the values of the pair's offspring, or the pair's error
     * is returned.
     */
    method BreedNext(parents: seq<Agent>, ghost pv: seq<seq<real>>, d: IterationDraws,
                     ghost outcomes: seq<Result<(seq<real>, seq<real>)>>, k: nat)
      returns (r: Result<seq<Agent>>)
      requires k < |outcomes| && 2 * |outcomes| <= |parents| && forall j :: UnitDraw(d.cross(j).point)
      requires 2 * |outcomes| <= |pv| && parents[2 * k].Values() == pv[2 * k] && parents[2 * k + 1].Values() == pv[2 * k + 1]
      requires PairsOf(outcomes, pv, d, mutationChance)
      ensures (r.Success? <==> outcomes[k].Success?) && (r.Failure? ==> r.error == outcomes[k].error)
      ensures r.Success? ==> GenesHold(r.value, [outcomes[k].value.0, outcomes[k].value.1])
      ensures r.Success? ==> |r.value| == 2 && forall j :: 0 <= j < 2 ==> fresh(r.value[j]) && r.value[j].Valid()
    {
      assert outcomes[k] == PairOffspring(pv, d, mutationChance, k);
      var kids := BreedPair(parents[2 * k], parents[2 * k + 1], pv[2 * k], pv[2 * k + 1], d.cross(k), d.mutation(2 * k), d.mutation(2 * k + 1));
      if kids.Failure? {
        return Failure(kids.error);
      }
      var (c1, c2) := kids.value;
      r := Success([c1, c2]);
      GenesHoldValues(r.value, [outcomes[k].value.0, outcomes[k].value.1]);
    }

    /** Crossover of one pair, then `self.mutate` of the first child and of the second. */
    method BreedPair(p1: Agent, p2: Agent, ghost v1: seq<real>, ghost v2: seq<real>, cd: CrossDraw, m1: nat -> GeneDraw, m2: nat -> GeneDraw)
      returns (r: Result<(Agent, Agent)>)
      requires UnitDraw(cd.point) && p1.Values() == v1 && p2.Values() == v2
      ensures var kids := Offspring(v1, v2, cd, m1, m2, mutationChance);
        && (r.Success? <==> kids.Success?)
        && (r.Failure? ==> r.error == kids.error)
        && (r.Success? ==> (r.value.0.Values(), r.value.1.Values()) == kids.value)
      ensures r.Success? ==> fresh(r.value.0) && fresh(r.value.1) && r.value.0.Valid() && r.value.1.Valid()
    {
      var c1, c2 := Crossover(p1, p2, CrossRate, cd);
      assert forall i :: 0 <= i < |c1.genes| ==> c1.genes[i] in c1.genes;
      assert forall i :: 0 <= i < |c2.genes| ==> c2.genes[i] in c2.genes;
      var o := MutatePair(c1, c2, m1, m2);
      if o.Fail? {
        return Failure(o.error);
      }
      r := Success((c1, c2));
    }

    /** `self.mutate` of the first child, then of the second: the first failure raises. */
    method MutatePair(c1: Agent, c2: Agent, m1: nat -> GeneDraw, m2: nat -> GeneDraw) returns (r: Outcome)
      requires c1.Valid() && c2.Valid() && Disjoint(c1.genes, c2.genes)
      modifies c1.genes, c2.genes
      ensures c1.Valid() && c2.Valid()
      ensures var n1, n2 := MutateAll(old(c1.Values()), m1, mutationChance), MutateAll(old(c2.Values()), m2, mutationChance);
        && (r.Pass? <==> n1.Success? && n2.Success?)
        && (r.Fail? ==> r.error == if n1.Failure? then n1.error else n2.error)
        && (r.Pass? ==> c1.Values() == n1.value && c2.Values() == n2.value)
    {
      ghost var gs1, gs2 := c1.genes, c2.genes;
      ghost var v2 := c2.Values();
      var o1 := Mutate(c1, m1);
      assert c2.Values() == v2 by {
        assert forall k :: 0 <= k < |gs2| ==> gs2[k] in gs2 && gs2[k] !in gs1;
      }
      if o1.Fail? {
        return o1;
      }
      ghost var v1 := c1.Values();
      r := Mutate(c2, m2);
      assert c1.Values() == v1 by {
        assert forall k :: 0 <= k < |gs1| ==> gs1[k] in gs1 && gs1[k] !in gs2;
      }
    }
  }

  /**
   * `[tournament_selection(self.population, scores) for _ in range(len(self.population))]`,
   * the first failing tournament raising.
   */
  method SelectParents(pop: seq<Agent>, scores: seq<real>, samples: nat -> seq<nat>) returns (r: Result<seq<Agent>>)
    requires |pop| == |scores|
    requires TournamentSize <= |pop| ==> forall i :: ValidSample(samples(i), TournamentSize, |pop|)
    ensures var idx := SelectIndices(|pop|, scores, samples, |pop|);
      && (r.Success? <==> idx.Success?)
      && (r.Failure? ==> r.error == idx.error)
      && (r.Success? ==> |r.value| == |pop| && forall k :: 0 <= k < |pop| ==> r.value[k] == pop[idx.value[k]])
  {
    var n := |pop|;
    var parents: seq<Agent> := [];
    ghost var idx: seq<nat> := [];
    for i := 0 to n
      invariant SelectIndices(n, scores, samples, i) == Success(idx)
      invariant |parents| == i && forall k :: 0 <= k < i ==> parents[k] == pop[idx[k]]
    {
      var p := TournamentSelection(pop, scores, TournamentSize, samples(i));
      if p.Failure? {
        return Failure(p.error);
      }
      idx := idx + [TournamentIndex(n, scores, TournamentSize, samples(i)).value];
      parents := parents + [p.value];
    }
    r := Success(parents);
  }
}
