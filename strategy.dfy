/**
 * The parameter mapping of strategy.py: a `Parameter` stores a normalised
 * value and maps it linearly onto [min, max); a strategy turns its
 * parameters into an agent's genes and writes an agent's genes back.
 */
module Strategy {
  import opened Wrappers
  import Genetic

  /** `Parameter.DEFAULT_RANGE_PERCENTAGE` */
  const DefaultRangePercentage: real := 0.5

  /**
   * The bound `Parameter` stores: `given or fallback`. A missing bound and an
   * explicit 0.0 are both falsy, so both fall back.
   */
  function Bound(given: Option<real>, fallback: real): (r: real)
    ensures given.Some? && given.value != 0.0 ==> r == given.value
    ensures given.None? || given.value == 0.0 ==> r == fallback
  {
    if given.Some? && given.value != 0.0 then given.value else fallback
  }

  /** The stored `min`: half the initial value below it unless a non-zero bound is given. */
  function LowerBound(initial: real, minVal: Option<real>): (r: real)
    ensures minVal.None? || minVal.value == 0.0 ==> r == initial / 2.0
    ensures minVal.Some? && minVal.value != 0.0 ==> r == minVal.value
  {
    Bound(minVal, initial - initial * DefaultRangePercentage)
  }

  /** The stored `max`: half the initial value above it unless a non-zero bound is given. */
  function UpperBound(initial: real, maxVal: Option<real>): (r: real)
    ensures maxVal.None? || maxVal.value == 0.0 ==> r == initial * 3.0 / 2.0
    ensures maxVal.Some? && maxVal.value != 0.0 ==> r == maxVal.value
  {
    Bound(maxVal, initial + initial * DefaultRangePercentage)
  }

  /**
   * The stored `value`: where `initial` sits between `lo` and `hi`, as a
   * fraction of the range. Equal bounds divide by zero.
   */
  function Normalise(initial: real, lo: real, hi: real): (r: Result<real>)
    ensures r.Failure? <==> lo == hi
    ensures r.Failure? ==> r.error == ZeroDivisionError
  {
    if hi - lo == 0.0 then Failure(ZeroDivisionError)
    else Success((initial - lo) / (hi - lo))
  }

  /** `get_value`'s formula: the point at fraction `v` of the way from `lo` to `hi`. */
  function ReadOut(lo: real, hi: real, v: real): real
  {
    lo + v * (hi - lo)
  }

  /** `x * y`, as a term the solver matches by its arguments. */
  function Mul(x: real, y: real): real
  {
    x * y
  }

  /** A product of positive numbers is positive. */
  lemma MulPos(x: real, y: real)
    requires 0.0 < x && 0.0 < y
    ensures 0.0 < Mul(x, y)
  {
  }

  /** A product of non-negative numbers is non-negative. */
  lemma MulNonNeg(x: real, y: real)
    requires 0.0 <= x && 0.0 <= y
    ensures 0.0 <= Mul(x, y)
  {
  }

  /** Mapping a normalised value back onto its range gives the initial value. */
  lemma NormaliseRoundTrip(initial: real, lo: real, hi: real)
    requires lo != hi
    ensures Normalise(initial, lo, hi).Success?
    ensures ReadOut(lo, hi, Normalise(initial, lo, hi).value) == initial
  {
    var v := (initial - lo) / (hi - lo);
    assert v * (hi - lo) == initial - lo;
  }

  /** Normalising a read-out recovers the fraction it was read at. */
  lemma NormaliseInverse(lo: real, hi: real, v: real)
    requires lo != hi
    ensures Normalise(ReadOut(lo, hi, v), lo, hi) == Success(v)
  {
    assert (lo + v * (hi - lo) - lo) / (hi - lo) == v;
  }

  /** An initial value in [lo, hi) normalises into [0, 1). */
  lemma NormaliseInUnit(initial: real, lo: real, hi: real)
    requires lo <= initial < hi
    ensures Normalise(initial, lo, hi).Success?
    ensures 0.0 <= Normalise(initial, lo, hi).value < 1.0
  {
    var a, b := initial - lo, hi - lo;
    assert a / b * b == a;
    if a / b >= 1.0 {
      assert false;
    }
  }

  /** An initial value equal to the upper bound normalises to exactly 1.0. */
  lemma NormaliseAtUpperBound(lo: real, hi: real)
    requires lo != hi
    ensures Normalise(hi, lo, hi) == Success(1.0)
  {
    assert (hi - lo) / (hi - lo) == 1.0;
  }

  /** A fraction in [0, 1) reads out inside [lo, hi). */
  lemma ReadOutInRange(lo: real, hi: real, v: real)
    requires lo < hi && 0.0 <= v < 1.0
    ensures lo <= ReadOut(lo, hi, v) < hi
  {
    MulPos(1.0 - v, hi - lo);
    assert hi - ReadOut(lo, hi, v) == Mul(1.0 - v, hi - lo);
    MulNonNeg(v, hi - lo);
    assert ReadOut(lo, hi, v) - lo == Mul(v, hi - lo);
  }

  /**
   * With both bounds left out and a non-zero initial value, the range is
   * initial/2 .. 3*initial/2 and the stored value is the midpoint 0.5; a
   * zero initial value collapses the range and divides by zero.
   */
  lemma DefaultBoundsNormalise(initial: real)
    ensures initial != 0.0 ==> Normalise(initial, LowerBound(initial, None), UpperBound(initial, None)) == Success(0.5)
    ensures initial == 0.0 ==> Normalise(initial, LowerBound(initial, None), UpperBound(initial, None)) == Failure(ZeroDivisionError)
  {
    var lo, hi := LowerBound(initial, None), UpperBound(initial, None);
    assert hi - lo == initial;
    assert initial - lo == initial / 2.0;
    if initial != 0.0 {
      assert (initial / 2.0) / initial == 0.5;
    }
  }

  /** A positive initial value with default bounds lies inside its range. */
  lemma DefaultBoundsContainInitial(initial: real)
    requires initial > 0.0
    ensures LowerBound(initial, None) < initial < UpperBound(initial, None)
  {
  }

  /**
   * `int(x)`: truncation toward zero, so the result never exceeds `x` in
   * magnitude and lies within 1 of it.
   */
  function Truncate(x: real): (r: int)
    ensures 0.0 <= x ==> 0 <= r && r as real <= x < r as real + 1.0
    ensures x < 0.0 ==> r <= 0 && r as real - 1.0 < x <= r as real
  {
    if x >= 0.0 then x.Floor else -((-x).Floor)
  }

  /** A whole number truncates to itself. */
  lemma TruncateWhole(n: int)
    ensures Truncate(n as real) == n
  {
    if n < 0 {
      assert (-(n as real)).Floor == -n;
    }
  }

  /**
   * A strategy parameter: bounds `min`, `max` and a normalised `value`, read
   * out as `min + value * (max - min)`. `IntParameter` overrides the reading
   * with its truncation (`IntValue` here); since the inherited constructor
   * checks the overridden reading against the initial value, it is built by
   * `NewInt`.
   */
  class Parameter {
    var min: real
    var max: real
    var value: real

    /** A parameter with the given fields. */
    constructor (lo: real, hi: real, v: real)
      ensures min == lo && max == hi && value == v
    {
      min, max, value := lo, hi, v;
    }

    /**
     * `Parameter(initial_value, min_val, max_val)`: the bounds, then the
     * normalised value; equal bounds raise `ZeroDivisionError`. On success
     * the parameter reads back as `initial`, so the closeness assertion of
     * the constructor holds (exactly, over the reals).
     */
    static method New(initial: real, minVal: Option<real>, maxVal: Option<real>) returns (r: Result<Parameter>)
      ensures r.Failure? <==> LowerBound(initial, minVal) == UpperBound(initial, maxVal)
      ensures r.Failure? ==> r.error == ZeroDivisionError
      ensures r.Success? ==> fresh(r.value)
      ensures r.Success? ==> && r.value.min == LowerBound(initial, minVal)
                             && r.value.max == UpperBound(initial, maxVal)
                             && Normalise(initial, r.value.min, r.value.max) == Success(r.value.value)
                             && r.value.GetValue() == initial
                             && IsClose(initial, r.value.GetValue())
    {
      var lo := LowerBound(initial, minVal);
      var hi := UpperBound(initial, maxVal);
      var v := Normalise(initial, lo, hi);
      if v.Failure? {
        return Failure(v.error);
      }
      NormaliseRoundTrip(initial, lo, hi);
      var p := new Parameter(lo, hi, v.value);
      r := Success(p);
    }

    /**
     * `get_value()`: the point at fraction `value` of the way from `min` to
     * `max`. It undoes `Normalise`, and a value in [0, 1) reads as a point of
     * [min, max) when `min < max`.
     */
    function GetValue(): (r: real)
      reads this
      ensures min != max ==> Normalise(r, min, max) == Success(value)
      ensures min < max && 0.0 <= value < 1.0 ==> min <= r < max
    {
      if min == max then ReadOut(min, max, value)
      else if min < max && 0.0 <= value < 1.0 then
        NormaliseInverse(min, max, value);
        ReadOutInRange(min, max, value);
        ReadOut(min, max, value)
      else
        NormaliseInverse(min, max, value);
        ReadOut(min, max, value)
    }

    /**
     * `IntParameter(initial_value, min_val, max_val)`: the constructor of
     * `Parameter`, whose closeness assertion now compares `initial` with the
     * truncated reading. It raises `ZeroDivisionError` on equal bounds and
     * `AssertionError` when `initial` is not close to its truncation.
     */
    static method NewInt(initial: real, minVal: Option<real>, maxVal: Option<real>) returns (r: Result<Parameter>)
      ensures r.Failure? <==> LowerBound(initial, minVal) == UpperBound(initial, maxVal) || !IsClose(initial, Truncate(initial) as real)
      ensures LowerBound(initial, minVal) == UpperBound(initial, maxVal) ==> r == Failure(ZeroDivisionError)
      ensures LowerBound(initial, minVal) != UpperBound(initial, maxVal) && !IsClose(initial, Truncate(initial) as real) ==>
        r == Failure(AssertionError)
      ensures r.Success? ==> fresh(r.value)
      ensures r.Success? ==> && r.value.min == LowerBound(initial, minVal)
                             && r.value.max == UpperBound(initial, maxVal)
                             && Normalise(initial, r.value.min, r.value.max) == Success(r.value.value)
                             && r.value.IntValue() == Truncate(initial)
    {
      r := New(initial, minVal, maxVal);
      if r.Success? && !IsClose(initial, r.value.IntValue() as real) {
        r := Failure(AssertionError);
      }
    }

    /** `IntParameter.get_value()`: `get_value()` truncated toward zero. */
    function IntValue(): (r: int)
      reads this
      ensures 0.0 <= GetValue() ==> r as real <= GetValue() < r as real + 1.0
      ensures GetValue() < 0.0 ==> r as real - 1.0 < GetValue() <= r as real
    {
      Truncate(GetValue())
    }
  }

  function Abs(x: real): real
  {
    if x < 0.0 then -x else x
  }

  /**
   * `math.isclose(a, b)` with its default tolerances: the difference is at
   * most 1e-9 times the larger magnitude.
   */
  predicate IsClose(a: real, b: real)
  {
    Abs(a - b) <= 0.000000001 * (if Abs(a) < Abs(b) then Abs(b) else Abs(a))
  }

  /** Every number is close to itself, so `Parameter`'s assertion never fails over the reals. */
  lemma IsCloseSelf(a: real)
    ensures IsClose(a, a)
  {
  }

  /**
   * An `IntParameter` built from a whole number passes the constructor's
   * assertion; one built from a number strictly between -1 and 1 other than
   * 0, or from 2.5, fails it.
   */
  lemma IntParameterCloseness(n: int, x: real)
    ensures IsClose(n as real, Truncate(n as real) as real)
    ensures 0.0 < Abs(x) < 1.0 ==> !IsClose(x, Truncate(x) as real)
    ensures !IsClose(2.5, Truncate(2.5) as real)
  {
    TruncateWhole(n);
    if 0.0 < Abs(x) < 1.0 {
      assert Truncate(x) == 0;
    }
    assert Truncate(2.5) == 2;
  }

  /** An integer parameter built from a whole number reads back as that number. */
  lemma IntValueOfWhole(p: Parameter, n: int)
    requires p.GetValue() == n as real
    ensures p.IntValue() == n
  {
    TruncateWhole(n);
  }

  /** The stored values of a list of parameters, in order. */
  function ParameterValues(ps: seq<Parameter>): (r: seq<real>)
    reads ps
    ensures |r| == |ps|
    ensures forall i :: 0 <= i < |ps| ==> r[i] == ps[i].value
  {
    if ps == [] then [] else [ps[0].value] + ParameterValues(ps[1..])
  }

  /** No parameter object occurs twice. */
  ghost predicate DistinctParameters(ps: seq<Parameter>)
  {
    forall i, j :: 0 <= i < j < |ps| ==> ps[i] != ps[j]
  }

  /**
   * The parameter values after `update_parameters_from_agent`: `zip` pairs
   * the first min(#genes, #parameters) of them with genes, which overwrite
   * them; the others keep their value.
   */
  function UpdatedValues(values: seq<real>, genes: seq<real>): (r: seq<real>)
    ensures |r| == |values|
    ensures forall i :: 0 <= i < |values| && i < |genes| ==> r[i] == genes[i]
    ensures forall i :: |genes| <= i < |values| ==> r[i] == values[i]
  {
    Genetic.Take(genes, |values|) + Genetic.Drop(values, |genes|)
  }

  /**
   * Making an agent from parameters without a 0.0 value and writing it back
   * changes nothing.
   */
  lemma UpdateAfterCreate(values: seq<real>, redraw: nat -> real)
    requires forall i :: 0 <= i < |values| ==> values[i] != 0.0
    ensures UpdatedValues(values, Genetic.CopyValues(values, redraw)) == values
  {
    Genetic.CopyExactWithoutZeros(values, redraw);
  }

  /**
   * Writing back an agent with one gene per parameter makes the parameter
   * values the agent's gene values, whatever they were before.
   */
  lemma UpdateFromFullAgent(values: seq<real>, genes: seq<real>)
    requires |genes| == |values|
    ensures UpdatedValues(values, genes) == genes
  {
  }

  /** A trading strategy, seen through its ordered parameters. */
  class Strategy {
    var parameters: seq<Parameter>

    /** `Strategy()`: no parameters yet. The start time is not modelled. */
    constructor ()
      ensures parameters == []
    {
      parameters := [];
    }

    /**
     * `create_agent_from_parameters()`: one new gene per parameter, in
     * order. `Gene(v)` re-randomises a 0.0 value, with `redraw` of its
     * position as the `random()` draw.
     */
    method CreateAgentFromParameters(redraw: nat -> real) returns (a: Genetic.Agent)
      ensures fresh(a) && a.Valid()
      ensures forall g :: g in a.genes ==> fresh(g)
      ensures |a.genes| == |parameters|
      ensures a.Values() == Genetic.CopyValues(ParameterValues(parameters), redraw)
    {
      var gs: seq<Genetic.Gene> := [];
      for i := 0 to |parameters|
        invariant |gs| == i
        invariant Genetic.Distinct(gs)
        invariant forall k :: 0 <= k < i ==> fresh(gs[k])
        invariant forall k :: 0 <= k < i ==> gs[k].value == Genetic.InitialValue(Some(parameters[k].value), redraw(k))
      {
        var g := new Genetic.Gene(Some(parameters[i].value), redraw(i));
        gs := gs + [g];
      }
      a := new Genetic.Agent(gs);
    }

    /**
     * `update_parameters_from_agent(agent)`: the code reads the name
     * `parameters` imported from the standard `symbol` module, an integer,
     * and so raises; the intended list of parameters is passed here as
     * `params`. Parameter `i` takes gene `i`'s value for every `i` both
     * lists have; bounds and the remaining values stay.
     */
    method UpdateParametersFromAgent(agent: Genetic.Agent, params: seq<Parameter>)
      requires DistinctParameters(params)
      modifies params
      ensures ParameterValues(params) == UpdatedValues(old(ParameterValues(params)), old(agent.Values()))
      ensures forall i :: 0 <= i < |params| ==> params[i].min == old(params[i].min) && params[i].max == old(params[i].max)
    {
      var genes := agent.Values();
      var n := if |genes| < |params| then |genes| else |params|;
      ghost var values := ParameterValues(params);
      for i := 0 to n
        invariant forall k :: 0 <= k < i ==> params[k].value == genes[k]
        invariant forall k :: i <= k < |params| ==> params[k].value == values[k]
        invariant forall k :: 0 <= k < |params| ==> params[k].min == old(params[k].min) && params[k].max == old(params[k].max)
      {
        params[i].value := genes[i];
      }
      assert ParameterValues(params) == UpdatedValues(values, genes);
    }
  }
}
