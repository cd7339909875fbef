/**
 * The ordering used by the monitor tracker of fastNLP's callbacks.
 *
 * Monitor values are only ever compared, never computed, so a float is
 * modelled as an element of the extended reals: the two infinities that
 * serve as sentinels and the finite values in between (NaN is not modelled).
 */
module MonitorOrder {

  /** A monitor value: `float('-inf')`, a finite float, or `float('inf')`. */
  datatype Value = NegInf | Fin(x: real) | PosInf

  /** Python's `<` on floats without NaN: −∞ below every finite value, +∞ above. */
  predicate Less(a: Value, b: Value)
  {
    match (a, b)
    case (NegInf, NegInf) => false
    case (NegInf, _) => true
    case (Fin(x), Fin(y)) => x < y
    case (Fin(_), PosInf) => true
    case (_, _) => false
  }

  /**
   * `is_former_monitor_value_better(v1, v2)` for a tracker whose direction is
   * `largerBetter`: strictly greater when larger is better, strictly smaller
   * otherwise. Ties are never better. The first ensures is the definition
   * written out for callers, one direction per branch.
   */
  predicate Better(largerBetter: bool, v1: Value, v2: Value): (b: bool)
    ensures b == (if largerBetter then Less(v2, v1) else Less(v1, v2))
    ensures b ==> v1 != v2
  {
    (largerBetter && Less(v2, v1)) || (!largerBetter && Less(v1, v2))
  }

  /**
   * The sentinel `set_monitor` stores: the worst value for the direction.
   * Every other value beats it, and it beats nothing.
   */
  function Worst(largerBetter: bool): (w: Value)
    ensures forall v :: v != w ==> Better(largerBetter, v, w)
    ensures forall v :: !Better(largerBetter, w, v)
  {
    if largerBetter then NegInf else PosInf
  }

  /** The stored value after offering `v` with `keep_if_better=True`. */
  function Keep(largerBetter: bool, current: Value, v: Value): Value
  {
    if Better(largerBetter, v, current) then v else current
  }

  /**
   * The stored value after offering each of `vs`, in order and with
   * `keep_if_better=True`, to a tracker freshly reset by `set_monitor`.
   */
  function BestOf(largerBetter: bool, vs: seq<Value>): Value
    decreases |vs|
  {
    if vs == [] then Worst(largerBetter)
    else Keep(largerBetter, BestOf(largerBetter, vs[..|vs| - 1]), vs[|vs| - 1])
  }

  /** Equal values are never better than each other, in either direction. */
  lemma NeverBetterOnTie(largerBetter: bool, v: Value)
    ensures !Better(largerBetter, v, v)
  {
  }

  /** Of two distinct values, exactly one is better than the other. */
  lemma ExactlyOneOrderBetter(largerBetter: bool, v1: Value, v2: Value)
    ensures v1 != v2 <==> Better(largerBetter, v1, v2) != Better(largerBetter, v2, v1)
  {
  }

  /** Being better is transitive, whatever the direction. */
  lemma BetterTransitive(largerBetter: bool, v1: Value, v2: Value, v3: Value)
    ensures Better(largerBetter, v1, v2) && Better(largerBetter, v2, v3) ==> Better(largerBetter, v1, v3)
  {
  }

  /** Turning the direction around is the same as swapping the arguments. */
  lemma DirectionSwapsArguments(largerBetter: bool, v1: Value, v2: Value)
    ensures Better(!largerBetter, v1, v2) == Better(largerBetter, v2, v1)
  {
  }

  /** On finite values the comparator is `>` when larger is better and `<` otherwise. */
  lemma BetterOnFinite(largerBetter: bool, x: real, y: real)
    ensures Better(largerBetter, Fin(x), Fin(y)) == (if largerBetter then x > y else x < y)
  {
  }

  /** Offering one more value never makes the stored value worse. */
  lemma KeepNeverWorse(largerBetter: bool, vs: seq<Value>, v: Value)
    ensures var before, after := BestOf(largerBetter, vs), BestOf(largerBetter, vs + [v]);
      after == before || Better(largerBetter, after, before)
    ensures BestOf(largerBetter, vs + [v]) == Keep(largerBetter, BestOf(largerBetter, vs), v)
  {
  }

  /**
   * Starting from the sentinel, the stored value is the best value offered:
   * it is one of the offered values (the sentinel when none was offered),
   * and no offered value is better than it.
   */
  lemma {:induction false} BestOfIsBest(largerBetter: bool, vs: seq<Value>)
    ensures vs == [] ==> BestOf(largerBetter, vs) == Worst(largerBetter)
    ensures vs != [] ==> BestOf(largerBetter, vs) in vs
    ensures forall i :: 0 <= i < |vs| ==> !Better(largerBetter, vs[i], BestOf(largerBetter, vs))
    decreases |vs|
  {
    if vs != [] {
      var init, last := vs[..|vs| - 1], vs[|vs| - 1];
      var prev := BestOf(largerBetter, init);
      BestOfIsBest(largerBetter, init);
      assert vs == init + [last];
      var best := BestOf(largerBetter, vs);
      assert best == Keep(largerBetter, prev, last);
      if Better(largerBetter, last, prev) {
        assert best == last;
        forall i | 0 <= i < |init|
          ensures !Better(largerBetter, vs[i], best)
        {
          assert vs[i] == init[i];
          BetterTransitive(largerBetter, vs[i], last, prev);
        }
        NeverBetterOnTie(largerBetter, last);
      } else {
        assert best == prev;
        forall i | 0 <= i < |init|
          ensures !Better(largerBetter, vs[i], best)
        {
          assert vs[i] == init[i];
        }
      }
    }
  }

  /**
   * With larger-is-better and only finite values offered, the stored value
   * is their maximum (one of them, and no smaller than any); with
   * smaller-is-better, their minimum.
   */
  lemma {:induction false} BestOfFiniteIsExtremum(largerBetter: bool, vs: seq<Value>, i: nat)
    requires i < |vs|
    requires forall k :: 0 <= k < |vs| ==> vs[k].Fin?
    ensures BestOf(largerBetter, vs).Fin? && BestOf(largerBetter, vs) in vs
    ensures largerBetter ==> vs[i].x <= BestOf(largerBetter, vs).x
    ensures !largerBetter ==> BestOf(largerBetter, vs).x <= vs[i].x
  {
    BestOfIsBest(largerBetter, vs);
    assert !Better(largerBetter, vs[i], BestOf(largerBetter, vs));
  }
}
