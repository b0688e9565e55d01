/**
 * The plate calculator of the weight-calculator component: from a target total
 * it subtracts the bar (and the collars, when they are on), loads the per-side
 * remainder greedily with the fixed list of plates, and derives the achieved
 * total, the signed difference from the target and the flattened list of
 * plates that the bar drawing shows.
 *
 * Weights are exact whole numbers of eighths of a kilogram (20 kg is 160), so
 * that every plate, the bar, the collars and half of any target that is a
 * whole number of quarter kilograms are whole.
 */
module WeightCalculator {
  import opened Arithmetic

  /** A weight in eighths of a kilogram. */
  type Weight = int

  const BarbellWeight: Weight := 160    // 20 kg
  const CollarWeight: Weight := 20      // 2.5 kg
  /** The standard plates, heaviest first: 25, 20, 15, 10, 5, 2.5 and 1.25 kg. */
  const PlateWeights: seq<Weight> := [200, 160, 120, 80, 40, 20, 10]
  const SmallestPlate: Weight := 10     // 1.25 kg

  /** A target the model can represent exactly: a whole number of quarter kilograms. */
  predicate WholeQuarterKg(w: Weight) { w % 2 == 0 }

  /** One stack of identical plates on one side of the bar. */
  datatype Plate = Plate(weight: Weight, count: nat)

  predicate Positive(ds: seq<Weight>)
  {
    forall i :: 0 <= i < |ds| ==> ds[i] > 0
  }

  predicate StrictlyDescending(ds: seq<Weight>)
  {
    forall i, j :: 0 <= i < j < |ds| ==> ds[i] > ds[j]
  }

  /**
   * The plates are listed in the order of the denominations ds (heaviest
   * first), each denomination at most once, each with at least one plate.
   */
  predicate FollowsOrder(plates: seq<Plate>, ds: seq<Weight>)
  {
    && (forall i :: 0 <= i < |plates| ==> plates[i].count >= 1 && plates[i].weight in ds)
    && (forall i, j :: 0 <= i < j < |plates| ==> plates[i].weight > plates[j].weight)
  }

  /** The weight of the bar and of the two collars when they are on. */
  function TotalBarbellWeight(useCollars: bool): Weight
  {
    BarbellWeight + (if useCollars then CollarWeight * 2 else 0)
  }

  /** Total weight of the plates on one side (the reduce over weight * count). */
  function Load(plates: seq<Plate>): Weight
  {
    if plates == [] then 0 else plates[0].count * plates[0].weight + Load(plates[1..])
  }

  /**
   * Greedy loading of `remaining` with the denominations ds in order: for each
   * denomination take Math.floor(remaining / d) plates when that is positive.
   * (For a positive divisor Dafny's division is the floor.)
   */
  function Greedy(remaining: Weight, ds: seq<Weight>): seq<Plate>
    requires Positive(ds)
    decreases |ds|
  {
    if ds == [] then []
    else
      var count := remaining / ds[0];
      if count > 0 then [Plate(ds[0], count)] + Greedy(remaining - count * ds[0], ds[1..])
      else Greedy(remaining, ds[1..])
  }

  /** Half of what is left of the target once the bar is subtracted. */
  function WeightPerSide(totalWeight: Weight, useCollars: bool): Weight
    requires WholeQuarterKg(totalWeight)
  {
    (totalWeight - TotalBarbellWeight(useCollars)) / 2
  }

  /** The breakdown the calculator shows for a target: empty when the bar alone reaches it. */
  function Plates(totalWeight: Weight, useCollars: bool): seq<Plate>
    requires WholeQuarterKg(totalWeight)
  {
    if totalWeight <= TotalBarbellWeight(useCollars) then []
    else Greedy(WeightPerSide(totalWeight, useCollars), PlateWeights)
  }

  function ActualWeight(totalWeight: Weight, useCollars: bool): Weight
    requires WholeQuarterKg(totalWeight)
  {
    TotalBarbellWeight(useCollars) + Load(Plates(totalWeight, useCollars)) * 2
  }

  /** Positive when the bar is under-loaded. */
  function WeightDifference(totalWeight: Weight, useCollars: bool): Weight
    requires WholeQuarterKg(totalWeight)
  {
    totalWeight - ActualWeight(totalWeight, useCollars)
  }

  // ------------------------------------------------------------ the method

  /** The memoised plate computation: one loop over the plate list. */
  method CalculatePlates(totalWeight: Weight, useCollars: bool) returns (plates: seq<Plate>)
    requires WholeQuarterKg(totalWeight)
    ensures plates == Plates(totalWeight, useCollars)
    ensures totalWeight <= TotalBarbellWeight(useCollars) ==> plates == []
    ensures FollowsOrder(plates, PlateWeights)
    ensures totalWeight > TotalBarbellWeight(useCollars) ==>
              0 <= Load(plates) <= WeightPerSide(totalWeight, useCollars) < Load(plates) + SmallestPlate
  {
    var totalBarbellWeight := BarbellWeight + (if useCollars then CollarWeight * 2 else 0);
    if totalWeight <= totalBarbellWeight {
      return [];
    }
    var weightPerSide := (totalWeight - totalBarbellWeight) / 2;
    PlateWeightsWellFormed();
    plates := LoadGreedily(weightPerSide, PlateWeights);
    PlatesFollowOrder(totalWeight, useCollars);
    PerSideBounds(totalWeight, useCollars);
  }

  /** The loop of the plate computation: for each plate, as many as fit in what remains. */
  method LoadGreedily(weightPerSide: Weight, plateWeights: seq<Weight>) returns (plates: seq<Plate>)
    requires Positive(plateWeights)
    ensures plates == Greedy(weightPerSide, plateWeights)
  {
    plates := [];
    var weightRemaining := weightPerSide;
    for i := 0 to |plateWeights|
      invariant plates + Greedy(weightRemaining, plateWeights[i..]) == Greedy(weightPerSide, plateWeights)
    {
      var plate := plateWeights[i];
      var plateCount := weightRemaining / plate;
      GreedyUnfold(weightRemaining, plateWeights, i);
      if plateCount > 0 {
        plates := plates + [Plate(plate, plateCount)];
        weightRemaining := weightRemaining - plateCount * plate;
      }
    }
    assert plateWeights[|plateWeights|..] == [];
  }

  /** One step of Greedy over a suffix of the denominations. */
  lemma GreedyUnfold(rem: Weight, ds: seq<Weight>, i: nat)
    requires Positive(ds) && i < |ds|
    ensures Positive(ds[i..]) && Positive(ds[i + 1..])
    ensures var c := rem / ds[i];
            Greedy(rem, ds[i..]) ==
              if c > 0 then [Plate(ds[i], c)] + Greedy(rem - c * ds[i], ds[i + 1..])
              else Greedy(rem, ds[i + 1..])
  {
    assert ds[i..][1..] == ds[i + 1..];
  }

  // ---------------------------------------------------- plate flattening

  function Repeat(w: Weight, n: nat): (r: seq<Weight>)
    ensures |r| == n && forall i :: 0 <= i < n ==> r[i] == w
  {
    seq(n, _ => w)
  }

  /** Each stack's weight repeated `count` times, stacks in list order. */
  function Flattened(plates: seq<Plate>): seq<Weight>
  {
    if plates == [] then [] else Repeat(plates[0].weight, plates[0].count) + Flattened(plates[1..])
  }

  function TotalCount(plates: seq<Plate>): nat
  {
    if plates == [] then 0 else plates[0].count + TotalCount(plates[1..])
  }

  function Sum(ws: seq<Weight>): Weight
  {
    if ws == [] then 0 else ws[0] + Sum(ws[1..])
  }

  /** The nested loops of the plate drawing. */
  method FlattenPlates(plates: seq<Plate>) returns (flattened: seq<Weight>)
    ensures flattened == Flattened(plates)
    ensures |flattened| == TotalCount(plates)
    ensures Sum(flattened) == Load(plates)
  {
    flattened := [];
    for k := 0 to |plates|
      invariant flattened == Flattened(plates[..k])
    {
      var plate := plates[k];
      for i := 0 to plate.count
        invariant flattened == Flattened(plates[..k]) + Repeat(plate.weight, i)
      {
        flattened := flattened + [plate.weight];
      }
      FlattenedAppend(plates[..k], [plate]);
      assert plates[..k + 1] == plates[..k] + [plate];
    }
    assert plates[..|plates|] == plates;
    FlattenedLength(plates);
    FlattenedSum(plates);
  }

  lemma {:induction false} FlattenedAppend(a: seq<Plate>, b: seq<Plate>)
    ensures Flattened(a + b) == Flattened(a) + Flattened(b)
  {
    if a == [] {
      assert a + b == b;
    } else {
      assert (a + b)[1..] == a[1..] + b;
      FlattenedAppend(a[1..], b);
    }
  }

  /** The drawing shows as many plates as the stacks hold. */
  lemma {:induction false} FlattenedLength(plates: seq<Plate>)
    ensures |Flattened(plates)| == TotalCount(plates)
  {
    if plates != [] {
      FlattenedLength(plates[1..]);
    }
  }

  lemma {:induction false} SumAppend(a: seq<Weight>, b: seq<Weight>)
    ensures Sum(a + b) == Sum(a) + Sum(b)
  {
    if a == [] {
      assert a + b == b;
    } else {
      assert (a + b)[1..] == a[1..] + b;
      SumAppend(a[1..], b);
    }
  }

  lemma {:induction false} SumRepeat(w: Weight, n: nat)
    ensures Sum(Repeat(w, n)) == n * w
  {
    if n > 0 {
      assert Repeat(w, n)[1..] == Repeat(w, n - 1);
      SumRepeat(w, n - 1);
    }
  }

  /** Drawing the plates one by one shows the same per-side weight as the stacks. */
  lemma {:induction false} FlattenedSum(plates: seq<Plate>)
    ensures Sum(Flattened(plates)) == Load(plates)
  {
    if plates != [] {
      SumAppend(Repeat(plates[0].weight, plates[0].count), Flattened(plates[1..]));
      SumRepeat(plates[0].weight, plates[0].count);
      FlattenedSum(plates[1..]);
    }
  }

  lemma {:induction false} RepeatCount(w: Weight, n: nat, x: Weight)
    ensures multiset(Repeat(w, n))[x] == if x == w then n else 0
  {
    if n > 0 {
      assert Repeat(w, n) == Repeat(w, n - 1) + [w];
      RepeatCount(w, n - 1, x);
    }
  }

  lemma {:induction false} FlattenedAbsent(plates: seq<Plate>, x: Weight)
    requires forall i :: 0 <= i < |plates| ==> plates[i].weight < x
    ensures multiset(Flattened(plates))[x] == 0
  {
    if plates != [] {
      RepeatCount(plates[0].weight, plates[0].count, x);
      FlattenedAbsent(plates[1..], x);
    }
  }

  /**
   * When the stacks are heaviest first with distinct weights, each weight is
   * drawn exactly as many times as its stack's count.
   */
  lemma {:induction false} FlattenedCounts(plates: seq<Plate>, k: nat)
    requires k < |plates|
    requires forall i, j :: 0 <= i < j < |plates| ==> plates[i].weight > plates[j].weight
    ensures multiset(Flattened(plates))[plates[k].weight] == plates[k].count
  {
    var w := plates[k].weight;
    RepeatCount(plates[0].weight, plates[0].count, w);
    if k == 0 {
      FlattenedAbsent(plates[1..], w);
    } else {
      FlattenedCounts(plates[1..], k - 1);
    }
  }

  // -------------------------------------------------- the greedy step

  /** c plates of weight d fit in rem, and c + 1 do not. */
  predicate MaximalCount(c: int, rem: Weight, d: Weight)
  {
    c * d <= rem < (c + 1) * d
  }

  /** Math.floor(rem / d) is the largest count of d that fits in rem, and the only one. */
  lemma FloorIsMaximal(rem: Weight, d: Weight, c: int)
    requires d > 0
    ensures MaximalCount(rem / d, rem, d)
    ensures MaximalCount(c, rem, d) ==> c == rem / d
  {
    var f := rem / d;
    assert rem == f * d + rem % d;
    assert (f + 1) * d == f * d + d;
    if MaximalCount(c, rem, d) {
      if c < f {
        MulMonotone(c + 1, f, d);
      } else if c > f {
        MulMonotone(f + 1, c, d);
      }
    }
  }

  /**
   * A relational description of greedy loading: a denomination that does not
   * fit is skipped; one that fits is taken in its maximal count and the rest
   * is loaded from what remains.
   */
  ghost predicate GreedyFit(rem: Weight, ds: seq<Weight>, plates: seq<Plate>)
    requires Positive(ds)
    decreases |ds|
  {
    if ds == [] then plates == []
    else if rem < ds[0] then GreedyFit(rem, ds[1..], plates)
    else
      && plates != []
      && plates[0].weight == ds[0]
      && MaximalCount(plates[0].count, rem, ds[0])
      && GreedyFit(rem - plates[0].count * ds[0], ds[1..], plates[1..])
  }

  /** The greedy breakdown is the one and only breakdown that is greedy at every step. */
  lemma {:induction false} GreedyIsGreedyFit(rem: Weight, ds: seq<Weight>, plates: seq<Plate>)
    requires Positive(ds)
    ensures GreedyFit(rem, ds, plates) <==> plates == Greedy(rem, ds)
    decreases |ds|
  {
    if ds != [] {
      var d := ds[0];
      var c := rem / d;
      FloorIsMaximal(rem, d, c);
      if rem < d {
        assert c <= 0 by {
          if c >= 1 { MulMonotone(1, c, d); }
        }
        GreedyIsGreedyFit(rem, ds[1..], plates);
      } else {
        assert c >= 1 by {
          if c <= 0 { MulMonotone(c + 1, 1, d); }
        }
        if plates != [] && plates[0].weight == d && MaximalCount(plates[0].count, rem, d) {
          FloorIsMaximal(rem, d, plates[0].count);
          GreedyIsGreedyFit(rem - c * d, ds[1..], plates[1..]);
        }
      }
    }
  }

  /** Stacks in the order of ds[1..] are in the order of ds, and a stack of ds[0] may go in front. */
  lemma ExtendOrder(p: Plate, tail: seq<Plate>, ds: seq<Weight>)
    requires StrictlyDescending(ds) && ds != [] && FollowsOrder(tail, ds[1..])
    requires p.count >= 1 && p.weight == ds[0]
    ensures FollowsOrder(tail, ds)
    ensures FollowsOrder([p] + tail, ds)
  {
    forall i | 0 <= i < |tail|
      ensures tail[i].weight in ds && tail[i].weight < ds[0]
    {
      var j :| 0 <= j < |ds| - 1 && ds[1..][j] == tail[i].weight;
      assert ds[j + 1] == tail[i].weight;
    }
    var g := [p] + tail;
    forall i, j | 0 <= i < j < |g|
      ensures g[i].weight > g[j].weight
    {
      assert g[j] == tail[j - 1];
      if i > 0 { assert g[i] == tail[i - 1]; }
    }
  }

  lemma {:induction false} GreedyFollowsOrder(rem: Weight, ds: seq<Weight>)
    requires Positive(ds) && StrictlyDescending(ds)
    ensures FollowsOrder(Greedy(rem, ds), ds)
    decreases |ds|
  {
    if ds != [] {
      var c := rem / ds[0];
      var rest := ds[1..];
      assert Positive(rest) && StrictlyDescending(rest);
      if c > 0 {
        var next := rem - c * ds[0];
        GreedyFollowsOrder(next, rest);
        ExtendOrder(Plate(ds[0], c), Greedy(next, rest), ds);
      } else {
        GreedyFollowsOrder(rem, rest);
        ExtendOrder(Plate(ds[0], 1), Greedy(rem, rest), ds);
      }
    }
  }

  /**
   * Greedy loading of a non-negative remainder never overshoots, and what it
   * cannot load is below the last (smallest) denomination.
   */
  lemma {:induction false} GreedyBounds(rem: Weight, ds: seq<Weight>)
    requires Positive(ds) && rem >= 0 && ds != []
    ensures 0 <= Load(Greedy(rem, ds)) <= rem
    ensures rem - Load(Greedy(rem, ds)) < ds[|ds| - 1]
    decreases |ds|
  {
    var d := ds[0];
    var c := rem / d;
    FloorIsMaximal(rem, d, c);
    var next := if c > 0 then rem - c * d else rem;
    assert 0 <= next < d;
    var g := Greedy(rem, ds);
    var tail := Greedy(next, ds[1..]);
    assert Load(g) == (if c > 0 then c * d else 0) + Load(tail) by {
      if c > 0 {
        assert g == [Plate(d, c)] + tail;
        assert g[1..] == tail;
      }
    }
    if |ds| > 1 {
      GreedyBounds(next, ds[1..]);
      assert ds[1..][|ds[1..]| - 1] == ds[|ds| - 1];
    } else {
      assert ds[1..] == [];
    }
  }

  // ------------------------------------------------- exact loading

  lemma MultipleStep(rem: Weight, d: Weight, c: int)
    requires rem % SmallestPlate == 0 && d % SmallestPlate == 0
    ensures (rem - c * d) % SmallestPlate == 0
  {
    var m := d / SmallestPlate;
    assert d == SmallestPlate * m;
    assert c * d == SmallestPlate * (c * m);
  }

  /**
   * A remainder that is a whole number of the smallest plate is loaded
   * exactly when every denomination is such a multiple and the smallest one
   * comes last.
   */
  lemma {:induction false} GreedyExact(rem: Weight, ds: seq<Weight>)
    requires Positive(ds) && ds != [] && ds[|ds| - 1] == SmallestPlate
    requires forall i :: 0 <= i < |ds| ==> ds[i] % SmallestPlate == 0
    requires rem >= 0 && rem % SmallestPlate == 0
    ensures Load(Greedy(rem, ds)) == rem
    decreases |ds|
  {
    var d := ds[0];
    var c := rem / d;
    FloorIsMaximal(rem, d, c);
    var next := if c > 0 then rem - c * d else rem;
    MultipleStep(rem, d, c);
    assert 0 <= next < d && next % SmallestPlate == 0;
    var g := Greedy(rem, ds);
    var tail := Greedy(next, ds[1..]);
    assert Load(g) == (if c > 0 then c * d else 0) + Load(tail) by {
      if c > 0 {
        assert g == [Plate(d, c)] + tail;
        assert g[1..] == tail;
      }
    }
    if |ds| > 1 {
      assert ds[1..][|ds[1..]| - 1] == ds[|ds| - 1];
      GreedyExact(next, ds[1..]);
    } else {
      assert next == 0;
      assert ds[1..] == [];
    }
  }

  lemma PlateWeightsWellFormed()
    ensures Positive(PlateWeights) && StrictlyDescending(PlateWeights)
    ensures PlateWeights[|PlateWeights| - 1] == SmallestPlate
    ensures forall i :: 0 <= i < |PlateWeights| ==> PlateWeights[i] % SmallestPlate == 0
  {
  }

  // ------------------------------------------- properties of the calculator

  /** At or below the bar (20 kg, 25 kg with collars) nothing is loaded and the bar is the total. */
  lemma NoPlatesAtOrBelowBar(totalWeight: Weight, useCollars: bool)
    requires WholeQuarterKg(totalWeight)
    requires totalWeight <= TotalBarbellWeight(useCollars)
    ensures TotalBarbellWeight(useCollars) == if useCollars then 200 else 160
    ensures Plates(totalWeight, useCollars) == []
    ensures ActualWeight(totalWeight, useCollars) == TotalBarbellWeight(useCollars)
    ensures WeightDifference(totalWeight, useCollars) == totalWeight - TotalBarbellWeight(useCollars) <= 0
  {
  }

  /** The breakdown lists plates heaviest first, each denomination at most once, counts at least one. */
  lemma PlatesFollowOrder(totalWeight: Weight, useCollars: bool)
    requires WholeQuarterKg(totalWeight)
    ensures FollowsOrder(Plates(totalWeight, useCollars), PlateWeights)
  {
    PlateWeightsWellFormed();
    if totalWeight > TotalBarbellWeight(useCollars) {
      GreedyFollowsOrder(WeightPerSide(totalWeight, useCollars), PlateWeights);
    }
  }

  /** Every stack in the breakdown is the largest count of its plate that fits what is left. */
  lemma PlatesAreGreedy(totalWeight: Weight, useCollars: bool)
    requires WholeQuarterKg(totalWeight)
    requires totalWeight > TotalBarbellWeight(useCollars)
    ensures GreedyFit(WeightPerSide(totalWeight, useCollars), PlateWeights, Plates(totalWeight, useCollars))
  {
    PlateWeightsWellFormed();
    GreedyIsGreedyFit(WeightPerSide(totalWeight, useCollars), PlateWeights, Plates(totalWeight, useCollars));
  }

  /**
   * Above the bar, the per-side load never exceeds half of what the bar
   * leaves, the shortfall per side is below 1.25 kg, and so the bar is
   * under-loaded by less than 2.5 kg and never over-loaded.
   */
  lemma PerSideBounds(totalWeight: Weight, useCollars: bool)
    requires WholeQuarterKg(totalWeight)
    requires totalWeight > TotalBarbellWeight(useCollars)
    ensures var load := Load(Plates(totalWeight, useCollars));
            0 <= load <= WeightPerSide(totalWeight, useCollars) < load + SmallestPlate
    ensures 0 <= WeightDifference(totalWeight, useCollars) < 2 * SmallestPlate
  {
    PlateWeightsWellFormed();
    GreedyBounds(WeightPerSide(totalWeight, useCollars), PlateWeights);
  }

  /** When half of what the bar leaves is k times 1.25 kg, the load is exact. */
  lemma ExactWhenMultiple(totalWeight: Weight, useCollars: bool, k: nat)
    requires WholeQuarterKg(totalWeight)
    requires totalWeight - TotalBarbellWeight(useCollars) == 2 * k * SmallestPlate
    ensures ActualWeight(totalWeight, useCollars) == totalWeight
    ensures WeightDifference(totalWeight, useCollars) == 0
  {
    if totalWeight > TotalBarbellWeight(useCollars) {
      PlateWeightsWellFormed();
      assert WeightPerSide(totalWeight, useCollars) == k * SmallestPlate;
      GreedyExact(WeightPerSide(totalWeight, useCollars), PlateWeights);
    }
  }

  /** 220 kg without collars is four 25 kg plates per side, exactly. */
  lemma Example220()
    ensures Plates(1760, false) == [Plate(200, 4)]
    ensures ActualWeight(1760, false) == 1760
    ensures WeightDifference(1760, false) == 0
  {
    var ds := PlateWeights;
    PlateWeightsWellFormed();
    assert WeightPerSide(1760, false) == 800;
    assert 800 / ds[0] == 4;
    assert Greedy(800, ds) == [Plate(200, 4)] + Greedy(0, ds[1..]);
    GreedyOfZero(ds[1..]);
    assert Load([Plate(200, 4)]) == 800;
  }

  /** Nothing to load, no plates. */
  lemma {:induction false} GreedyOfZero(ds: seq<Weight>)
    requires Positive(ds)
    ensures Greedy(0, ds) == []
    decreases |ds|
  {
    if ds != [] {
      assert 0 / ds[0] == 0;
      GreedyOfZero(ds[1..]);
    }
  }

  // --------------------------------------------------- the difference label

  /** What the calculator prints under the total: red "-x kg", green "+x kg", or nothing. */
  datatype DifferenceLabel = NoLabel | UnderLoaded(amount: Weight) | OverLoaded(amount: Weight)

  function Label(weightDifference: Weight): (l: DifferenceLabel)
    ensures l.NoLabel? <==> weightDifference == 0
    ensures l.UnderLoaded? <==> weightDifference > 0
    ensures l.UnderLoaded? ==> l.amount == weightDifference
    ensures l.OverLoaded? ==> l.amount > 0 && l.amount == -weightDifference
  {
    if weightDifference == 0 then NoLabel
    else if weightDifference > 0 then UnderLoaded(weightDifference)
    else OverLoaded(-weightDifference)
  }

  /** The calculator never reports an over-loaded bar for a target above the bar. */
  lemma NeverOverLoaded(totalWeight: Weight, useCollars: bool)
    requires WholeQuarterKg(totalWeight)
    requires totalWeight > TotalBarbellWeight(useCollars)
    ensures !Label(WeightDifference(totalWeight, useCollars)).OverLoaded?
  {
    PerSideBounds(totalWeight, useCollars);
  }
}
