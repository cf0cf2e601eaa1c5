/** Level Boltzmann factors and partition functions (the partition_function
    plasma properties). Tables are indexed by cell (one column of the
    source's DataFrames), then by level or by ion. exp is passed in as a
    value. */
module Partition {
  import opened Common
  import AtomicData

  type Level = AtomicData.LevelRow

  /** (atomic_number, ion_number): the first two levels of the level index. */
  type IonKey = (int, int)

  function IonOf(level: Level): IonKey
  {
    (level.atomicNumber, level.ionNumber)
  }

  /** The exponent -E beta_rad of one level in one cell. */
  function Exponent(level: Level, betaRad: real): real
  {
    -(level.energy * betaRad)
  }

  /** g exp(-E beta_rad) of one level in one cell. */
  function BoltzmannFactor(level: Level, betaRad: real, exp: real -> real): real
  {
    level.g * exp(Exponent(level, betaRad))
  }

  /** A level with positive weight whose exponential is positive has a
      positive factor. */
  lemma BoltzmannFactorPositive(level: Level, betaRad: real, exp: real -> real)
    requires level.g > 0.0 && exp(Exponent(level, betaRad)) > 0.0
    ensures BoltzmannFactor(level, betaRad, exp) > 0.0
  {
    var e := exp(Exponent(level, betaRad));
    MulSign(level.g, e);
    assert BoltzmannFactor(level, betaRad, exp) == level.g * e;
  }

  /** LevelBoltzmannFactorLTE: one factor per cell and level. */
  function LTETable(levels: seq<Level>, betaRad: seq<real>, exp: real -> real): (f: seq<seq<real>>)
    ensures |f| == |betaRad|
  {
    seq(|betaRad|, c requires 0 <= c < |betaRad| =>
      seq(|levels|, l requires 0 <= l < |levels| => BoltzmannFactor(levels[l], betaRad[c], exp)))
  }

  /** The dilute factor: the LTE factor for metastable levels, the LTE
      factor times the cell's dilution factor w for the others. */
  function DiluteFactor(level: Level, betaRad: real, w: real, exp: real -> real): real
  {
    if level.metastable then BoltzmannFactor(level, betaRad, exp) else BoltzmannFactor(level, betaRad, exp) * w
  }

  function DiluteTable(levels: seq<Level>, betaRad: seq<real>, w: seq<real>, exp: real -> real): (f: seq<seq<real>>)
    requires |w| == |betaRad|
    ensures |f| == |betaRad|
  {
    seq(|betaRad|, c requires 0 <= c < |betaRad| =>
      seq(|levels|, l requires 0 <= l < |levels| => DiluteFactor(levels[l], betaRad[c], w[c], exp)))
  }

  /** LevelBoltzmannFactorDiluteLTE: the LTE table, then the rows of the
      non-metastable levels multiplied in place by w. */
  method DiluteLTE(levels: seq<Level>, betaRad: seq<real>, w: seq<real>, exp: real -> real)
    returns (factor: seq<seq<real>>)
    requires |w| == |betaRad|
    ensures factor == DiluteTable(levels, betaRad, w, exp)
  {
    factor := LTETable(levels, betaRad, exp);
    for l := 0 to |levels|
      invariant |factor| == |betaRad|
      invariant forall c :: 0 <= c < |betaRad| ==> |factor[c]| == |levels|
      invariant forall c, k :: 0 <= c < |betaRad| && 0 <= k < l ==>
                  factor[c][k] == DiluteFactor(levels[k], betaRad[c], w[c], exp)
      invariant forall c, k :: 0 <= c < |betaRad| && l <= k < |levels| ==>
                  factor[c][k] == BoltzmannFactor(levels[k], betaRad[c], exp)
    {
      if !levels[l].metastable {
        var old_ := factor;
        factor := seq(|betaRad|, c requires 0 <= c < |betaRad| => old_[c][l := old_[c][l] * w[c]]);
      }
    }
    ghost var target := DiluteTable(levels, betaRad, w, exp);
    forall c | 0 <= c < |betaRad|
      ensures factor[c] == target[c]
    {
    }
  }

  /** With w = 1 in every cell the dilute factors are the LTE factors. */
  lemma DiluteUnitWeight(levels: seq<Level>, betaRad: seq<real>, w: seq<real>, exp: real -> real)
    requires |w| == |betaRad|
    requires forall c :: 0 <= c < |w| ==> w[c] == 1.0
    ensures DiluteTable(levels, betaRad, w, exp) == LTETable(levels, betaRad, exp)
  {
    var d, t := DiluteTable(levels, betaRad, w, exp), LTETable(levels, betaRad, exp);
    forall c | 0 <= c < |betaRad|
      ensures d[c] == t[c]
    {
    }
  }

  /** Metastable levels keep their LTE factor and the others are diluted by
      w; so with positive weights, exponentials and dilution factors every
      dilute factor is positive. */
  lemma DilutePositive(level: Level, betaRad: real, w: real, exp: real -> real)
    requires level.g > 0.0 && exp(Exponent(level, betaRad)) > 0.0 && w > 0.0
    ensures DiluteFactor(level, betaRad, w, exp) > 0.0
    ensures level.metastable ==> DiluteFactor(level, betaRad, w, exp) == BoltzmannFactor(level, betaRad, exp)
  {
    BoltzmannFactorPositive(level, betaRad, exp);
    MulSign(BoltzmannFactor(level, betaRad, exp), w);
  }

  /** The sum of a per-level column over the levels of one ion. */
  function IonSum(levels: seq<Level>, column: seq<real>, key: IonKey): real
    requires |column| == |levels|
  {
    if |levels| == 0 then 0.0
    else
      var n := |levels| - 1;
      IonSum(levels[..n], column[..n], key) + (if IonOf(levels[n]) == key then column[n] else 0.0)
  }

  predicate DistinctKeys(keys: seq<IonKey>)
  {
    forall i, j :: 0 <= i < j < |keys| ==> keys[i] != keys[j]
  }

  /** The group keys cover the levels: they are distinct and every level's
      ion is among them. */
  predicate Covers(levels: seq<Level>, keys: seq<IonKey>)
  {
    DistinctKeys(keys) && forall l :: 0 <= l < |levels| ==> IonOf(levels[l]) in keys
  }

  /** PartitionFunction of one cell: for each ion key the sum of its levels'
      factors. */
  function PartitionColumn(levels: seq<Level>, column: seq<real>, keys: seq<IonKey>): (z: seq<real>)
    requires |column| == |levels|
    ensures |z| == |keys|
  {
    seq(|keys|, i requires 0 <= i < |keys| => IonSum(levels, column, keys[i]))
  }

  /** PartitionFunction: the group sum in every cell. */
  function PartitionTable(levels: seq<Level>, factor: seq<seq<real>>, keys: seq<IonKey>): (z: seq<seq<real>>)
    requires forall c :: 0 <= c < |factor| ==> |factor[c]| == |levels|
    ensures |z| == |factor|
  {
    seq(|factor|, c requires 0 <= c < |factor| => PartitionColumn(levels, factor[c], keys))
  }

  /** Summing an ion's levels sees every one of them: with non-negative
      entries each level's entry is at most its ion's sum. */
  lemma {:induction false} IonSumBoundsMember(levels: seq<Level>, column: seq<real>, l: nat)
    requires |column| == |levels| && l < |levels|
    requires forall k :: 0 <= k < |column| ==> column[k] >= 0.0
    ensures 0.0 <= column[l] <= IonSum(levels, column, IonOf(levels[l]))
  {
    var n := |levels| - 1;
    IonSumNonNegative(levels[..n], column[..n], IonOf(levels[l]));
    if l < n {
      IonSumBoundsMember(levels[..n], column[..n], l);
    }
  }

  lemma {:induction false} IonSumNonNegative(levels: seq<Level>, column: seq<real>, key: IonKey)
    requires |column| == |levels|
    requires forall k :: 0 <= k < |column| ==> column[k] >= 0.0
    ensures IonSum(levels, column, key) >= 0.0
  {
    if |levels| > 0 {
      IonSumNonNegative(levels[..|levels| - 1], column[..|levels| - 1], key);
    }
  }

  /** An ion with at least one level, all of positive factor, has a
      positive partition function. */
  lemma IonSumPositive(levels: seq<Level>, column: seq<real>, l: nat)
    requires |column| == |levels| && l < |levels|
    requires forall k :: 0 <= k < |column| ==> column[k] > 0.0
    ensures IonSum(levels, column, IonOf(levels[l])) > 0.0
  {
    IonSumBoundsMember(levels, column, l);
  }

  /** Summing over an ion reads only that ion's entries. */
  lemma {:induction false} IonSumCongruent(levels: seq<Level>, a: seq<real>, b: seq<real>, key: IonKey)
    requires |a| == |levels| && |b| == |levels|
    requires forall l :: 0 <= l < |levels| && IonOf(levels[l]) == key ==> a[l] == b[l]
    ensures IonSum(levels, a, key) == IonSum(levels, b, key)
  {
    if |levels| > 0 {
      var n := |levels| - 1;
      IonSumCongruent(levels[..n], a[..n], b[..n], key);
    }
  }

  /** Scaling every entry scales the ion's sum. */
  lemma {:induction false} IonSumScale(levels: seq<Level>, s: real, column: seq<real>, scaled: seq<real>, key: IonKey)
    requires |column| == |levels| && |scaled| == |levels|
    requires forall k :: 0 <= k < |levels| ==> scaled[k] == s * column[k]
    ensures IonSum(levels, scaled, key) == s * IonSum(levels, column, key)
  {
    if |levels| > 0 {
      var n := |levels| - 1;
      IonSumScale(levels[..n], s, column[..n], scaled[..n], key);
      var rest := IonSum(levels[..n], column[..n], key);
      var last := if IonOf(levels[n]) == key then column[n] else 0.0;
      assert s * (rest + last) == s * rest + s * last;
    }
  }

  /** Dividing every entry of an ion by t divides the ion's sum by t. */
  lemma {:induction false} IonSumDivide(levels: seq<Level>, column: seq<real>, divided: seq<real>, t: real, key: IonKey)
    requires |column| == |levels| && |divided| == |levels| && t != 0.0
    requires forall k :: 0 <= k < |levels| && IonOf(levels[k]) == key ==> divided[k] == column[k] / t
    ensures IonSum(levels, divided, key) == IonSum(levels, column, key) / t
  {
    if |levels| > 0 {
      var n := |levels| - 1;
      IonSumDivide(levels[..n], column[..n], divided[..n], t, key);
      var rest := IonSum(levels[..n], column[..n], key);
      var last := if IonOf(levels[n]) == key then column[n] else 0.0;
      assert rest / t + last / t == (rest + last) / t;
    }
  }

  /** The partition functions of all ions add up to the sum of all levels'
      factors: the group sum splits the levels without loss or overlap. */
  lemma {:induction false} PartitionColumnTotal(levels: seq<Level>, column: seq<real>, keys: seq<IonKey>)
    requires |column| == |levels| && Covers(levels, keys)
    ensures Sum(PartitionColumn(levels, column, keys)) == Sum(column)
  {
    var z := PartitionColumn(levels, column, keys);
    if |levels| == 0 {
      assert z == Zeros(|keys|);
    } else {
      var n := |levels| - 1;
      var front, frontColumn := levels[..n], column[..n];
      assert Covers(front, keys) by {
        assert forall l :: 0 <= l < n ==> front[l] == levels[l];
      }
      PartitionColumnTotal(front, frontColumn, keys);
      var zFront := PartitionColumn(front, frontColumn, keys);
      var i0 :| 0 <= i0 < |keys| && keys[i0] == IonOf(levels[n]);
      assert z == zFront[i0 := zFront[i0] + column[n]];
      SumUpdate(zFront, i0, zFront[i0] + column[n]);
    }
  }
}
