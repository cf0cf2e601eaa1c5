/** Level population fractions and level number densities (the
    level_population plasma properties): each level's Boltzmann factor over
    its ion's partition function, then that fraction times its ion's number
    density. Tables are indexed by cell, then by level or by ion; the ion
    tables share one sequence of ion keys. A missing ion key or a zero
    partition function (a NaN or infinite entry in the source) is None. */
module LevelPopulation {
  import opened Common
  import Partition

  type Level = Partition.Level
  type IonKey = Partition.IonKey

  /** The row of an ion key in the ion index: its first occurrence. */
  function IndexOf(keys: seq<IonKey>, key: IonKey): (r: Option<nat>)
    ensures r.Some? ==> r.value < |keys| && keys[r.value] == key && key !in keys[..r.value]
    ensures r.None? ==> key !in keys
  {
    if |keys| == 0 then None
    else if keys[0] == key then Some(0)
    else match IndexOf(keys[1..], key)
      case None => None
      case Some(i) =>
        assert keys[..i + 1] == [keys[0]] + keys[1..][..i];
        Some(i + 1)
  }

  /** With distinct keys the row of the i-th key is i. */
  lemma {:induction false} IndexOfDistinct(keys: seq<IonKey>, i: nat)
    requires Partition.DistinctKeys(keys) && i < |keys|
    ensures IndexOf(keys, keys[i]) == Some(i)
  {
    assert keys[i] in keys;
  }

  /** The fraction of one level: its factor over its ion's partition
      function. */
  function LevelFraction(level: Level, factor: real, z: seq<real>, keys: seq<IonKey>): Option<real>
    requires |z| == |keys|
  {
    match IndexOf(keys, Partition.IonOf(level))
    case None => None
    case Some(i) => if z[i] == 0.0 then None else Some(factor / z[i])
  }

  /** LevelPopulationFraction of one cell. */
  function FractionColumn(levels: seq<Level>, column: seq<real>, z: seq<real>, keys: seq<IonKey>): (r: seq<Option<real>>)
    requires |column| == |levels| && |z| == |keys|
    ensures |r| == |levels|
  {
    seq(|levels|, l requires 0 <= l < |levels| => LevelFraction(levels[l], column[l], z, keys))
  }

  /** LevelPopulationFraction: the fractions in every cell. */
  function FractionTable(levels: seq<Level>, factor: seq<seq<real>>, z: seq<seq<real>>, keys: seq<IonKey>): (r: seq<seq<Option<real>>>)
    requires |z| == |factor|
    requires forall c :: 0 <= c < |factor| ==> |factor[c]| == |levels| && |z[c]| == |keys|
    ensures |r| == |factor|
  {
    seq(|factor|, c requires 0 <= c < |factor| => FractionColumn(levels, factor[c], z[c], keys))
  }

  /** The number density of one level: its fraction times its ion's number
      density. */
  function LevelDensity(level: Level, fraction: Option<real>, n: seq<real>, keys: seq<IonKey>): Option<real>
    requires |n| == |keys|
  {
    match fraction
    case None => None
    case Some(f) =>
      match IndexOf(keys, Partition.IonOf(level))
      case None => None
      case Some(i) => Some(f * n[i])
  }

  /** LevelNumberDensity of one cell. */
  function DensityColumn(levels: seq<Level>, fraction: seq<Option<real>>, n: seq<real>, keys: seq<IonKey>): (r: seq<Option<real>>)
    requires |fraction| == |levels| && |n| == |keys|
    ensures |r| == |levels|
  {
    seq(|levels|, l requires 0 <= l < |levels| => LevelDensity(levels[l], fraction[l], n, keys))
  }

  /** LevelNumberDensity: the densities in every cell. */
  function DensityTable(levels: seq<Level>, fraction: seq<seq<Option<real>>>, n: seq<seq<real>>, keys: seq<IonKey>): (r: seq<seq<Option<real>>>)
    requires |n| == |fraction|
    requires forall c :: 0 <= c < |fraction| ==> |fraction[c]| == |levels| && |n[c]| == |keys|
    ensures |r| == |fraction|
  {
    seq(|fraction|, c requires 0 <= c < |fraction| => DensityColumn(levels, fraction[c], n[c], keys))
  }

  /** Missing entries read as zero, as a sum over them would skip them. */
  function OrZero(s: seq<Option<real>>): (r: seq<real>)
    ensures |r| == |s|
  {
    seq(|s|, k requires 0 <= k < |s| => if s[k].Some? then s[k].value else 0.0)
  }

  /** A level of ion keys[i], whose partition function z[i] is not zero,
      has fraction factor / z[i]. */
  lemma {:induction false} FractionOfIon(levels: seq<Level>, column: seq<real>, z: seq<real>, keys: seq<IonKey>, i: nat, l: nat)
    requires |column| == |levels| && |z| == |keys| && Partition.DistinctKeys(keys)
    requires i < |keys| && z[i] != 0.0 && l < |levels| && Partition.IonOf(levels[l]) == keys[i]
    ensures FractionColumn(levels, column, z, keys)[l] == Some(column[l] / z[i])
  {
    IndexOfDistinct(keys, i);
  }

  /** The fractions of the levels of an ion whose partition function is
      the sum of its factors, and not zero, add up to one. */
  lemma {:induction false} FractionsSumToOne(levels: seq<Level>, column: seq<real>, keys: seq<IonKey>, i: nat)
    requires |column| == |levels| && Partition.DistinctKeys(keys) && i < |keys|
    requires Partition.PartitionColumn(levels, column, keys)[i] != 0.0
    ensures Partition.IonSum(levels, OrZero(FractionColumn(levels, column, Partition.PartitionColumn(levels, column, keys), keys)), keys[i]) == 1.0
  {
    var z := Partition.PartitionColumn(levels, column, keys);
    IonFractionsSum(levels, column, z, keys, i);
  }

  lemma {:induction false} IonFractionsSum(levels: seq<Level>, column: seq<real>, z: seq<real>, keys: seq<IonKey>, i: nat)
    requires |column| == |levels| && |z| == |keys| && Partition.DistinctKeys(keys) && i < |keys|
    requires z[i] == Partition.IonSum(levels, column, keys[i]) && z[i] != 0.0
    ensures Partition.IonSum(levels, OrZero(FractionColumn(levels, column, z, keys)), keys[i]) == 1.0
  {
    var fractions := OrZero(FractionColumn(levels, column, z, keys));
    forall l | 0 <= l < |levels| && Partition.IonOf(levels[l]) == keys[i]
      ensures fractions[l] == column[l] / z[i]
    {
      FractionOfIon(levels, column, z, keys, i, l);
    }
    Partition.IonSumDivide(levels, column, fractions, z[i], keys[i]);
    assert z[i] / z[i] == 1.0;
  }

  /** With non-negative factors and the partition functions of those
      factors, every fraction that is defined lies in [0, 1]; with positive
      factors and an ion index that covers the levels every fraction is
      defined. */
  lemma {:induction false} FractionBounds(levels: seq<Level>, column: seq<real>, keys: seq<IonKey>, l: nat)
    requires |column| == |levels| && Partition.Covers(levels, keys) && l < |levels|
    requires forall k :: 0 <= k < |column| ==> column[k] >= 0.0
    ensures FractionColumn(levels, column, Partition.PartitionColumn(levels, column, keys), keys)[l].Some? ==>
              0.0 <= FractionColumn(levels, column, Partition.PartitionColumn(levels, column, keys), keys)[l].value <= 1.0
    ensures (forall k :: 0 <= k < |column| ==> column[k] > 0.0) ==>
              FractionColumn(levels, column, Partition.PartitionColumn(levels, column, keys), keys)[l].Some?
  {
    var z := Partition.PartitionColumn(levels, column, keys);
    var key := Partition.IonOf(levels[l]);
    var i := IndexOf(keys, key).value;
    Partition.IonSumBoundsMember(levels, column, l);
    assert z[i] == Partition.IonSum(levels, column, key);
    if z[i] != 0.0 {
      UnitFraction(column[l], z[i]);
    }
  }

  /** The level number densities of an ion add up to the ion's number
      density. */
  lemma {:induction false} IonDensitySum(levels: seq<Level>, column: seq<real>, keys: seq<IonKey>, n: seq<real>, i: nat)
    requires |column| == |levels| && Partition.DistinctKeys(keys) && i < |keys| && |n| == |keys|
    requires Partition.PartitionColumn(levels, column, keys)[i] != 0.0
    ensures Partition.IonSum(levels, OrZero(DensityColumn(levels,
              FractionColumn(levels, column, Partition.PartitionColumn(levels, column, keys), keys), n, keys)), keys[i]) == n[i]
  {
    var z := Partition.PartitionColumn(levels, column, keys);
    var fc := FractionColumn(levels, column, z, keys);
    var fractions := OrZero(fc);
    var densities := OrZero(DensityColumn(levels, fc, n, keys));
    FractionsSumToOne(levels, column, keys, i);
    IndexOfDistinct(keys, i);
    var scaled := seq(|levels|, l requires 0 <= l < |levels| => n[i] * fractions[l]);
    forall l | 0 <= l < |levels| && Partition.IonOf(levels[l]) == keys[i]
      ensures densities[l] == scaled[l]
    {
      FractionOfIon(levels, column, z, keys, i, l);
      assert densities[l] == (column[l] / z[i]) * n[i];
    }
    Partition.IonSumCongruent(levels, densities, scaled, keys[i]);
    Partition.IonSumScale(levels, n[i], fractions, scaled, keys[i]);
  }

  /** When every ion's partition function is non-zero, the level number
      densities of a cell add up to the total of its ion number densities. */
  lemma {:induction false} TotalDensity(levels: seq<Level>, column: seq<real>, keys: seq<IonKey>, n: seq<real>)
    requires |column| == |levels| && Partition.Covers(levels, keys) && |n| == |keys|
    requires forall i :: 0 <= i < |keys| ==> Partition.PartitionColumn(levels, column, keys)[i] != 0.0
    ensures Sum(OrZero(DensityColumn(levels,
              FractionColumn(levels, column, Partition.PartitionColumn(levels, column, keys), keys), n, keys))) == Sum(n)
  {
    var z := Partition.PartitionColumn(levels, column, keys);
    var densities := OrZero(DensityColumn(levels, FractionColumn(levels, column, z, keys), n, keys));
    var perIon := Partition.PartitionColumn(levels, densities, keys);
    forall i | 0 <= i < |keys|
      ensures perIon[i] == n[i]
    {
      IonDensitySum(levels, column, keys, n, i);
    }
    SumPointwise(perIon, n);
    Partition.PartitionColumnTotal(levels, densities, keys);
  }
}
