/** Continuum-process bookkeeping (the continuum_processes rates
    properties): index transformations, the corrected photo-ionisation rate
    with its negativity guard, the ion-stage scaling of the Seaton
    collisional-ionisation coefficient, free-bound cooling rates and their
    normalised deactivation fractions, the two-photon emission CDF and the
    inverse-CDF frequency sampler. Rate tables are indexed by row (a level
    key) and then by cell. */
module Rates {
  import opened Common

  /** (atomic_number, ion_number, level_number) */
  type LevelKey = (int, int, int)
  /** (atomic_number, ion_number) */
  type IonKey = (int, int)

  /** get_ion_multi_index: the ion of each level, or of the next higher ion
      stage when nextHigher is set. */
  function IonIndex(levels: seq<LevelKey>, nextHigher: bool): (ions: seq<IonKey>)
    ensures |ions| == |levels|
  {
    seq(|levels|, k requires 0 <= k < |levels| =>
      (levels[k].0, if nextHigher then levels[k].1 + 1 else levels[k].1))
  }

  /** get_ground_state_multi_index: the ground level of the next higher ion
      of each level. */
  function GroundStateIndex(levels: seq<LevelKey>): (grounds: seq<LevelKey>)
    ensures |grounds| == |levels|
  {
    seq(|levels|, k requires 0 <= k < |levels| => (levels[k].0, levels[k].1 + 1, 0))
  }

  /** The ground state picked for a level is level 0 of the ion that the
      next-higher ion index names, one stage above the level's own ion. */
  lemma GroundStateOfNextIon(levels: seq<LevelKey>, k: nat)
    requires k < |levels|
    ensures (GroundStateIndex(levels)[k].0, GroundStateIndex(levels)[k].1) == IonIndex(levels, true)[k]
    ensures GroundStateIndex(levels)[k].2 == 0
    ensures IonIndex(levels, false)[k] == (levels[k].0, levels[k].1)
    ensures IonIndex(levels, true)[k] == (IonIndex(levels, false)[k].0, IonIndex(levels, false)[k].1 + 1)
  {
  }

  /** A level index of a transition table: a level number or a name such as
      "k", "bf" or "ff". */
  datatype LevelIdx = Named(name: string) | Numbered(number: int)

  datatype TransitionKey = TransitionKey(source: LevelIdx, destination: LevelIdx, transitionType: int)

  /** One row of a transition-probability table: its key and one value per
      cell. */
  datatype Row = Row(key: TransitionKey, values: seq<real>)

  /** cooling_rate_series2dataframe: a single row keyed
      ("k", destination, -1). */
  function CoolingRateFrame(series: seq<real>, destination: LevelIdx): (frame: seq<Row>)
    ensures |frame| == 1
    ensures frame[0].key.source == Named("k") && frame[0].key.destination == destination
    ensures frame[0].key.transitionType == -1 && frame[0].values == series
  {
    [Row(TransitionKey(Named("k"), destination, -1), series)]
  }

  /** The source and destination level indices photo_ion_idx stores for a
      level. */
  datatype Ends = Ends(source: LevelIdx, destination: LevelIdx)

  /** The key set_index gives a row: destination first when reverse is set,
      the transition type always last. */
  function RowKey(ends: Ends, transitionType: int, reverse: bool): TransitionKey
  {
    if reverse then TransitionKey(ends.destination, ends.source, transitionType)
    else TransitionKey(ends.source, ends.destination, transitionType)
  }

  predicate AllIndexed(levels: seq<LevelKey>, photoIonIdx: map<LevelKey, Ends>)
  {
    forall k :: 0 <= k < |levels| ==> levels[k] in photoIonIdx
  }

  /** IndexSetterMixin.set_index: re-key every row through photo_ion_idx,
      keeping its values; a level missing from photo_ion_idx fails the
      lookup (None). */
  function SetIndex(levels: seq<LevelKey>, values: seq<seq<real>>, photoIonIdx: map<LevelKey, Ends>,
                    transitionType: int, reverse: bool): (r: Option<seq<Row>>)
    requires |values| == |levels|
  {
    if !AllIndexed(levels, photoIonIdx) then None
    else Some(seq(|levels|, k requires 0 <= k < |levels| =>
      Row(RowKey(photoIonIdx[levels[k]], transitionType, reverse), values[k])))
  }

  /** set_index succeeds exactly when every level is in photo_ion_idx; then
      each row keeps its values, ends in the transition type, and names the
      level's source and destination in the order reverse selects. */
  lemma SetIndexRows(levels: seq<LevelKey>, values: seq<seq<real>>, photoIonIdx: map<LevelKey, Ends>,
                     transitionType: int, reverse: bool)
    requires |values| == |levels|
    ensures SetIndex(levels, values, photoIonIdx, transitionType, reverse).Some? <==> AllIndexed(levels, photoIonIdx)
    ensures SetIndex(levels, values, photoIonIdx, transitionType, reverse).Some? ==>
              var rows := SetIndex(levels, values, photoIonIdx, transitionType, reverse).value;
              |rows| == |levels| &&
              forall k :: 0 <= k < |levels| ==>
                rows[k].values == values[k] && rows[k].key.transitionType == transitionType &&
                (if reverse then rows[k].key.source == photoIonIdx[levels[k]].destination &&
                                 rows[k].key.destination == photoIonIdx[levels[k]].source
                 else rows[k].key.source == photoIonIdx[levels[k]].source &&
                      rows[k].key.destination == photoIonIdx[levels[k]].destination)
  {
  }

  /** Reversing swaps source and destination in every key and changes
      nothing else. */
  lemma {:induction false} SetIndexReverse(levels: seq<LevelKey>, values: seq<seq<real>>, photoIonIdx: map<LevelKey, Ends>,
                                           transitionType: int)
    requires |values| == |levels|
    ensures SetIndex(levels, values, photoIonIdx, transitionType, true).Some? ==
            SetIndex(levels, values, photoIonIdx, transitionType, false).Some?
    ensures SetIndex(levels, values, photoIonIdx, transitionType, true).Some? ==>
              var forward := SetIndex(levels, values, photoIonIdx, transitionType, false).value;
              var backward := SetIndex(levels, values, photoIonIdx, transitionType, true).value;
              |forward| == |backward| &&
              forall k :: 0 <= k < |forward| ==>
                backward[k] == Row(TransitionKey(forward[k].key.destination, forward[k].key.source, transitionType),
                                   forward[k].values)
  {
  }

  /** Equal lengths for a table of rows by cells. */
  predicate Shaped(t: seq<seq<real>>, rows: nat, cells: nat)
  {
    |t| == rows && forall k :: 0 <= k < |t| ==> |t[k]| == cells
  }

  /** Every density series in a lookup table has one entry per cell. */
  predicate SeriesShaped<K>(densities: map<K, seq<real>>, cells: nat)
  {
    forall key :: key in densities ==> |densities[key]| == cells
  }

  /** Both density lookups of CorrPhotoIonRateCoeff find their key: the
      next higher ion of every level and the level itself. */
  predicate DensitiesKnown(levels: seq<LevelKey>, ionDensity: map<IonKey, seq<real>>,
                           levelDensity: map<LevelKey, seq<real>>)
  {
    forall k :: 0 <= k < |levels| ==> IonIndex(levels, true)[k] in ionDensity && levels[k] in levelDensity
  }

  /** A floating-point result: a finite value, an infinity or NaN. */
  datatype Extended = Finite(value: real) | PosInf | NegInf | NaN

  /** What the `< 0` test of the rate table counts: a negative finite
      value or minus infinity (NaN compares false). */
  predicate IsNegative(x: Extended)
  {
    x.NegInf? || (x.Finite? && x.value < 0.0)
  }

  /** gamma - alpha_stim n_k / n_i n_e for one row and cell, evaluated left
      to right as floating point does. With n_i = 0 the quotient
      alpha_stim n_k / 0 is an infinity of the numerator's sign, or NaN for
      a zero numerator; times n_e it stays an infinity (its sign flipped
      for a negative n_e) or becomes NaN for n_e = 0; gamma minus an
      infinity is the opposite infinity. */
  function CorrectedRate(gamma: real, alphaStim: real, nK: real, nI: real, ne: real): Extended
  {
    var q := alphaStim * nK;
    if nI != 0.0 then Finite(gamma - q / nI * ne)
    else if q == 0.0 || ne == 0.0 then NaN
    else if (q > 0.0) == (ne > 0.0) then NegInf
    else PosInf
  }

  function CorrectedTable(levels: seq<LevelKey>, gamma: seq<seq<real>>, alphaStim: seq<seq<real>>, ne: seq<real>,
                          ionDensity: map<IonKey, seq<real>>, levelDensity: map<LevelKey, seq<real>>): (t: seq<seq<Extended>>)
    requires Shaped(gamma, |levels|, |ne|) && Shaped(alphaStim, |levels|, |ne|)
    requires SeriesShaped(ionDensity, |ne|) && SeriesShaped(levelDensity, |ne|)
    requires DensitiesKnown(levels, ionDensity, levelDensity)
    ensures |t| == |levels|
  {
    seq(|levels|, k requires 0 <= k < |levels| =>
      var nK, nI := ionDensity[IonIndex(levels, true)[k]], levelDensity[levels[k]];
      seq(|ne|, c requires 0 <= c < |ne| => CorrectedRate(gamma[k][c], alphaStim[k][c], nK[c], nI[c], ne[c])))
  }

  predicate NonNegative(t: seq<seq<real>>)
  {
    forall k, c :: 0 <= k < |t| && 0 <= c < |t[k]| ==> t[k][c] >= 0.0
  }

  predicate NoNegative(t: seq<seq<Extended>>)
  {
    forall k, c :: 0 <= k < |t| && 0 <= c < |t[k]| ==> !IsNegative(t[k][c])
  }

  datatype RateError = MissingKey | NegativeRate

  datatype RateResult = Rates(table: seq<seq<Extended>>) | Failure(error: RateError)

  /** CorrPhotoIonRateCoeff: the photo-ionisation rate corrected for
      stimulated recombination; a missing density is a failed lookup and a
      negative entry (minus infinity included) raises PlasmaException. */
  function CorrPhotoIon(levels: seq<LevelKey>, gamma: seq<seq<real>>, alphaStim: seq<seq<real>>, ne: seq<real>,
                        ionDensity: map<IonKey, seq<real>>, levelDensity: map<LevelKey, seq<real>>): RateResult
    requires Shaped(gamma, |levels|, |ne|) && Shaped(alphaStim, |levels|, |ne|)
    requires SeriesShaped(ionDensity, |ne|) && SeriesShaped(levelDensity, |ne|)
  {
    if !DensitiesKnown(levels, ionDensity, levelDensity) then Failure(MissingKey)
    else
      var t := CorrectedTable(levels, gamma, alphaStim, ne, ionDensity, levelDensity);
      if NoNegative(t) then Rates(t) else Failure(NegativeRate)
  }

  /** A returned table is never negative, and with non-negative inputs and
      a positive level density the correction only lowers the rate: the
      entry is finite and lies between 0 and the uncorrected gamma. */
  lemma {:induction false} CorrPhotoIonBounds(levels: seq<LevelKey>, gamma: seq<seq<real>>, alphaStim: seq<seq<real>>, ne: seq<real>,
                           ionDensity: map<IonKey, seq<real>>, levelDensity: map<LevelKey, seq<real>>, k: nat, c: nat)
    requires Shaped(gamma, |levels|, |ne|) && Shaped(alphaStim, |levels|, |ne|)
    requires SeriesShaped(ionDensity, |ne|) && SeriesShaped(levelDensity, |ne|)
    requires CorrPhotoIon(levels, gamma, alphaStim, ne, ionDensity, levelDensity).Rates?
    requires k < |levels| && c < |ne|
    ensures !IsNegative(CorrPhotoIon(levels, gamma, alphaStim, ne, ionDensity, levelDensity).table[k][c])
    ensures alphaStim[k][c] >= 0.0 && ne[c] >= 0.0 && ionDensity[IonIndex(levels, true)[k]][c] >= 0.0 &&
            levelDensity[levels[k]][c] > 0.0 ==>
              var x := CorrPhotoIon(levels, gamma, alphaStim, ne, ionDensity, levelDensity).table[k][c];
              x.Finite? && 0.0 <= x.value <= gamma[k][c]
  {
    var nK, nI := ionDensity[IonIndex(levels, true)[k]][c], levelDensity[levels[k]][c];
    if alphaStim[k][c] >= 0.0 && ne[c] >= 0.0 && nK >= 0.0 && nI > 0.0 {
      var q := alphaStim[k][c] * nK;
      assert q >= 0.0;
      DivMul(q, nI);
      MulSign(q / nI, nI);
      assert q / nI * ne[c] >= 0.0;
    }
  }

  /** A level with zero density: when alpha_stim n_k and n_e are non-zero
      and of the same sign the entry is minus infinity and the property
      raises PlasmaException; when either is zero the entry is NaN, which
      the guard lets through. */
  lemma {:induction false} CorrPhotoIonZeroDensity(levels: seq<LevelKey>, gamma: seq<seq<real>>, alphaStim: seq<seq<real>>, ne: seq<real>,
                                ionDensity: map<IonKey, seq<real>>, levelDensity: map<LevelKey, seq<real>>, k: nat, c: nat)
    requires Shaped(gamma, |levels|, |ne|) && Shaped(alphaStim, |levels|, |ne|)
    requires SeriesShaped(ionDensity, |ne|) && SeriesShaped(levelDensity, |ne|)
    requires DensitiesKnown(levels, ionDensity, levelDensity)
    requires k < |levels| && c < |ne| && levelDensity[levels[k]][c] == 0.0
    ensures var q := alphaStim[k][c] * ionDensity[IonIndex(levels, true)[k]][c];
            q != 0.0 && ne[c] != 0.0 && (q > 0.0) == (ne[c] > 0.0) ==>
              CorrPhotoIon(levels, gamma, alphaStim, ne, ionDensity, levelDensity) == Failure(NegativeRate)
    ensures var q := alphaStim[k][c] * ionDensity[IonIndex(levels, true)[k]][c];
            (q == 0.0 || ne[c] == 0.0) && CorrPhotoIon(levels, gamma, alphaStim, ne, ionDensity, levelDensity).Rates? ==>
              CorrPhotoIon(levels, gamma, alphaStim, ne, ionDensity, levelDensity).table[k][c] == NaN
  {
    var t := CorrectedTable(levels, gamma, alphaStim, ne, ionDensity, levelDensity);
    var q := alphaStim[k][c] * ionDensity[IonIndex(levels, true)[k]][c];
    if q != 0.0 && ne[c] != 0.0 && (q > 0.0) == (ne[c] > 0.0) {
      assert t[k][c] == NegInf;
      assert !NoNegative(t);
    }
  }

  /** Without stimulated recombination the correction vanishes: every
      entry is gamma itself where the level density is non-zero and NaN
      (0 / 0) where it is zero, and the table is returned as long as gamma
      has no negative entry and the densities are all found. */
  lemma {:induction false} CorrPhotoIonNoStimulation(levels: seq<LevelKey>, gamma: seq<seq<real>>, alphaStim: seq<seq<real>>, ne: seq<real>,
                                  ionDensity: map<IonKey, seq<real>>, levelDensity: map<LevelKey, seq<real>>)
    requires Shaped(gamma, |levels|, |ne|) && Shaped(alphaStim, |levels|, |ne|)
    requires SeriesShaped(ionDensity, |ne|) && SeriesShaped(levelDensity, |ne|)
    requires forall k, c :: 0 <= k < |levels| && 0 <= c < |ne| ==> alphaStim[k][c] == 0.0
    requires DensitiesKnown(levels, ionDensity, levelDensity) && NonNegative(gamma)
    ensures CorrPhotoIon(levels, gamma, alphaStim, ne, ionDensity, levelDensity).Rates?
    ensures forall k, c :: 0 <= k < |levels| && 0 <= c < |ne| ==>
              CorrPhotoIon(levels, gamma, alphaStim, ne, ionDensity, levelDensity).table[k][c] ==
                if levelDensity[levels[k]][c] != 0.0 then Finite(gamma[k][c]) else NaN
  {
    var t := CorrectedTable(levels, gamma, alphaStim, ne, ionDensity, levelDensity);
    forall k, c | 0 <= k < |levels| && 0 <= c < |ne|
      ensures t[k][c] == if levelDensity[levels[k]][c] != 0.0 then Finite(gamma[k][c]) else NaN
    {
      assert alphaStim[k][c] == 0.0;
    }
    assert NoNegative(t);
  }

  /** The Seaton coefficient's factor for an ion stage: 0.1 for neutral
      atoms, 0.2 for singly ionised, 0.3 from doubly ionised on; rows with
      any other ion number are left as they are. */
  function SeatonFactor(ionNumber: int): real
  {
    if ionNumber == 0 then 0.1
    else if ionNumber == 1 then 0.2
    else if ionNumber >= 2 then 0.3
    else 1.0
  }

  function SeatonScaled(coeff: seq<seq<real>>, ionNumber: seq<int>): (scaled: seq<seq<real>>)
    requires |ionNumber| == |coeff|
    ensures |scaled| == |coeff|
  {
    seq(|coeff|, k requires 0 <= k < |coeff| => Scale(SeatonFactor(ionNumber[k]), coeff[k]))
  }

  /** One masked `*=`: the rows where the mask holds are multiplied by
      factor. */
  method ScaleRowsWhere(coeff: array<seq<real>>, mask: seq<bool>, factor: real)
    requires coeff.Length == |mask|
    modifies coeff
    ensures forall k :: 0 <= k < coeff.Length ==>
              coeff[k] == if mask[k] then Scale(factor, old(coeff[k])) else old(coeff[k])
  {
    for k := 0 to coeff.Length
      invariant forall j :: 0 <= j < k ==> coeff[j] == if mask[j] then Scale(factor, old(coeff[j])) else old(coeff[j])
      invariant forall j :: k <= j < coeff.Length ==> coeff[j] == old(coeff[j])
    {
      if mask[k] {
        coeff[k] := Scale(factor, coeff[k]);
      }
    }
  }

  /** CollIonRateCoeffSeaton's ion-stage scaling: three masked in-place
      multiplications, for ion number 0, 1 and at least 2. */
  method SeatonIonScaling(coeff: array<seq<real>>, ionNumber: seq<int>)
    requires coeff.Length == |ionNumber|
    modifies coeff
    ensures coeff[..] == SeatonScaled(old(coeff[..]), ionNumber)
  {
    ghost var original := coeff[..];
    ScaleRowsWhere(coeff, seq(|ionNumber|, k requires 0 <= k < |ionNumber| => ionNumber[k] == 0), 0.1);
    ScaleRowsWhere(coeff, seq(|ionNumber|, k requires 0 <= k < |ionNumber| => ionNumber[k] == 1), 0.2);
    ScaleRowsWhere(coeff, seq(|ionNumber|, k requires 0 <= k < |ionNumber| => ionNumber[k] >= 2), 0.3);
    forall k | 0 <= k < coeff.Length
      ensures coeff[k] == SeatonScaled(original, ionNumber)[k]
    {
    }
  }

  /** The masks are disjoint, so every row is scaled once, by its stage's
      factor: non-negative coefficients stay non-negative, and a row of a
      real ion stage keeps at most three tenths of its value. */
  lemma {:induction false} SeatonScaledBounds(coeff: seq<seq<real>>, ionNumber: seq<int>, k: nat, c: nat)
    requires |ionNumber| == |coeff| && k < |coeff| && c < |coeff[k]| && coeff[k][c] >= 0.0
    ensures 0.0 <= SeatonScaled(coeff, ionNumber)[k][c]
    ensures ionNumber[k] >= 0 ==> SeatonScaled(coeff, ionNumber)[k][c] <= 0.3 * coeff[k][c]
    ensures ionNumber[k] == 0 ==> SeatonScaled(coeff, ionNumber)[k][c] == 0.1 * coeff[k][c]
  {
    var f := SeatonFactor(ionNumber[k]);
    assert SeatonScaled(coeff, ionNumber)[k][c] == f * coeff[k][c];
    assert 0.0 < f;
    if ionNumber[k] >= 0 {
      assert f <= 0.3;
      assert (0.3 - f) * coeff[k][c] >= 0.0;
    }
  }

  /** The rows of a table at one cell. */
  function Column(t: seq<seq<real>>, c: nat): (col: seq<real>)
    requires forall k :: 0 <= k < |t| ==> c < |t[k]|
    ensures |col| == |t|
  {
    seq(|t|, k requires 0 <= k < |t| => t[k][c])
  }

  predicate IonsKnown(levels: seq<LevelKey>, ionDensity: map<IonKey, seq<real>>)
  {
    forall k :: 0 <= k < |levels| ==> IonIndex(levels, true)[k] in ionDensity
  }

  datatype FreeBound = FreeBound(total: seq<Row>, rates: seq<seq<real>>, deactivation: seq<seq<Option<real>>>)

  /** c_fb_sp n_e n_k: the free-bound cooling rate of each continuum and
      cell. */
  function FreeBoundRates(levels: seq<LevelKey>, cFbSp: seq<seq<real>>, ne: seq<real>,
                          ionDensity: map<IonKey, seq<real>>): (rates: seq<seq<real>>)
    requires Shaped(cFbSp, |levels|, |ne|) && SeriesShaped(ionDensity, |ne|) && IonsKnown(levels, ionDensity)
    ensures Shaped(rates, |levels|, |ne|)
  {
    seq(|levels|, k requires 0 <= k < |levels| =>
      var nK := ionDensity[IonIndex(levels, true)[k]];
      seq(|ne|, c requires 0 <= c < |ne| => cFbSp[k][c] * ne[c] * nK[c]))
  }

  /** The total rate of each cell: the sum over the continua. */
  function Totals(rates: seq<seq<real>>, cells: nat): (totals: seq<real>)
    requires forall k :: 0 <= k < |rates| ==> |rates[k]| == cells
    ensures |totals| == cells
  {
    seq(cells, c requires 0 <= c < cells => Sum(Column(rates, c)))
  }

  /** Each continuum's share of its cell's total; a zero total has no
      share (a NaN in the source). */
  function Shares(rates: seq<seq<real>>, totals: seq<real>): (shares: seq<seq<Option<real>>>)
    requires forall k :: 0 <= k < |rates| ==> |rates[k]| == |totals|
    ensures |shares| == |rates|
  {
    seq(|rates|, k requires 0 <= k < |rates| =>
      seq(|totals|, c requires 0 <= c < |totals| => if totals[c] == 0.0 then None else Some(rates[k][c] / totals[c])))
  }

  /** FreeBoundCoolingRate: the per-continuum rates, their total as a
      single "bf" cooling row and the deactivation probabilities; a missing
      ion density is a failed lookup (None). */
  function FreeBoundCoolingRate(levels: seq<LevelKey>, cFbSp: seq<seq<real>>, ne: seq<real>,
                                ionDensity: map<IonKey, seq<real>>): Option<FreeBound>
    requires Shaped(cFbSp, |levels|, |ne|) && SeriesShaped(ionDensity, |ne|)
  {
    if !IonsKnown(levels, ionDensity) then None
    else
      var rates := FreeBoundRates(levels, cFbSp, ne, ionDensity);
      var totals := Totals(rates, |ne|);
      Some(FreeBound(CoolingRateFrame(totals, Named("bf")), rates, Shares(rates, totals)))
  }

  /** The total is one cooling row keyed ("k", "bf", -1) holding, for every
      cell, the sum of the continua's rates; the deactivation probabilities
      of a cell with a non-zero total are all defined and add up to one. */
  lemma {:induction false} FreeBoundNormalised(levels: seq<LevelKey>, cFbSp: seq<seq<real>>, ne: seq<real>,
                                               ionDensity: map<IonKey, seq<real>>, c: nat)
    requires Shaped(cFbSp, |levels|, |ne|) && SeriesShaped(ionDensity, |ne|) && IonsKnown(levels, ionDensity)
    requires c < |ne|
    ensures var fb := FreeBoundCoolingRate(levels, cFbSp, ne, ionDensity).value;
            fb.total == [Row(TransitionKey(Named("k"), Named("bf"), -1), Totals(fb.rates, |ne|))] &&
            fb.total[0].values[c] == Sum(Column(fb.rates, c))
    ensures var fb := FreeBoundCoolingRate(levels, cFbSp, ne, ionDensity).value;
            fb.total[0].values[c] != 0.0 ==>
              (forall k :: 0 <= k < |levels| ==> fb.deactivation[k][c].Some?) &&
              Sum(seq(|levels|, k requires 0 <= k < |levels| => fb.deactivation[k][c].value)) == 1.0
  {
    var rates := FreeBoundRates(levels, cFbSp, ne, ionDensity);
    SharesSumToOne(rates, |ne|, c);
  }

  /** In a cell with a non-zero total every share is defined and the shares
      add up to one. */
  lemma {:induction false} SharesSumToOne(rates: seq<seq<real>>, cells: nat, c: nat)
    requires forall k :: 0 <= k < |rates| ==> |rates[k]| == cells
    requires c < cells
    ensures var shares: seq<seq<Option<real>>> := Shares(rates, Totals(rates, cells));
            Totals(rates, cells)[c] != 0.0 ==>
              (forall k :: 0 <= k < |rates| ==> shares[k][c].Some?) &&
              Sum(seq(|rates|, k requires 0 <= k < |rates| => shares[k][c].value)) == 1.0
  {
    var column := Column(rates, c);
    var total := Sum(column);
    assert Totals(rates, cells)[c] == total;
    if total != 0.0 {
      var all: seq<seq<Option<real>>> := Shares(rates, Totals(rates, cells));
      var shares := seq(|rates|, k requires 0 <= k < |rates| => all[k][c].value);
      forall k | 0 <= k < |rates|
        ensures shares[k] == column[k] / total
      {
      }
      SumDivide(column, shares, total);
      assert total / total == 1.0;
    }
  }

  /** With non-negative rates every defined deactivation probability lies
      in [0, 1]. */
  lemma {:induction false} FreeBoundSharesBounded(rates: seq<seq<real>>, cells: nat, k: nat, c: nat)
    requires forall j :: 0 <= j < |rates| ==> |rates[j]| == cells
    requires NonNegative(rates) && k < |rates| && c < cells
    ensures Shares(rates, Totals(rates, cells))[k][c].Some? ==>
              0.0 <= Shares(rates, Totals(rates, cells))[k][c].value <= 1.0
  {
    var column := Column(rates, c);
    SumBoundsTerm(column, k);
    var total := Sum(column);
    if total != 0.0 {
      assert Totals(rates, cells)[c] == total;
      UnitFraction(rates[k][c], total);
    }
  }

  /** Number of frequency points of a two-photon emission CDF. */
  const BINS: nat := 500

  /** linspace(0, nu0, BINS): evenly spaced from 0 to nu0. */
  function FrequencyGrid(nu0: real): (nu: seq<real>)
    ensures |nu| == BINS
  {
    seq(BINS, k requires 0 <= k < BINS => nu0 * (k as real) / ((BINS - 1) as real))
  }

  /** The grid starts at 0, ends at nu0 and rises for a positive nu0. */
  lemma {:induction false} FrequencyGridEnds(nu0: real, j: nat, k: nat)
    requires j < k < BINS
    ensures FrequencyGrid(nu0)[0] == 0.0 && FrequencyGrid(nu0)[BINS - 1] == nu0
    ensures nu0 > 0.0 ==> FrequencyGrid(nu0)[j] < FrequencyGrid(nu0)[k]
  {
    var d := (BINS - 1) as real;
    DivMul(nu0 * d, d);
    if nu0 > 0.0 {
      var a, b := nu0 * (j as real), nu0 * (k as real);
      assert b - a == nu0 * ((k - j) as real);
      MulSign((k - j) as real, nu0);
      DivMonotone(a, b, d);
    }
  }

  /** The CDF TwoPhotonEmissionCDF keeps for one transition: 0, then the
      cumulative integrals, all divided by the last one. */
  function NormalisedCdf(cumulative: seq<real>): (cdf: seq<real>)
    requires |cumulative| > 0 && cumulative[|cumulative| - 1] != 0.0
    ensures |cdf| == |cumulative| + 1
  {
    var last := cumulative[|cumulative| - 1];
    seq(|cumulative| + 1, k requires 0 <= k <= |cumulative| => (if k == 0 then 0.0 else cumulative[k - 1]) / last)
  }

  /** One transition's CDF: zeros, the cumulative integrals written from
      index 1 on, then every entry divided in place by the last. */
  method EmissionCdf(cumulative: seq<real>) returns (cdf: array<real>)
    requires |cumulative| == BINS - 1 && cumulative[BINS - 2] != 0.0
    ensures fresh(cdf) && cdf[..] == NormalisedCdf(cumulative)
  {
    cdf := new real[BINS](_ => 0.0);
    for k := 1 to BINS
      invariant cdf[0] == 0.0
      invariant forall j :: 1 <= j < k ==> cdf[j] == cumulative[j - 1]
    {
      cdf[k] := cumulative[k - 1];
    }
    var last := cdf[BINS - 1];
    for k := 0 to BINS
      invariant forall j :: 0 <= j < k ==> cdf[j] == (if j == 0 then 0.0 else cumulative[j - 1]) / last
      invariant forall j :: k <= j < BINS ==> cdf[j] == if j == 0 then 0.0 else cumulative[j - 1]
    {
      cdf[k] := cdf[k] / last;
    }
  }

  /** TwoPhotonEmissionCDF: one CDF per two-photon transition, in table
      order. */
  method EmissionCdfs(cumulatives: seq<seq<real>>) returns (cdfs: seq<seq<real>>)
    requires forall i :: 0 <= i < |cumulatives| ==> |cumulatives[i]| == BINS - 1 && cumulatives[i][BINS - 2] != 0.0
    ensures |cdfs| == |cumulatives|
    ensures forall i :: 0 <= i < |cdfs| ==> cdfs[i] == NormalisedCdf(cumulatives[i])
  {
    cdfs := [];
    for i := 0 to |cumulatives|
      invariant |cdfs| == i
      invariant forall j :: 0 <= j < i ==> cdfs[j] == NormalisedCdf(cumulatives[j])
    {
      var cdf := EmissionCdf(cumulatives[i]);
      cdfs := cdfs + [cdf[..]];
    }
  }

  predicate NonDecreasing(s: seq<real>)
  {
    forall j, k :: 0 <= j <= k < |s| ==> s[j] <= s[k]
  }

  /** The CDF starts at 0 and ends at 1. */
  lemma {:induction false} NormalisedCdfEnds(cumulative: seq<real>)
    requires |cumulative| > 0 && cumulative[|cumulative| - 1] != 0.0
    ensures NormalisedCdf(cumulative)[0] == 0.0
    ensures NormalisedCdf(cumulative)[|cumulative|] == 1.0
  {
    var last := cumulative[|cumulative| - 1];
    assert NormalisedCdf(cumulative)[|cumulative|] == last / last;
  }

  /** For non-negative, non-decreasing cumulative integrals the CDF is
      non-decreasing and stays within [0, 1]. */
  lemma {:induction false} NormalisedCdfMonotone(cumulative: seq<real>)
    requires |cumulative| > 0 && cumulative[|cumulative| - 1] != 0.0
    requires NonDecreasing(cumulative) && cumulative[0] >= 0.0
    ensures NonDecreasing(NormalisedCdf(cumulative))
    ensures forall k :: 0 <= k < |NormalisedCdf(cumulative)| ==> 0.0 <= NormalisedCdf(cumulative)[k] <= 1.0
  {
    var cdf := NormalisedCdf(cumulative);
    var n := |cumulative|;
    var last := cumulative[n - 1];
    var numerators := [0.0] + cumulative;
    assert last > 0.0;
    assert NonDecreasing(numerators) by {
      forall j, k | 0 <= j <= k < |numerators|
        ensures numerators[j] <= numerators[k]
      {
        if j > 0 {
          assert numerators[j] == cumulative[j - 1] && numerators[k] == cumulative[k - 1];
        }
      }
    }
    forall k | 0 <= k <= n
      ensures cdf[k] == numerators[k] / last
    {
    }
    forall j, k | 0 <= j <= k <= n
      ensures cdf[j] <= cdf[k]
    {
      DivMonotone(numerators[j], numerators[k], last);
    }
    forall k | 0 <= k <= n
      ensures 0.0 <= cdf[k] <= 1.0
    {
      UnitFraction(numerators[k], last);
    }
  }

  /** np.searchsorted(em, z, side="right") on a sorted array: the number of
      leading entries not above z. */
  function SearchRight(em: seq<real>, z: real): (idx: nat)
    ensures idx <= |em|
  {
    if |em| == 0 || em[0] > z then 0 else 1 + SearchRight(em[1..], z)
  }

  /** On a sorted array the index splits the entries: those before it are
      at most z, those from it on exceed z. */
  lemma {:induction false} SearchRightSplits(em: seq<real>, z: real)
    requires NonDecreasing(em)
    ensures forall k :: 0 <= k < SearchRight(em, z) ==> em[k] <= z
    ensures forall k :: SearchRight(em, z) <= k < |em| ==> em[k] > z
  {
    if |em| > 0 && em[0] <= z {
      var rest := em[1..];
      assert NonDecreasing(rest);
      SearchRightSplits(rest, z);
      forall k | 1 <= k < SearchRight(em, z)
        ensures em[k] <= z
      {
        assert em[k] == rest[k - 1];
      }
      forall k | SearchRight(em, z) <= k < |em|
        ensures em[k] > z
      {
        assert em[k] == rest[k - 1];
      }
    }
  }

  /** TwoPhotonFrequencySampler's draw for a random number z: the linear
      interpolation between the two grid frequencies whose CDF values
      bracket z. An index outside the table is None. */
  function SampleFrequency(nus: seq<real>, em: seq<real>, z: real): Option<real>
    requires |nus| == |em|
  {
    var idx := SearchRight(em, z);
    if idx == 0 || idx == |em| || em[idx] == em[idx - 1] then None
    else Some(nus[idx] - (em[idx] - z) / (em[idx] - em[idx - 1]) * (nus[idx] - nus[idx - 1]))
  }

  /** On a sorted CDF with em[0] <= z < em[last] the sample is defined and
      lies between the frequencies of the bracketing grid points. */
  lemma {:induction false} SampleInBracket(nus: seq<real>, em: seq<real>, z: real)
    requires |nus| == |em| && |em| > 0 && NonDecreasing(em) && NonDecreasing(nus)
    requires em[0] <= z < em[|em| - 1]
    ensures SampleFrequency(nus, em, z).Some?
    ensures var idx := SearchRight(em, z);
            0 < idx < |em| && em[idx - 1] <= z < em[idx] &&
            nus[idx - 1] <= SampleFrequency(nus, em, z).value <= nus[idx]
  {
    SearchRightSplits(em, z);
    var idx := SearchRight(em, z);
    var lo, hi := em[idx - 1], em[idx];
    var width := nus[idx] - nus[idx - 1];
    var t := (hi - z) / (hi - lo);
    UnitFraction(hi - z, hi - lo);
    assert 0.0 <= t * width <= width by {
      MulSign(width, 1.0);
      assert t * width >= 0.0 by {
        if width > 0.0 {
          MulSign(t, width);
        }
      }
      assert (1.0 - t) * width >= 0.0 by {
        if width > 0.0 {
          MulSign(1.0 - t, width);
        }
      }
      MulSub(1.0, t, width);
    }
    assert hi != lo;
    assert SampleFrequency(nus, em, z).Some?;
    assert SampleFrequency(nus, em, z).value == nus[idx] - (hi - z) / (hi - lo) * width;
  }

  /** With the CDF of a transition and a uniform draw 0 <= z < 1 the
      sampler never leaves the table. */
  lemma {:induction false} SampleFromEmissionCdf(nus: seq<real>, cumulative: seq<real>, z: real)
    requires |cumulative| > 0 && cumulative[|cumulative| - 1] != 0.0
    requires NonDecreasing(cumulative) && cumulative[0] >= 0.0
    requires |nus| == |cumulative| + 1 && NonDecreasing(nus)
    requires 0.0 <= z < 1.0
    ensures SampleFrequency(nus, NormalisedCdf(cumulative), z).Some?
  {
    var em := NormalisedCdf(cumulative);
    NormalisedCdfEnds(cumulative);
    NormalisedCdfMonotone(cumulative);
    assert em[0] <= z < em[|em| - 1];
    SampleInBracket(nus, em, z);
  }
}
