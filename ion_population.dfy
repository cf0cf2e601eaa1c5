/** Ion populations by the Saha equation (the ion_population plasma
    properties). Tables are indexed by cell (one column of the source's
    DataFrames), then by element, then by ion stage. Entries the source
    computes as NaN are None here. exp and the physical constants in the
    Saha coefficient are passed in as values. */
module IonPopulation {
  import opened Common

  /** phi of one element in one cell: for each ion stage j the ratio of the
      partition functions of stages j + 1 and j times the stage's Saha
      coefficient (2 g_electron exp(-chi_j beta_rad)). None where the lower
      partition function is zero and the ratio is not a number. */
  function PhiGeneral(z: seq<real>, coefficient: seq<real>): (phi: seq<Option<real>>)
    requires |z| >= 1 && |coefficient| == |z| - 1
    ensures |phi| == |z| - 1
  {
    seq(|z| - 1, j requires 0 <= j < |z| - 1 => if z[j] == 0.0 then None else Some(z[j + 1] / z[j] * coefficient[j]))
  }

  /** phi of a stage relates neighbouring partition functions: phi_j Z_j is
      Z_{j+1} times the coefficient, defined exactly where Z_j is not zero. */
  lemma PhiGeneralRelatesStages(z: seq<real>, coefficient: seq<real>, j: nat)
    requires |z| >= 1 && |coefficient| == |z| - 1 && j < |z| - 1
    ensures PhiGeneral(z, coefficient)[j].Some? <==> z[j] != 0.0
    ensures PhiGeneral(z, coefficient)[j].Some? ==>
              PhiGeneral(z, coefficient)[j].value * z[j] == z[j + 1] * coefficient[j]
  {
    if z[j] != 0.0 {
      var q := z[j + 1] / z[j];
      DivMul(z[j + 1], z[j]);
      assert q * coefficient[j] * z[j] == q * z[j] * coefficient[j];
    }
  }

  /** PhiSahaLTE: in LTE phi is the general phi. */
  function PhiSahaLTE(generalPhi: seq<seq<seq<Option<real>>>>): (phi: seq<seq<seq<Option<real>>>>)
    ensures phi == generalPhi
  {
    generalPhi
  }

  /** The inputs of the radiation-field correction for one cell. */
  datatype CellTemperatures = CellTemperatures(w: real, tRad: real, tElectron: real, betaRad: real,
                                               betaElectron: real)

  /** factor_a of the correction: T_e / (departure coefficient w T_rad),
      with 1 / w as the departure coefficient when none is configured. */
  function FactorA(cell: CellTemperatures, departureCoefficient: Option<real>): real
    requires cell.w != 0.0 && cell.tRad != 0.0
    requires departureCoefficient.Some? ==> departureCoefficient.value != 0.0
  {
    var b := if departureCoefficient.None? then 1.0 / cell.w else departureCoefficient.value;
    cell.tElectron / (b * cell.w * cell.tRad)
  }

  /** Without a configured departure coefficient factor_a is T_e / T_rad. */
  lemma DefaultFactorA(cell: CellTemperatures)
    requires cell.w != 0.0 && cell.tRad != 0.0
    ensures FactorA(cell, None) == cell.tElectron / cell.tRad
  {
    DivMul(1.0, cell.w);
  }

  /** The correction delta for an ion with ionization energy chi: above
      chi_0 one exponential term, below it 1 minus one term plus another. */
  function DeltaEntry(chi: real, chi0: real, cell: CellTemperatures, departureCoefficient: Option<real>,
                      exp: real -> real): real
    requires cell.w != 0.0 && cell.tRad != 0.0
    requires departureCoefficient.Some? ==> departureCoefficient.value != 0.0
  {
    var a := FactorA(cell, departureCoefficient);
    if chi < chi0 then
      1.0 - exp(chi * cell.betaRad - cell.betaRad * chi0) + a * exp(chi * cell.betaRad - chi0 * cell.betaElectron)
    else
      a * exp(chi * (cell.betaRad - cell.betaElectron))
  }

  /** The cell inputs the computed correction divides by. */
  predicate CorrectionDefined(cells: seq<CellTemperatures>, departureCoefficient: Option<real>)
  {
    (forall c :: 0 <= c < |cells| ==> cells[c].w != 0.0 && cells[c].tRad != 0.0)
    && (departureCoefficient.Some? ==> departureCoefficient.value != 0.0)
  }

  /** RadiationFieldCorrection: one row per ion of the ionization table and
      one column per cell. With delta_input every entry is delta_input;
      otherwise the entries are computed against chi_0, the ionization
      energy of the configured species, and None is the source's KeyError
      when that species is missing. */
  method RadiationFieldCorrection(ionKeys: seq<(int, int)>, chi: seq<real>, cells: seq<CellTemperatures>,
                                  deltaInput: Option<real>, departureCoefficient: Option<real>,
                                  chi0Species: (int, int), exp: real -> real)
    returns (delta: Option<seq<seq<real>>>)
    requires |chi| == |ionKeys|
    requires deltaInput.None? ==> CorrectionDefined(cells, departureCoefficient)
    ensures deltaInput.Some? ==> delta.Some?
    ensures deltaInput.None? ==> (delta.Some? <==> chi0Species in ionKeys)
    ensures delta.Some? ==> |delta.value| == |ionKeys|
    ensures delta.Some? ==> forall i :: 0 <= i < |ionKeys| ==> |delta.value[i]| == |cells|
    ensures deltaInput.Some? && delta.Some? ==>
              forall i, c :: 0 <= i < |ionKeys| && 0 <= c < |cells| ==> delta.value[i][c] == deltaInput.value
    ensures deltaInput.None? && delta.Some? ==>
              exists k :: 0 <= k < |ionKeys| && ionKeys[k] == chi0Species
                && forall i, c :: 0 <= i < |ionKeys| && 0 <= c < |cells| ==>
                     delta.value[i][c] == DeltaEntry(chi[i], chi[k], cells[c], departureCoefficient, exp)
  {
    var chi0 := 0.0;
    var k := 0;
    if deltaInput.None? {
      while k < |ionKeys| && ionKeys[k] != chi0Species
        invariant 0 <= k <= |ionKeys|
        invariant forall j :: 0 <= j < k ==> ionKeys[j] != chi0Species
      {
        k := k + 1;
      }
      if k == |ionKeys| {
        return None;
      }
      chi0 := chi[k];
    }
    var rows: seq<seq<real>> := [];
    var i := 0;
    while i < |ionKeys|
      invariant 0 <= i <= |ionKeys| && |rows| == i
      invariant forall r :: 0 <= r < i ==> |rows[r]| == |cells|
      invariant deltaInput.Some? ==> forall r, c :: 0 <= r < i && 0 <= c < |cells| ==> rows[r][c] == deltaInput.value
      invariant deltaInput.None? ==> forall r, c :: 0 <= r < i && 0 <= c < |cells| ==>
                  rows[r][c] == DeltaEntry(chi[r], chi0, cells[c], departureCoefficient, exp)
    {
      var row;
      if deltaInput.Some? {
        row := seq(|cells|, c => deltaInput.value);
      } else {
        var x := chi[i];
        row := seq(|cells|, c requires 0 <= c < |cells| => DeltaEntry(x, chi0, cells[c], departureCoefficient, exp));
      }
      rows := rows + [row];
      i := i + 1;
    }
    delta := Some(rows);
  }

  /** One element in one cell: its phi per ion stage and its number
      density. */
  datatype ElementColumn = ElementColumn(phi: seq<Option<real>>, numberDensity: real)

  /** phi / n_e with NaN replaced by 0. */
  function Ratios(phi: seq<Option<real>>, nElectron: real): (r: seq<real>)
    requires nElectron != 0.0
    ensures |r| == |phi|
  {
    seq(|phi|, j requires 0 <= j < |phi| => if phi[j].None? then 0.0 else phi[j].value / nElectron)
  }

  /** np.cumprod: the running products. */
  function CumProd(xs: seq<real>): (r: seq<real>)
    ensures |r| == |xs|
  {
    if |xs| == 0 then []
    else
      var p := CumProd(xs[..|xs| - 1]);
      p + [(if |p| == 0 then 1.0 else p[|p| - 1]) * xs[|xs| - 1]]
  }

  /** Each running product is the previous one times the next factor. */
  lemma {:induction false} CumProdStep(xs: seq<real>, j: nat)
    requires 0 < j < |xs|
    ensures CumProd(xs)[j] == CumProd(xs)[j - 1] * xs[j]
  {
    if j < |xs| - 1 {
      CumProdStep(xs[..|xs| - 1], j);
      assert xs[..|xs| - 1][j] == xs[j];
    }
  }

  lemma CumProdFirst(xs: seq<real>)
    requires |xs| > 0
    ensures CumProd(xs)[0] == xs[0]
  {
    if |xs| > 1 {
      CumProdFirst(xs[..|xs| - 1]);
    }
  }

  /** The ion populations of one element in one cell before the zero
      threshold: the neutral density N / (1 + sum of the running products of
      phi / n_e), then the neutral density times each running product. None
      where the source's arithmetic gives NaN (a zero electron density or a
      zero denominator). */
  function RawPopulations(col: ElementColumn, nElectron: real): (r: Option<seq<real>>)
    ensures r.Some? ==> |r.value| == |col.phi| + 1
  {
    if nElectron == 0.0 then None
    else
      var products := CumProd(Ratios(col.phi, nElectron));
      var denominator := 1.0 + Sum(products);
      if denominator == 0.0 then None
      else
        var neutral := col.numberDensity / denominator;
        Some([neutral] + Scale(neutral, products))
  }

  /** Before the threshold the ion populations of an element add up to its
      number density. */
  lemma RawPopulationsConserve(col: ElementColumn, nElectron: real)
    requires RawPopulations(col, nElectron).Some?
    ensures Sum(RawPopulations(col, nElectron).value) == col.numberDensity
  {
    var products := CumProd(Ratios(col.phi, nElectron));
    var denominator := 1.0 + Sum(products);
    var neutral := col.numberDensity / denominator;
    SumFront([neutral] + Scale(neutral, products));
    assert ([neutral] + Scale(neutral, products))[1..] == Scale(neutral, products);
    SumScale(neutral, products);
    assert neutral + neutral * Sum(products) == neutral * denominator;
    DivMul(col.numberDensity, denominator);
  }

  /** Running products of non-negative factors are non-negative. */
  lemma {:induction false} CumProdNonNegative(xs: seq<real>)
    requires forall j :: 0 <= j < |xs| ==> xs[j] >= 0.0
    ensures forall j :: 0 <= j < |xs| ==> CumProd(xs)[j] >= 0.0
  {
    if |xs| > 0 {
      var front := xs[..|xs| - 1];
      CumProdNonNegative(front);
      var p := CumProd(front);
      var last := (if |p| == 0 then 1.0 else p[|p| - 1]);
      assert last >= 0.0;
      MulSign(xs[|xs| - 1], 1.0);
      assert last * xs[|xs| - 1] >= 0.0;
    }
  }

  /** With non-negative phi, a positive electron density and a
      non-negative number density, every population is defined and
      non-negative. */
  lemma RawPopulationsNonNegative(col: ElementColumn, nElectron: real)
    requires nElectron > 0.0 && col.numberDensity >= 0.0
    requires forall j :: 0 <= j < |col.phi| ==> col.phi[j].Some? ==> col.phi[j].value >= 0.0
    ensures RawPopulations(col, nElectron).Some?
    ensures forall j :: 0 <= j < |col.phi| + 1 ==> RawPopulations(col, nElectron).value[j] >= 0.0
  {
    var ratios := Ratios(col.phi, nElectron);
    forall j | 0 <= j < |ratios|
      ensures ratios[j] >= 0.0
    {
      if col.phi[j].Some? {
        DivMonotone(0.0, col.phi[j].value, nElectron);
      }
    }
    var products := CumProd(ratios);
    CumProdNonNegative(ratios);
    SumNonNegative(products);
    var denominator := 1.0 + Sum(products);
    var neutral := col.numberDensity / denominator;
    DivMonotone(0.0, col.numberDensity, denominator);
    forall j | 0 <= j < |products|
      ensures neutral * products[j] >= 0.0
    {
      MulSign(products[j], 1.0);
    }
  }

  /** The Saha relation: each ion stage's population is the one below it
      times phi / n_e (a NaN phi counting as 0). */
  lemma RawPopulationsSaha(col: ElementColumn, nElectron: real, j: nat)
    requires RawPopulations(col, nElectron).Some? && j < |col.phi|
    ensures RawPopulations(col, nElectron).value[j + 1]
            == RawPopulations(col, nElectron).value[j] * Ratios(col.phi, nElectron)[j]
  {
    var ratios := Ratios(col.phi, nElectron);
    var products := CumProd(ratios);
    var neutral := col.numberDensity / (1.0 + Sum(products));
    if j == 0 {
      CumProdFirst(ratios);
    } else {
      CumProdStep(ratios, j);
      assert neutral * (products[j - 1] * ratios[j]) == (neutral * products[j - 1]) * ratios[j];
    }
  }

  /** ion_populations[ion_populations < threshold] = 0. */
  function Threshold(xs: seq<real>, threshold: real): (r: seq<real>)
    ensures |r| == |xs|
  {
    seq(|xs|, j requires 0 <= j < |xs| => if xs[j] < threshold then 0.0 else xs[j])
  }

  /** Entries below the threshold become zero and the others are kept, so
      every entry is zero or at least the threshold. */
  lemma ThresholdCorrect(xs: seq<real>, threshold: real)
    ensures forall j :: 0 <= j < |xs| ==>
              (xs[j] >= threshold ==> Threshold(xs, threshold)[j] == xs[j])
              && (xs[j] < threshold ==> Threshold(xs, threshold)[j] == 0.0)
    ensures forall j :: 0 <= j < |xs| ==> Threshold(xs, threshold)[j] == 0.0 || Threshold(xs, threshold)[j] >= threshold
  {
  }

  /** The default ion_zero_threshold, 1e-20. */
  const ION_ZERO_THRESHOLD: real := 0.00000000000000000001

  function ColumnPopulations(col: ElementColumn, nElectron: real, threshold: real): (r: Option<seq<real>>)
  {
    match RawPopulations(col, nElectron)
    case None => None
    case Some(raw) => Some(Threshold(raw, threshold))
  }

  /** The populations of every element of one cell. */
  function CellPopulations(cell: seq<ElementColumn>, nElectron: real, threshold: real): (r: seq<Option<seq<real>>>)
    ensures |r| == |cell|
  {
    seq(|cell|, e requires 0 <= e < |cell| => ColumnPopulations(cell[e], nElectron, threshold))
  }

  /** The populations of every element in every cell for given electron
      densities, one per cell. */
  function Populations(cells: seq<seq<ElementColumn>>, nElectron: seq<real>, threshold: real)
    : (pops: seq<seq<Option<seq<real>>>>)
    requires |cells| == |nElectron|
    ensures |pops| == |cells|
  {
    seq(|cells|, c requires 0 <= c < |cells| => CellPopulations(cells[c], nElectron[c], threshold))
  }

  /** calculate_with_n_electron: the populations of every element in every
      cell. */
  method CalculateWithNElectron(cells: seq<seq<ElementColumn>>, nElectron: seq<real>, threshold: real)
    returns (pops: seq<seq<Option<seq<real>>>>)
    requires |cells| == |nElectron|
    ensures pops == Populations(cells, nElectron, threshold)
  {
    ghost var all := Populations(cells, nElectron, threshold);
    pops := [];
    var c := 0;
    while c < |cells|
      invariant 0 <= c <= |cells|
      invariant pops == all[..c]
    {
      pops := pops + [CellPopulations(cells[c], nElectron[c], threshold)];
      c := c + 1;
    }
  }

  /** Free electrons contributed by one element: each stage's population
      times its ion number (the charge). */
  function Electrons(pops: seq<real>): real
  {
    if |pops| == 0 then 0.0 else Electrons(pops[..|pops| - 1]) + pops[|pops| - 1] * (|pops| - 1) as real
  }

  /** With non-negative populations the free electrons are non-negative and
      at most the highest charge times the element's total. */
  lemma {:induction false} ElectronsBounds(pops: seq<real>)
    requires forall j :: 0 <= j < |pops| ==> pops[j] >= 0.0
    ensures 0.0 <= Electrons(pops) <= (if |pops| == 0 then 0.0 else (|pops| - 1) as real * Sum(pops))
  {
    if |pops| > 0 {
      var front := pops[..|pops| - 1];
      ElectronsBounds(front);
      SumNonNegative(front);
      var top := (|pops| - 1) as real;
      if |front| > 0 {
        assert Electrons(front) <= top * Sum(front);
      }
      assert Sum(pops) == Sum(front) + pops[|pops| - 1];
      assert pops[|pops| - 1] * top >= 0.0;
    }
  }

  /** new_n_electron of one cell: the free electrons of all its elements,
      None when any of their populations is NaN. */
  function CellElectrons(cellPops: seq<Option<seq<real>>>): Option<real>
  {
    if |cellPops| == 0 then Some(0.0)
    else
      match CellElectrons(cellPops[..|cellPops| - 1])
      case None => None
      case Some(front) =>
        var last := cellPops[|cellPops| - 1];
        if last.None? then None else Some(front + Electrons(last.value))
  }

  /** A cell's electron density is NaN exactly when some element's
      populations in it are. */
  lemma {:induction false} CellElectronsKnown(cellPops: seq<Option<seq<real>>>)
    ensures CellElectrons(cellPops).Some? <==> forall e :: 0 <= e < |cellPops| ==> cellPops[e].Some?
  {
    if |cellPops| > 0 {
      var front := cellPops[..|cellPops| - 1];
      CellElectronsKnown(front);
      assert forall e :: 0 <= e < |front| ==> front[e] == cellPops[e];
    }
  }

  /** The free electrons of a cell are non-negative when every population
      in it is. */
  lemma {:induction false} CellElectronsNonNegative(cellPops: seq<Option<seq<real>>>)
    requires forall e, j :: 0 <= e < |cellPops| && cellPops[e].Some? && 0 <= j < |cellPops[e].value| ==>
               cellPops[e].value[j] >= 0.0
    requires CellElectrons(cellPops).Some?
    ensures CellElectrons(cellPops).value >= 0.0
  {
    if |cellPops| > 0 {
      var front := cellPops[..|cellPops| - 1];
      assert forall e :: 0 <= e < |front| ==> front[e] == cellPops[e];
      CellElectronsNonNegative(front);
      ElectronsBounds(cellPops[|cellPops| - 1].value);
    }
  }

  /** The new electron densities of all cells; None (the source's
      PlasmaIonizationError) when any of them is NaN. */
  function ElectronDensities(pops: seq<seq<Option<seq<real>>>>): (r: Option<seq<real>>)
    ensures r.Some? ==> |r.value| == |pops|
  {
    if |pops| == 0 then Some([])
    else
      match ElectronDensities(pops[..|pops| - 1])
      case None => None
      case Some(front) =>
        var d := CellElectrons(pops[|pops| - 1]);
        if d.None? then None else Some(front + [d.value])
  }

  /** The new densities are known exactly when every cell's is, and then
      each is that cell's free electrons. */
  lemma {:induction false} ElectronDensitiesCorrect(pops: seq<seq<Option<seq<real>>>>)
    ensures ElectronDensities(pops).Some? <==> forall c :: 0 <= c < |pops| ==> CellElectrons(pops[c]).Some?
    ensures ElectronDensities(pops).Some? ==>
              forall c :: 0 <= c < |pops| ==> ElectronDensities(pops).value[c] == CellElectrons(pops[c]).value
  {
    if |pops| > 0 {
      var front := pops[..|pops| - 1];
      ElectronDensitiesCorrect(front);
      assert forall c :: 0 <= c < |front| ==> front[c] == pops[c];
    }
  }

  /** The starting electron density of a cell: its summed number
      densities. */
  function TotalNumberDensity(cell: seq<ElementColumn>): real
  {
    if |cell| == 0 then 0.0 else TotalNumberDensity(cell[..|cell| - 1]) + cell[|cell| - 1].numberDensity
  }

  function StartingDensities(cells: seq<seq<ElementColumn>>): (r: seq<real>)
    ensures |r| == |cells|
  {
    seq(|cells|, c requires 0 <= c < |cells| => TotalNumberDensity(cells[c]))
  }

  /** Before the threshold, a cell's populations add up to the starting
      electron density of that cell (every element keeps its number
      density). */
  lemma {:induction false} RawPopulationsTotal(cell: seq<ElementColumn>, nElectron: real)
    requires forall e :: 0 <= e < |cell| ==> RawPopulations(cell[e], nElectron).Some?
    ensures SumOfRaw(cell, nElectron) == TotalNumberDensity(cell)
  {
    if |cell| > 0 {
      var front := cell[..|cell| - 1];
      assert forall e :: 0 <= e < |front| ==> front[e] == cell[e];
      RawPopulationsTotal(front, nElectron);
      RawPopulationsConserve(cell[|cell| - 1], nElectron);
    }
  }

  /** The summed untruncated populations of all elements of a cell. */
  function SumOfRaw(cell: seq<ElementColumn>, nElectron: real): real
    requires forall e :: 0 <= e < |cell| ==> RawPopulations(cell[e], nElectron).Some?
  {
    if |cell| == 0 then 0.0
    else SumOfRaw(cell[..|cell| - 1], nElectron) + Sum(RawPopulations(cell[|cell| - 1], nElectron).value)
  }

  function Abs(x: real): real { if x < 0.0 then -x else x }

  /** The 5% convergence criterion of one cell; NaN or infinite ratios (a
      zero electron density) do not pass. */
  predicate CellConverged(nElectron: real, newNElectron: real)
  {
    nElectron != 0.0 && Abs(newNElectron - nElectron) / nElectron < 0.05
  }

  predicate AllConverged(nElectron: seq<real>, newN: seq<real>)
    requires |newN| == |nElectron|
  {
    forall c :: 0 <= c < |nElectron| ==> CellConverged(nElectron[c], newN[c])
  }

  /** 0.5 * (new_n_electron + n_electron), cell by cell. */
  function Averaged(newN: seq<real>, nElectron: seq<real>): (r: seq<real>)
    requires |newN| == |nElectron|
    ensures |r| == |nElectron|
  {
    seq(|nElectron|, c requires 0 <= c < |nElectron| => 0.5 * (newN[c] + nElectron[c]))
  }

  /** Each cell's damped density lies between its old and new densities
      and equals the old one only when the new one does. */
  lemma AveragedBetween(newN: seq<real>, nElectron: seq<real>, c: nat)
    requires |newN| == |nElectron| && c < |nElectron|
    ensures var m := Averaged(newN, nElectron)[c];
            (nElectron[c] <= m <= newN[c]) || (newN[c] <= m <= nElectron[c])
    ensures Averaged(newN, nElectron)[c] == nElectron[c] <==> newN[c] == nElectron[c]
  {
  }

  datatype IonResult =
    | Converged(ionNumberDensity: seq<seq<Option<seq<real>>>>, electronDensities: seq<real>, iterations: nat)
    | IonizationError
    | NotConverged

  /** What one pass of calculate ends in: an error, convergence with the
      pass's populations, or the damped electron densities of the next pass. */
  datatype PassOutcome =
    | PassError
    | PassConverged(pops: seq<seq<Option<seq<real>>>>)
    | PassContinue(next: seq<real>)

  function PassOf(cells: seq<seq<ElementColumn>>, nElectron: seq<real>, threshold: real): (r: PassOutcome)
    requires |cells| == |nElectron|
    ensures r.PassContinue? ==> |r.next| == |nElectron|
  {
    var pops := Populations(cells, nElectron, threshold);
    match ElectronDensities(pops)
    case None => PassError
    case Some(newN) =>
      if AllConverged(nElectron, newN) then PassConverged(pops) else PassContinue(Averaged(newN, nElectron))
  }

  /** A cell's new electron density is NaN exactly when some element's
      populations in it are. */
  lemma CellPopulationsKnown(cell: seq<ElementColumn>, nElectron: real, threshold: real)
    ensures CellElectrons(CellPopulations(cell, nElectron, threshold)).Some?
            <==> forall e :: 0 <= e < |cell| ==> ColumnPopulations(cell[e], nElectron, threshold).Some?
  {
    var cellPops := CellPopulations(cell, nElectron, threshold);
    CellElectronsKnown(cellPops);
    assert forall e :: 0 <= e < |cell| ==> cellPops[e] == ColumnPopulations(cell[e], nElectron, threshold);
  }

  /** A pass fails exactly when some element's populations in some cell
      are NaN (a zero electron density or a zero Saha denominator). */
  lemma PassErrorMeans(cells: seq<seq<ElementColumn>>, nElectron: seq<real>, threshold: real)
    requires |cells| == |nElectron|
    ensures PassOf(cells, nElectron, threshold).PassError?
            <==> exists c, e :: 0 <= c < |cells| && 0 <= e < |cells[c]|
                                && ColumnPopulations(cells[c][e], nElectron[c], threshold).None?
  {
    var pops := Populations(cells, nElectron, threshold);
    ElectronDensitiesCorrect(pops);
    forall c | 0 <= c < |cells|
      ensures CellElectrons(pops[c]).Some? <==>
                forall e :: 0 <= e < |cells[c]| ==> ColumnPopulations(cells[c][e], nElectron[c], threshold).Some?
    {
      assert pops[c] == CellPopulations(cells[c], nElectron[c], threshold);
      CellPopulationsKnown(cells[c], nElectron[c], threshold);
    }
  }

  /** A converging pass returns the populations of that pass, and every
      cell's recomputed electron density is within 5% of the one used. */
  lemma PassConvergedMeans(cells: seq<seq<ElementColumn>>, nElectron: seq<real>, threshold: real)
    requires |cells| == |nElectron|
    requires PassOf(cells, nElectron, threshold).PassConverged?
    ensures PassOf(cells, nElectron, threshold).pops == Populations(cells, nElectron, threshold)
    ensures forall c :: 0 <= c < |cells| ==>
              CellElectrons(Populations(cells, nElectron, threshold)[c]).Some?
              && CellConverged(nElectron[c], CellElectrons(Populations(cells, nElectron, threshold)[c]).value)
  {
    ElectronDensitiesCorrect(Populations(cells, nElectron, threshold));
  }

  /** The iteration of calculate as a recursion on the remaining passes. */
  function Solve(cells: seq<seq<ElementColumn>>, nElectron: seq<real>, threshold: real, fuel: nat,
                 done: nat): IonResult
    requires |cells| == |nElectron|
    decreases fuel
  {
    if fuel == 0 then NotConverged
    else
      match PassOf(cells, nElectron, threshold)
      case PassError => IonizationError
      case PassConverged(pops) => Converged(pops, nElectron, done + 1)
      case PassContinue(next) => Solve(cells, next, threshold, fuel - 1, done + 1)
  }

  /** A converged result comes from a converging pass at the electron
      densities it returns, after at least one and at most fuel passes. */
  lemma {:induction false} SolveConverged(cells: seq<seq<ElementColumn>>, nElectron: seq<real>, threshold: real,
                                          fuel: nat, done: nat)
    requires |cells| == |nElectron|
    requires Solve(cells, nElectron, threshold, fuel, done).Converged?
    decreases fuel
    ensures var r := Solve(cells, nElectron, threshold, fuel, done);
            && |r.electronDensities| == |cells|
            && done < r.iterations <= done + fuel
            && PassOf(cells, r.electronDensities, threshold) == PassConverged(r.ionNumberDensity)
  {
    var outcome := PassOf(cells, nElectron, threshold);
    if outcome.PassContinue? {
      SolveConverged(cells, outcome.next, threshold, fuel - 1, done + 1);
    }
  }

  /** The electron densities of all cells, computed cell by cell. */
  method NewElectronDensities(pops: seq<seq<Option<seq<real>>>>) returns (r: Option<seq<real>>)
    ensures r == ElectronDensities(pops)
  {
    var densities: seq<real> := [];
    var c := 0;
    while c < |pops|
      invariant 0 <= c <= |pops|
      invariant ElectronDensities(pops[..c]) == Some(densities)
    {
      assert pops[..c + 1][..c] == pops[..c];
      var d := CellElectrons(pops[c]);
      if d.None? {
        ElectronDensitiesCorrect(pops);
        ElectronDensitiesCorrect(pops[..c + 1]);
        return None;
      }
      densities := densities + [d.value];
      c := c + 1;
    }
    assert pops[..|pops|] == pops;
    r := Some(densities);
  }

  /** One pass of calculate: the populations for the current electron
      densities, the electron densities they give, and the decision. */
  method Pass(cells: seq<seq<ElementColumn>>, nElectron: seq<real>, threshold: real)
    returns (outcome: PassOutcome)
    requires |cells| == |nElectron|
    ensures outcome == PassOf(cells, nElectron, threshold)
  {
    var pops := CalculateWithNElectron(cells, nElectron, threshold);
    var newN := NewElectronDensities(pops);
    if newN.None? {
      return PassError;
    }
    if AllConverged(nElectron, newN.value) {
      return PassConverged(pops);
    }
    outcome := PassContinue(Averaged(newN.value, nElectron));
  }

  /** IonNumberDensity.calculate: start from the summed number densities,
      compute the populations, recompute the electron densities, stop when
      every cell is within 5%, otherwise average old and new and repeat. The
      source loops without bound; maxIterations bounds the passes here. */
  method Calculate(cells: seq<seq<ElementColumn>>, threshold: real, maxIterations: nat)
    returns (r: IonResult)
    ensures r == Solve(cells, StartingDensities(cells), threshold, maxIterations, 0)
  {
    var nElectron := StartingDensities(cells);
    ghost var goal := Solve(cells, nElectron, threshold, maxIterations, 0);
    var iterations := 0;
    while iterations < maxIterations
      invariant |nElectron| == |cells| && iterations <= maxIterations
      invariant goal == Solve(cells, nElectron, threshold, maxIterations - iterations, iterations)
      decreases maxIterations - iterations
    {
      var outcome := Pass(cells, nElectron, threshold);
      iterations := iterations + 1;
      match outcome
      case PassError => return IonizationError;
      case PassConverged(pops) => return Converged(pops, nElectron, iterations);
      case PassContinue(next) => nElectron := next;
    }
    return NotConverged;
  }
}
