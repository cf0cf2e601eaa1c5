/** The discrete pieces of the Spencer-Fano solver for non-thermal electrons
    (tardis/energy_input/spencer_fano.py): the uniform energy grid, the mean
    ionisation energy J, the threshold of the Arnaud and Rothenflug cross
    sections, the grid index lookup, where the ionisation term starts, the
    constant vector of the linear system and the source vector. log is
    passed in as a function. */
module SpencerFano {
  import opened Common

  // Energy_Grid

  /** An Energy_Grid: its number of points, the points and their spacing. */
  datatype EnergyGrid = EnergyGrid(size: nat, grid: seq<real>, deltaEnergy: real)

  /** np.linspace(lo, hi, num=points): points evenly spaced values from lo
      to hi inclusive (just lo for a single point). */
  function Linspace(lo: real, hi: real, points: nat): (g: seq<real>)
    ensures |g| == points
  {
    seq(points, i requires 0 <= i < points =>
      if points == 1 then lo else lo + i as real * ((hi - lo) / (points - 1) as real))
  }

  /** Energy_Grid(energy_min, energy_max, points); reading grid[1] for the
      spacing fails (None) with fewer than two points. */
  function MakeGrid(energyMin: real, energyMax: real, points: nat): Option<EnergyGrid>
  {
    var grid := Linspace(energyMin, energyMax, points);
    if points < 2 then None else Some(EnergyGrid(points, grid, grid[1] - grid[0]))
  }

  /** A grid runs from energy_min to energy_max in steps of deltaEnergy;
      with energy_min < energy_max it is strictly increasing. */
  lemma {:induction false} GridUniform(energyMin: real, energyMax: real, points: nat, i: nat)
    requires MakeGrid(energyMin, energyMax, points).Some? && i < points
    ensures var g := MakeGrid(energyMin, energyMax, points).value;
            g.size == points && |g.grid| == points && g.grid[0] == energyMin &&
            g.grid[points - 1] == energyMax &&
            g.deltaEnergy == (energyMax - energyMin) / (points - 1) as real &&
            g.grid[i] == energyMin + i as real * g.deltaEnergy &&
            (energyMin < energyMax ==> g.deltaEnergy > 0.0)
  {
    var step := (energyMax - energyMin) / (points - 1) as real;
    DivMul(energyMax - energyMin, (points - 1) as real);
    assert (points - 1) as real * step == energyMax - energyMin;
    if energyMin < energyMax {
      DivMonotone(0.0, energyMax - energyMin, (points - 1) as real);
    }
  }

  // get_J

  /** The mean energy J (eV) of the ionisation cross-section shape: the
      tabulated values of Opal et al. for the neutral noble gases He, Ne
      and Ar, 0.6 times the ionisation potential otherwise. */
  function GetJ(atomicNumber: int, ionizationNumber: int, ionPotential: real): real
  {
    if ionizationNumber == 1 && atomicNumber == 2 then 15.8
    else if ionizationNumber == 1 && atomicNumber == 10 then 24.2
    else if ionizationNumber == 1 && atomicNumber == 18 then 10.0
    else 0.6 * ionPotential
  }

  /** The table covers exactly He, Ne and Ar with ionisation number 1; and
      with a positive potential J is positive, so the divisions by J in the
      ionisation term are defined. */
  lemma GetJValues(atomicNumber: int, ionizationNumber: int, ionPotential: real)
    ensures ionizationNumber == 1 && atomicNumber == 2 ==> GetJ(atomicNumber, ionizationNumber, ionPotential) == 15.8
    ensures ionizationNumber == 1 && atomicNumber == 10 ==> GetJ(atomicNumber, ionizationNumber, ionPotential) == 24.2
    ensures ionizationNumber == 1 && atomicNumber == 18 ==> GetJ(atomicNumber, ionizationNumber, ionPotential) == 10.0
    ensures !(ionizationNumber == 1 && atomicNumber in {2, 10, 18}) ==>
              GetJ(atomicNumber, ionizationNumber, ionPotential) == 0.6 * ionPotential
    ensures ionPotential > 0.0 ==> GetJ(atomicNumber, ionizationNumber, ionPotential) > 0.0
  {
  }

  // arnaud_cross_section

  /** The Arnaud and Rothenflug ionisation cross section at `energy` for a
      shell of the given potential and fit coefficients A, B, C, D. */
  function ArnaudCrossSection(energy: real, ionPotential: real, a: real, b: real, c: real, d: real,
                              log: real -> real): real
    requires ionPotential != 0.0
  {
    var u := energy / ionPotential;
    if u <= 1.0 then 0.0
    else
      var x := 1.0 - 1.0 / u;
      0.00000000000001 * (a * x + b * (x * x) + c * log(u) + d * log(u) / u) / (u * (ionPotential * ionPotential))
  }

  /** No ionisation at or below the potential: the cross section is zero
      there. */
  lemma ArnaudThreshold(energy: real, ionPotential: real, a: real, b: real, c: real, d: real,
                        log: real -> real)
    requires ionPotential > 0.0 && energy <= ionPotential
    ensures ArnaudCrossSection(energy, ionPotential, a, b, c, d, log) == 0.0
  {
    DivMonotone(energy, ionPotential, ionPotential);
    assert ionPotential / ionPotential == 1.0;
  }

  // get_index

  /** What get_index ends in: an assertion or index error (Failed), a loop
      that never bound `index` (Unbound, a NameError), or the index. */
  datatype IndexOutcome = Failed | Unbound | Found(index: nat)

  /** The assertions of get_index, which also read grid[0], grid[1] and
      grid[-1]: the energy lies in [grid[0], grid[-1] + (grid[1] - grid[0])). */
  predicate IndexGuard(energy: real, grid: seq<real>)
  {
    |grid| >= 2 && grid[0] <= energy && energy < grid[|grid| - 1] + (grid[1] - grid[0])
  }

  /** get_index: the last grid index whose energy is below the given one,
      found by a scan that overwrites `index` at every such point. */
  method GetIndex(energy: real, grid: seq<real>) returns (r: IndexOutcome)
    ensures r.Failed? <==> !IndexGuard(energy, grid)
    ensures r.Found? ==>
              r.index < |grid| && grid[r.index] < energy &&
              forall j :: r.index < j < |grid| ==> energy <= grid[j]
    ensures r.Unbound? <==> IndexGuard(energy, grid) && forall j :: 0 <= j < |grid| ==> energy <= grid[j]
    ensures r.Unbound? ==> energy == grid[0]
  {
    if |grid| == 0 || energy < grid[0] {
      return Failed;
    }
    if |grid| < 2 || energy >= grid[|grid| - 1] + (grid[1] - grid[0]) {
      return Failed;
    }
    var index: Option<nat> := None;
    for i := 0 to |grid|
      invariant index.Some? ==> index.value < i && grid[index.value] < energy
      invariant index.Some? ==> forall j :: index.value < j < i ==> energy <= grid[j]
      invariant index.None? ==> forall j :: 0 <= j < i ==> energy <= grid[j]
    {
      if grid[i] < energy {
        index := Some(i);
      }
    }
    if index.None? {
      return Unbound;
    }
    r := Found(index.value);
  }

  /** On an increasing grid the index found brackets the energy:
      grid[i] < energy <= grid[i + 1]. */
  lemma IndexBrackets(energy: real, grid: seq<real>, i: nat)
    requires i + 1 < |grid| && grid[i] < energy
    requires forall j :: i < j < |grid| ==> energy <= grid[j]
    ensures grid[i] < energy <= grid[i + 1]
  {
  }

  // spencer_fano_matrix_add_ionization_shell: where the ionisation term starts

  /** cross_section_start_index: 0 for a potential at or below the first
      grid energy, get_index of the potential otherwise. Reading grid[0] of
      an empty grid fails. The index is never left unbound here, since
      get_index is asked only for energies above grid[0]. */
  method CrossSectionStartIndex(ionPotential: real, grid: seq<real>) returns (r: IndexOutcome)
    ensures |grid| == 0 ==> r.Failed?
    ensures |grid| > 0 && ionPotential <= grid[0] ==> r == Found(0)
    ensures |grid| > 0 && ionPotential > grid[0] ==>
              (r.Failed? <==> !IndexGuard(ionPotential, grid)) &&
              (r.Found? ==> r.index < |grid| && grid[r.index] < ionPotential &&
                            forall j :: r.index < j < |grid| ==> ionPotential <= grid[j])
    ensures !r.Unbound?
  {
    if |grid| == 0 {
      return Failed;
    }
    if ionPotential <= grid[0] {
      return Found(0);
    }
    r := GetIndex(ionPotential, grid);
  }

  /** j_start = max(i, cross_section_start_index): row i of the matrix
      visits the columns at or after both, and no others. */
  function ColumnStart(i: nat, start: nat): (r: nat)
    ensures r >= i && r >= start && (r == i || r == start)
  {
    if i > start then i else start
  }

  // solve_spencer_fano: the constant vector

  /** Adding one more term at the back of a slice. */
  lemma SliceStep(t: seq<real>, i: nat, j: nat)
    requires i <= j < |t|
    ensures Sum(t[i..j + 1]) == Sum(t[i..j]) + t[j]
  {
    assert t[i..j + 1][..j - i] == t[i..j];
  }

  /** constant_vector[i] += source[j] * dE for every j >= i: the i-th entry
      is the sum of the source from i on, times dE. */
  method ConstantVector(source: seq<real>, deltaEnergy: real) returns (c: array<real>)
    ensures fresh(c) && c.Length == |source|
    ensures forall i :: 0 <= i < |source| ==> c[i] == Sum(Scale(deltaEnergy, source)[i..])
  {
    var points := |source|;
    ghost var terms := Scale(deltaEnergy, source);
    c := new real[points](_ => 0.0);
    for i := 0 to points
      invariant forall k :: 0 <= k < i ==> c[k] == Sum(terms[k..])
      invariant forall k :: i <= k < points ==> c[k] == 0.0
    {
      assert terms[i..i] == [];
      for j := i to points
        invariant c[i] == Sum(terms[i..j])
        invariant forall k :: 0 <= k < i ==> c[k] == Sum(terms[k..])
        invariant forall k :: i < k < points ==> c[k] == 0.0
      {
        SliceStep(terms, i, j);
        c[i] := c[i] + source[j] * deltaEnergy;
      }
      assert terms[i..points] == terms[i..];
    }
  }

  /** A suffix sum of non-negative terms shrinks as the suffix starts
      later. */
  lemma SuffixSumMonotone(t: seq<real>, i: nat, k: nat)
    requires i <= k <= |t|
    requires forall j :: 0 <= j < |t| ==> t[j] >= 0.0
    ensures Sum(t[k..]) <= Sum(t[i..])
  {
    assert t[i..] == t[i..k] + t[k..];
    SumAppend(t[i..k], t[k..]);
    assert forall j :: 0 <= j < |t[i..k]| ==> t[i..k][j] == t[i + j];
    SumNonNegative(t[i..k]);
  }

  /** With a non-negative source and spacing the constant vector does not
      increase along the grid, and its first entry is dE times the total
      source. */
  lemma SuffixSums(source: seq<real>, deltaEnergy: real, i: nat, k: nat)
    requires i <= k <= |source|
    requires deltaEnergy >= 0.0 && forall j :: 0 <= j < |source| ==> source[j] >= 0.0
    ensures Sum(Scale(deltaEnergy, source)[k..]) <= Sum(Scale(deltaEnergy, source)[i..])
    ensures Sum(Scale(deltaEnergy, source)[0..]) == deltaEnergy * Sum(source)
  {
    var t := Scale(deltaEnergy, source);
    ScaleNonNegative(deltaEnergy, source);
    SuffixSumMonotone(t, i, k);
    assert t[0..] == t;
    SumScale(deltaEnergy, source);
  }

  lemma ScaleNonNegative(c: real, s: seq<real>)
    requires c >= 0.0 && forall j :: 0 <= j < |s| ==> s[j] >= 0.0
    ensures forall j :: 0 <= j < |s| ==> Scale(c, s)[j] >= 0.0
  {
    forall j | 0 <= j < |s|
      ensures Scale(c, s)[j] >= 0.0
    {
      if c > 0.0 {
        MulSign(s[j], c);
      }
    }
  }

  // setup_solution: the source vector

  /** ceil(x) for a real x. */
  function Ceil(x: real): (n: int)
    ensures x <= n as real < x + 1.0
  {
    if x.Floor as real == x then x.Floor else x.Floor + 1
  }

  /** source_spread_points = ceil(0.03 points): the number of grid points the
      source is spread over; between 1 and points for a non-empty grid. */
  function SpreadPoints(points: nat): (n: int)
    ensures points >= 1 ==> 1 <= n <= points
    ensures points == 0 ==> n == 0
  {
    Ceil(points as real * 0.03)
  }

  /** The source vector: 0 below the last source_spread_points points and
      1 / (dE * source_spread_points) on them. */
  function SourceProfile(points: nat, deltaEnergy: real): (s: seq<real>)
    requires deltaEnergy != 0.0
    ensures |s| == points
  {
    var spread := SpreadPoints(points);
    seq(points, k requires 0 <= k < points =>
      if k < points - spread then 0.0 else 1.0 / (deltaEnergy * spread as real))
  }

  /** The loop of setup_solution filling the source vector. */
  method SourceVector(points: nat, deltaEnergy: real) returns (s: array<real>)
    requires deltaEnergy != 0.0
    ensures fresh(s) && s[..] == SourceProfile(points, deltaEnergy)
  {
    s := new real[points](_ => 0.0);
    var spread := Ceil(points as real * 0.03);
    for k := 0 to points
      invariant forall j :: 0 <= j < k ==> s[j] == SourceProfile(points, deltaEnergy)[j]
    {
      if k < points - spread {
        s[k] := 0.0;
      } else if k < points {
        s[k] := 1.0 / (deltaEnergy * spread as real);
      }
    }
  }

  /** The sum of n copies of v. */
  lemma {:induction false} SumConstant(s: seq<real>, v: real)
    requires forall k :: 0 <= k < |s| ==> s[k] == v
    ensures Sum(s) == |s| as real * v
  {
    if |s| > 0 {
      SumConstant(s[..|s| - 1], v);
    }
  }

  /** The source is normalised: on a non-empty grid its sum times dE is 1,
      and with dE > 0 every entry is non-negative. */
  lemma SourceNormalised(points: nat, deltaEnergy: real)
    requires points >= 1 && deltaEnergy != 0.0
    ensures Sum(SourceProfile(points, deltaEnergy)) * deltaEnergy == 1.0
    ensures deltaEnergy > 0.0 ==> forall k :: 0 <= k < points ==> SourceProfile(points, deltaEnergy)[k] >= 0.0
  {
    var spread := SpreadPoints(points);
    SourceSum(points, deltaEnergy);
    SpreadTimesHeight(spread as real, deltaEnergy);
    if deltaEnergy > 0.0 {
      MulSign(spread as real, deltaEnergy);
      assert deltaEnergy * spread as real > 0.0;
      DivMonotone(0.0, 1.0, deltaEnergy * spread as real);
    }
  }

  /** The source adds up to its height times the number of spread points. */
  lemma SourceSum(points: nat, deltaEnergy: real)
    requires points >= 1 && deltaEnergy != 0.0
    ensures Sum(SourceProfile(points, deltaEnergy))
            == SpreadPoints(points) as real * (1.0 / (deltaEnergy * SpreadPoints(points) as real))
  {
    var s := SourceProfile(points, deltaEnergy);
    var spread := SpreadPoints(points);
    var v := 1.0 / (deltaEnergy * spread as real);
    var cut := points - spread;
    var zeros, heights := s[..cut], s[cut..];
    assert s == zeros + heights;
    assert forall k :: 0 <= k < |zeros| ==> zeros[k] == 0.0;
    assert forall k :: 0 <= k < |heights| ==> heights[k] == v;
    SumAppend(zeros, heights);
    SumConstant(zeros, 0.0);
    SumConstant(heights, v);
  }

  lemma SpreadTimesHeight(n: real, e: real)
    requires n > 0.0 && e != 0.0
    ensures n * (1.0 / (e * n)) * e == 1.0
  {
    MulSign(n, 1.0);
    assert e * n != 0.0;
    DivMul(1.0, e * n);
    assert n * (1.0 / (e * n)) * e == (1.0 / (e * n)) * (e * n);
  }
}
