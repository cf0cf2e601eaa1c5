/** The first LTE plasma (tardis/plasma.py): the abundance array, the
    loaders that fill ion-by-atom arrays from database rows, the oscillator
    strengths of the line list, and the Saha ion populations with their
    damped electron-density loop. A database cursor is the sequence of rows
    it yields; exp, sqrt and 10 ** x are passed in as values. Arrays are
    indexed as in numpy: a negative index counts from the end, one outside
    the array raises IndexError, modelled as None.

    The class as written cannot be built: its constructor never stores the
    atomic model it is given, yet reads it back (as atomic_model) while
    computing the atom number densities, and the methods modelled here read
    it under two names, atom_model and atomic_model. The model passes the
    atomic data to each operation as a parameter instead. */
module LegacyPlasma {
  import opened Common
  import IonPopulation

  // Writes into a zero array: the last write to a slot wins.

  /** The value left in slot k of a zero array by a sequence of
      (slot, value) writes: the last value written to k, or 0. */
  function LastWrite<K(==)>(writes: seq<(K, real)>, k: K): real
  {
    if |writes| == 0 then 0.0
    else if writes[|writes| - 1].0 == k then writes[|writes| - 1].1
    else LastWrite(writes[..|writes| - 1], k)
  }

  /** One more write changes only its own slot. */
  lemma LastWriteAppend<K>(writes: seq<(K, real)>, w: (K, real))
    ensures forall k :: LastWrite(writes + [w], k) == if w.0 == k then w.1 else LastWrite(writes, k)
  {
    assert (writes + [w])[..|writes|] == writes;
  }

  predicate DistinctSlots<K(==)>(writes: seq<(K, real)>)
  {
    forall i, j :: 0 <= i < j < |writes| ==> writes[i].0 != writes[j].0
  }

  /** When no slot is written twice, each written slot holds its value and
      every slot that is never written holds 0. */
  lemma {:induction false} LastWriteDistinct<K>(writes: seq<(K, real)>, k: K)
    requires DistinctSlots(writes)
    ensures forall i :: 0 <= i < |writes| && writes[i].0 == k ==> LastWrite(writes, k) == writes[i].1
    ensures (forall i :: 0 <= i < |writes| ==> writes[i].0 != k) ==> LastWrite(writes, k) == 0.0
  {
    if |writes| > 0 {
      var front := writes[..|writes| - 1];
      assert forall i :: 0 <= i < |front| ==> front[i] == writes[i];
      LastWriteDistinct(front, k);
    }
  }

  // named2array_abundances

  /** An abundance given by element symbol can be placed: the symbol is
      known and its atomic number minus one indexes an array of maxAtom
      entries. */
  predicate AbundanceKnown(entry: (string, real), maxAtom: nat, symbol2z: map<string, int>)
  {
    entry.0 in symbol2z && PyIndexValid(symbol2z[entry.0] - 1, maxAtom)
  }

  /** The writes of the abundance loop, one per symbol in the dictionary's
      order. */
  function AbundanceWrites(named: seq<(string, real)>, maxAtom: nat, symbol2z: map<string, int>): (w: seq<(int, real)>)
    requires forall k :: 0 <= k < |named| ==> AbundanceKnown(named[k], maxAtom, symbol2z)
    ensures |w| == |named|
  {
    seq(|named|, k requires 0 <= k < |named| && AbundanceKnown(named[k], maxAtom, symbol2z) => (PyIndex(symbol2z[named[k].0] - 1, maxAtom), named[k].1))
  }

  /** named2array_abundances: a zero array of maxAtom entries, then each
      symbol's abundance written at its atomic number minus one. An unknown
      symbol (KeyError) or an index outside the array (IndexError) is None. */
  method Named2ArrayAbundances(named: seq<(string, real)>, maxAtom: nat, symbol2z: map<string, int>)
    returns (r: Option<array<real>>)
    ensures r.None? <==> exists k :: 0 <= k < |named| && !AbundanceKnown(named[k], maxAtom, symbol2z)
    ensures r.Some? ==> fresh(r.value) && r.value.Length == maxAtom
    ensures r.Some? ==> forall k :: 0 <= k < maxAtom ==> r.value[k] == LastWrite(AbundanceWrites(named, maxAtom, symbol2z), k)
  {
    var abundances := new real[maxAtom](_ => 0.0);
    for i := 0 to |named|
      invariant forall k :: 0 <= k < i ==> AbundanceKnown(named[k], maxAtom, symbol2z)
      invariant forall k :: 0 <= k < maxAtom ==>
                  abundances[k] == LastWrite(AbundanceWrites(named[..i], maxAtom, symbol2z), k)
    {
      var symbol := named[i].0;
      if symbol !in symbol2z || !PyIndexValid(symbol2z[symbol] - 1, maxAtom) {
        return None;
      }
      var slot := PyIndex(symbol2z[symbol] - 1, maxAtom);
      abundances[slot] := named[i].1;
      assert AbundanceWrites(named[..i + 1], maxAtom, symbol2z)
             == AbundanceWrites(named[..i], maxAtom, symbol2z) + [(slot, named[i].1)];
    }
    assert named[..|named|] == named;
    return Some(abundances);
  }

  /** With distinct atomic numbers in 1..maxAtom, entry z - 1 holds the
      abundance of the symbol with atomic number z and every other entry is
      0. */
  lemma AbundancesPlaced(named: seq<(string, real)>, maxAtom: nat, symbol2z: map<string, int>)
    requires forall k :: 0 <= k < |named| ==> named[k].0 in symbol2z && 1 <= symbol2z[named[k].0] <= maxAtom
    requires forall i, j :: 0 <= i < j < |named| ==> symbol2z[named[i].0] != symbol2z[named[j].0]
    ensures forall k :: 0 <= k < |named| ==> AbundanceKnown(named[k], maxAtom, symbol2z)
    ensures forall k :: 0 <= k < |named| ==>
              LastWrite(AbundanceWrites(named, maxAtom, symbol2z), symbol2z[named[k].0] - 1) == named[k].1
    ensures forall slot :: 0 <= slot < maxAtom && (forall k :: 0 <= k < |named| ==> symbol2z[named[k].0] - 1 != slot) ==>
              LastWrite(AbundanceWrites(named, maxAtom, symbol2z), slot) == 0.0
  {
    var writes := AbundanceWrites(named, maxAtom, symbol2z);
    assert forall k :: 0 <= k < |named| ==> writes[k].0 == symbol2z[named[k].0] - 1;
    assert DistinctSlots(writes);
    forall k | 0 <= k < |named|
      ensures LastWrite(writes, symbol2z[named[k].0] - 1) == named[k].1
    {
      LastWriteDistinct(writes, writes[k].0);
    }
    forall slot | 0 <= slot < maxAtom && (forall k :: 0 <= k < |named| ==> symbol2z[named[k].0] - 1 != slot)
      ensures LastWrite(writes, slot) == 0.0
    {
      LastWriteDistinct(writes, slot);
    }
  }

  // read_ionize_data_from_db

  /** A row of the ionization table. */
  datatype IonizeRow = IonizeRow(atom: int, ion: int, ionizeEv: real)

  /** The WHERE clause of the ionization query. */
  predicate IonizeSelected(row: IonizeRow, maxAtom: nat, maxIon: nat)
  {
    row.atom <= maxAtom && row.ion <= maxIon
  }

  /** [ion - 1, atom - 1] indexes a maxIon x maxAtom array. */
  predicate IonizeSlotValid(row: IonizeRow, maxAtom: nat, maxIon: nat)
  {
    PyIndexValid(row.ion - 1, maxIon) && PyIndexValid(row.atom - 1, maxAtom)
  }

  predicate IonizeRowsValid(table: seq<IonizeRow>, maxAtom: nat, maxIon: nat)
  {
    forall k :: 0 <= k < |table| && IonizeSelected(table[k], maxAtom, maxIon) ==> IonizeSlotValid(table[k], maxAtom, maxIon)
  }

  /** max_ion, which defaults to max_atom. */
  function IonRows(maxAtom: nat, maxIon: Option<nat>): nat
  {
    if maxIon.None? then maxAtom else maxIon.value
  }

  /** The writes of the ionization loop: one per selected row, in cursor
      order. */
  function IonizeWrites(table: seq<IonizeRow>, maxAtom: nat, maxIon: nat): seq<((int, int), real)>
    requires IonizeRowsValid(table, maxAtom, maxIon)
  {
    if |table| == 0 then []
    else
      var n := |table| - 1;
      var row := table[n];
      assert forall k :: 0 <= k < n ==> table[..n][k] == table[k];
      IonizeWrites(table[..n], maxAtom, maxIon) +
        (if IonizeSelected(row, maxAtom, maxIon)
         then [((PyIndex(row.ion - 1, maxIon), PyIndex(row.atom - 1, maxAtom)), row.ionizeEv)]
         else [])
  }

  /** read_ionize_data_from_db: a zero max_ion x max_atom array, then each
      selected row's ionization energy written at [ion - 1, atom - 1]. A
      row that lands outside the array (IndexError) is None. The rows the
      query filters out are skipped. */
  method ReadIonizeData(table: seq<IonizeRow>, maxAtom: nat, maxIon: Option<nat>) returns (r: Option<array2<real>>)
    ensures r.None? <==> !IonizeRowsValid(table, maxAtom, IonRows(maxAtom, maxIon))
    ensures r.Some? ==> fresh(r.value) && r.value.Length0 == IonRows(maxAtom, maxIon) && r.value.Length1 == maxAtom
    ensures r.Some? ==> forall i, a :: 0 <= i < r.value.Length0 && 0 <= a < maxAtom ==>
              r.value[i, a] == LastWrite(IonizeWrites(table, maxAtom, IonRows(maxAtom, maxIon)), (i, a))
  {
    var rows := IonRows(maxAtom, maxIon);
    var data := new real[rows, maxAtom]((_, _) => 0.0);
    for k := 0 to |table|
      invariant IonizeRowsValid(table[..k], maxAtom, rows)
      invariant forall i, a :: 0 <= i < rows && 0 <= a < maxAtom ==>
                  data[i, a] == LastWrite(IonizeWrites(table[..k], maxAtom, rows), (i, a))
    {
      var row := table[k];
      assert table[..k + 1][..k] == table[..k];
      ghost var before := IonizeWrites(table[..k], maxAtom, rows);
      if IonizeSelected(row, maxAtom, rows) {
        if !IonizeSlotValid(row, maxAtom, rows) {
          return None;
        }
        var slot: (int, int) := (PyIndex(row.ion - 1, rows), PyIndex(row.atom - 1, maxAtom));
        data[slot.0, slot.1] := row.ionizeEv;
        assert IonizeWrites(table[..k + 1], maxAtom, rows) == before + [(slot, row.ionizeEv)];
        LastWriteAppend(before, (slot, row.ionizeEv));
      } else {
        assert IonizeWrites(table[..k + 1], maxAtom, rows) == before;
      }
    }
    assert table[..|table|] == table;
    r := Some(data);
  }

  /** Selected rows have 1 <= ion and 1 <= atom, and no two share
      (atom, ion). */
  predicate IonizeRowsDistinct(table: seq<IonizeRow>, maxAtom: nat, maxIon: nat)
  {
    (forall k :: 0 <= k < |table| && IonizeSelected(table[k], maxAtom, maxIon) ==>
       1 <= table[k].ion && 1 <= table[k].atom) &&
    (forall k, l ::
       (0 <= k < l < |table| && IonizeSelected(table[k], maxAtom, maxIon) && IonizeSelected(table[l], maxAtom, maxIon)) ==>
       table[k].atom != table[l].atom || table[k].ion != table[l].ion)
  }

  /** With distinct (atom, ion) keys each selected row's ionization energy
      ends up at [ion - 1, atom - 1]. */
  lemma {:induction false} IonizePlaced(table: seq<IonizeRow>, maxAtom: nat, maxIon: nat, k: nat)
    requires IonizeRowsDistinct(table, maxAtom, maxIon)
    requires k < |table| && IonizeSelected(table[k], maxAtom, maxIon)
    ensures IonizeRowsValid(table, maxAtom, maxIon)
    ensures LastWrite(IonizeWrites(table, maxAtom, maxIon), (table[k].ion - 1, table[k].atom - 1)) == table[k].ionizeEv
  {
    var n := |table| - 1;
    var front := table[..n];
    assert forall j :: 0 <= j < n ==> front[j] == table[j];
    var row := table[n];
    var slot := (table[k].ion - 1, table[k].atom - 1);
    if k < n {
      IonizePlaced(front, maxAtom, maxIon, k);
    } else {
      assert IonizeRowsValid(front, maxAtom, maxIon);
    }
    var frontWrites := IonizeWrites(front, maxAtom, maxIon);
    if IonizeSelected(row, maxAtom, maxIon) {
      var w := ((PyIndex(row.ion - 1, maxIon), PyIndex(row.atom - 1, maxAtom)), row.ionizeEv);
      assert w.0 == (row.ion - 1, row.atom - 1);
      assert IonizeWrites(table, maxAtom, maxIon) == frontWrites + [w];
      LastWriteAppend(frontWrites, w);
    } else {
      assert IonizeWrites(table, maxAtom, maxIon) == frontWrites;
    }
  }

  /** A cell that no selected row lands in stays 0. */
  lemma {:induction false} IonizeUntouched(table: seq<IonizeRow>, maxAtom: nat, maxIon: nat, i: int, a: int)
    requires IonizeRowsDistinct(table, maxAtom, maxIon)
    requires forall k :: 0 <= k < |table| && IonizeSelected(table[k], maxAtom, maxIon) ==>
               table[k].ion - 1 != i || table[k].atom - 1 != a
    ensures IonizeRowsValid(table, maxAtom, maxIon)
    ensures LastWrite(IonizeWrites(table, maxAtom, maxIon), (i, a)) == 0.0
  {
    if |table| > 0 {
      var n := |table| - 1;
      var front := table[..n];
      assert forall j :: 0 <= j < n ==> front[j] == table[j];
      IonizeUntouched(front, maxAtom, maxIon, i, a);
      var frontWrites := IonizeWrites(front, maxAtom, maxIon);
      var row := table[n];
      if IonizeSelected(row, maxAtom, maxIon) {
        var w := ((PyIndex(row.ion - 1, maxIon), PyIndex(row.atom - 1, maxAtom)), row.ionizeEv);
        assert w.0 == (row.ion - 1, row.atom - 1);
        assert IonizeWrites(table, maxAtom, maxIon) == frontWrites + [w];
        LastWriteAppend(frontWrites, w);
      } else {
        assert IonizeWrites(table, maxAtom, maxIon) == frontWrites;
      }
    }
  }

  // read_level_data

  /** A row of the levels table. */
  datatype LevelRow = LevelRow(elem: int, ion: int, energy: real, g: real)

  /** The rows the level query selects with its two parameters bound to
      atomBound and ionBound: elem <= atomBound and ion < ionBound, in
      table order. */
  function Query(table: seq<LevelRow>, atomBound: int, ionBound: int): (rows: seq<LevelRow>)
    ensures forall row :: row in rows <==> row in table && row.elem <= atomBound && row.ion < ionBound
  {
    if |table| == 0 then []
    else
      var n := |table| - 1;
      assert table == table[..n] + [table[n]];
      Query(table[..n], atomBound, ionBound) +
        (if table[n].elem <= atomBound && table[n].ion < ionBound then [table[n]] else [])
  }

  /** [ion, elem - 1] indexes an nIon x nAtom array. */
  predicate LevelSlotValid(row: LevelRow, nIon: nat, nAtom: nat)
  {
    PyIndexValid(row.ion, nIon) && PyIndexValid(row.elem - 1, nAtom)
  }

  predicate LevelsInRange(rows: seq<LevelRow>, nIon: nat, nAtom: nat)
  {
    forall k :: 0 <= k < |rows| ==> LevelSlotValid(rows[k], nIon, nAtom)
  }

  function SlotOf(row: LevelRow, nIon: nat, nAtom: nat): (nat, nat)
    requires LevelSlotValid(row, nIon, nAtom)
  {
    (PyIndex(row.ion, nIon), PyIndex(row.elem - 1, nAtom))
  }

  predicate SameKey(x: LevelRow, y: LevelRow)
  {
    x.elem == y.elem && x.ion == y.ion
  }

  /** The rows whose levels end up in one cell: a row with the key of the
      row before it is appended to its cell, any other row restarts its
      cell with itself. */
  function LevelCell(rows: seq<LevelRow>, nIon: nat, nAtom: nat, slot: (nat, nat)): seq<LevelRow>
  {
    if |rows| == 0 then []
    else
      var n := |rows| - 1;
      var front := LevelCell(rows[..n], nIon, nAtom, slot);
      if !LevelSlotValid(rows[n], nIon, nAtom) || SlotOf(rows[n], nIon, nAtom) != slot then front
      else if n > 0 && SameKey(rows[n - 1], rows[n]) then front + [rows[n]]
      else [rows[n]]
  }

  function Energies(cell: seq<LevelRow>): (e: seq<real>)
    ensures |e| == |cell|
  {
    seq(|cell|, k requires 0 <= k < |cell| => cell[k].energy)
  }

  function Weights(cell: seq<LevelRow>): (g: seq<real>)
    ensures |g| == |cell|
  {
    seq(|cell|, k requires 0 <= k < |cell| => cell[k].g)
  }

  /** The loop of read_level_data over the query's rows: two object arrays
      of nIon x nAtom cells, each the integer 0 (here the empty sequence)
      until a row lands in it, then the energies and weights of that
      cell's rows. A row outside the arrays (IndexError) is None. */
  method LoadLevels(rows: seq<LevelRow>, nIon: nat, nAtom: nat)
    returns (r: Option<(array2<seq<real>>, array2<seq<real>>)>)
    ensures r.Some? <==> LevelsInRange(rows, nIon, nAtom)
    ensures r.Some? ==> fresh(r.value.0) && fresh(r.value.1)
    ensures r.Some? ==> r.value.0.Length0 == nIon && r.value.0.Length1 == nAtom
    ensures r.Some? ==> r.value.1.Length0 == nIon && r.value.1.Length1 == nAtom
    ensures r.Some? ==> forall i, a :: 0 <= i < nIon && 0 <= a < nAtom ==>
                r.value.0[i, a] == Energies(LevelCell(rows, nIon, nAtom, (i, a))) &&
                r.value.1[i, a] == Weights(LevelCell(rows, nIon, nAtom, (i, a)))
  {
    var energy := new seq<real>[nIon, nAtom]((_, _) => []);
    var g := new seq<real>[nIon, nAtom]((_, _) => []);
    for k := 0 to |rows|
      invariant LevelsInRange(rows[..k], nIon, nAtom)
      invariant CellsHold(energy, g, rows, k, nIon, nAtom)
    {
      var row := rows[k];
      if !LevelSlotValid(row, nIon, nAtom) {
        return None;
      }
      StoreRow(energy, g, rows, k, nIon, nAtom);
    }
    assert rows[..|rows|] == rows;
    return Some((energy, g));
  }

  /** The cells hold the levels of the rows before k. */
  predicate CellsHold(energy: array2<seq<real>>, g: array2<seq<real>>, rows: seq<LevelRow>, k: nat, nIon: nat, nAtom: nat)
    requires k <= |rows|
    reads energy, g
  {
    energy.Length0 == nIon && energy.Length1 == nAtom && g.Length0 == nIon && g.Length1 == nAtom &&
    (forall i, a :: 0 <= i < nIon && 0 <= a < nAtom ==>
       energy[i, a] == Energies(LevelCell(rows[..k], nIon, nAtom, (i, a)))) &&
    (forall i, a :: 0 <= i < nIon && 0 <= a < nAtom ==>
       g[i, a] == Weights(LevelCell(rows[..k], nIon, nAtom, (i, a))))
  }

  /** The body of the loop for row k: append to the row's cell when its
      key is the previous row's, restart the cell otherwise. */
  method StoreRow(energy: array2<seq<real>>, g: array2<seq<real>>, rows: seq<LevelRow>, k: nat, nIon: nat, nAtom: nat)
    requires k < |rows| && LevelSlotValid(rows[k], nIon, nAtom) && energy != g
    requires CellsHold(energy, g, rows, k, nIon, nAtom)
    modifies energy, g
    ensures CellsHold(energy, g, rows, k + 1, nIon, nAtom)
  {
    var row := rows[k];
    var slot := SlotOf(row, nIon, nAtom);
    LevelCellStep(rows, nIon, nAtom, k, slot);
    forall i, a | 0 <= i < nIon && 0 <= a < nAtom && (i, a) != slot
      ensures LevelCell(rows[..k + 1], nIon, nAtom, (i, a)) == LevelCell(rows[..k], nIon, nAtom, (i, a))
    {
      LevelCellStep(rows, nIon, nAtom, k, (i, a));
    }
    var append := k > 0 && SameKey(rows[k - 1], row);
    if append {
      CellAppend(LevelCell(rows[..k], nIon, nAtom, slot), row);
    }
    Store(energy, slot, row.energy, append);
    Store(g, slot, row.g, append);
  }

  /** One cell of an object array receives a value: appended to the
      cell's array (np.append) or as a new one-element array. */
  method Store(cells: array2<seq<real>>, slot: (nat, nat), value: real, append: bool)
    requires slot.0 < cells.Length0 && slot.1 < cells.Length1
    modifies cells
    ensures cells[slot.0, slot.1] == (if append then old(cells[slot.0, slot.1]) + [value] else [value])
    ensures forall i, a :: 0 <= i < cells.Length0 && 0 <= a < cells.Length1 && (i, a) != slot ==>
              cells[i, a] == old(cells[i, a])
  {
    if append {
      cells[slot.0, slot.1] := cells[slot.0, slot.1] + [value];
    } else {
      cells[slot.0, slot.1] := [value];
    }
  }

  /** How one more row changes the cells: its own cell is appended to or
      restarted, every other cell is unchanged. */
  lemma LevelCellStep(rows: seq<LevelRow>, nIon: nat, nAtom: nat, k: nat, slot: (nat, nat))
    requires k < |rows| && LevelSlotValid(rows[k], nIon, nAtom)
    ensures LevelCell(rows[..k + 1], nIon, nAtom, slot) ==
              if slot != SlotOf(rows[k], nIon, nAtom) then LevelCell(rows[..k], nIon, nAtom, slot)
              else if k > 0 && SameKey(rows[k - 1], rows[k]) then LevelCell(rows[..k], nIon, nAtom, slot) + [rows[k]]
              else [rows[k]]
  {
    var prefix := rows[..k + 1];
    assert prefix[..k] == rows[..k];
    assert prefix[k] == rows[k];
    assert k > 0 ==> prefix[k - 1] == rows[k - 1];
  }

  lemma CellAppend(cell: seq<LevelRow>, row: LevelRow)
    ensures Energies(cell + [row]) == Energies(cell) + [row.energy]
    ensures Weights(cell + [row]) == Weights(cell) + [row.g]
  {
    assert Energies(cell + [row]) == Energies(cell) + [row.energy];
    assert Weights(cell + [row]) == Weights(cell) + [row.g];
  }

  /** read_level_data as written: the query's placeholders are bound in
      the order (max_ion, max_atom), so the atom bound is max_ion and the
      ion bound is max_atom. */
  method ReadLevelDataAsWritten(table: seq<LevelRow>, maxAtom: nat, maxIon: Option<nat>)
    returns (r: Option<(array2<seq<real>>, array2<seq<real>>)>)
    ensures r.Some? <==> LevelsInRange(Query(table, IonRows(maxAtom, maxIon), maxAtom), IonRows(maxAtom, maxIon), maxAtom)
    ensures r.Some? ==> fresh(r.value.0) && fresh(r.value.1)
    ensures r.Some? ==> r.value.0.Length0 == IonRows(maxAtom, maxIon) && r.value.0.Length1 == maxAtom
    ensures r.Some? ==> r.value.1.Length0 == IonRows(maxAtom, maxIon) && r.value.1.Length1 == maxAtom
    ensures r.Some? ==> forall i, a :: 0 <= i < IonRows(maxAtom, maxIon) && 0 <= a < maxAtom ==>
              r.value.0[i, a] == Energies(LevelCell(Query(table, IonRows(maxAtom, maxIon), maxAtom), IonRows(maxAtom, maxIon), maxAtom, (i, a))) &&
              r.value.1[i, a] == Weights(LevelCell(Query(table, IonRows(maxAtom, maxIon), maxAtom), IonRows(maxAtom, maxIon), maxAtom, (i, a)))
  {
    var nIon := IonRows(maxAtom, maxIon);
    r := LoadLevels(Query(table, nIon, maxAtom), nIon, maxAtom);
  }

  /** read_level_data with the placeholders bound as the query means them:
      atoms up to max_atom and ions below max_ion. */
  method ReadLevelData(table: seq<LevelRow>, maxAtom: nat, maxIon: Option<nat>)
    returns (r: Option<(array2<seq<real>>, array2<seq<real>>)>)
    ensures r.Some? <==> LevelsInRange(Query(table, maxAtom, IonRows(maxAtom, maxIon)), IonRows(maxAtom, maxIon), maxAtom)
    ensures r.Some? ==> fresh(r.value.0) && fresh(r.value.1)
    ensures r.Some? ==> r.value.0.Length0 == IonRows(maxAtom, maxIon) && r.value.0.Length1 == maxAtom
    ensures r.Some? ==> r.value.1.Length0 == IonRows(maxAtom, maxIon) && r.value.1.Length1 == maxAtom
    ensures r.Some? ==> forall i, a :: 0 <= i < IonRows(maxAtom, maxIon) && 0 <= a < maxAtom ==>
              r.value.0[i, a] == Energies(LevelCell(Query(table, maxAtom, IonRows(maxAtom, maxIon)), IonRows(maxAtom, maxIon), maxAtom, (i, a))) &&
              r.value.1[i, a] == Weights(LevelCell(Query(table, maxAtom, IonRows(maxAtom, maxIon)), IonRows(maxAtom, maxIon), maxAtom, (i, a)))
  {
    var nIon := IonRows(maxAtom, maxIon);
    r := LoadLevels(Query(table, maxAtom, nIon), nIon, maxAtom);
  }

  /** With the placeholders bound as meant, every selected row of a real
      atom (elem >= 1) and ion stage (ion >= 0) lands inside the arrays, so
      the loader cannot fail on them. */
  lemma QuerySelectsInRange(table: seq<LevelRow>, maxAtom: nat, maxIon: nat)
    requires forall k :: 0 <= k < |table| ==> table[k].elem >= 1 && table[k].ion >= 0
    ensures LevelsInRange(Query(table, maxAtom, maxIon), maxIon, maxAtom)
  {
    var rows := Query(table, maxAtom, maxIon);
    forall k | 0 <= k < |rows|
      ensures LevelSlotValid(rows[k], maxIon, maxAtom)
    {
      assert rows[k] in rows;
    }
  }

  /** The swapped placeholders: with max_atom = 30 and max_ion = 5 the
      query as written silently drops every element above 5, such as the
      levels of iron (element 26) that the intended query keeps. The
      second clause shows the ion bound is lost as well: a row of ion
      stage 7 (unphysical for hydrogen, but not excluded by the query)
      would pass and land outside the five ion rows of the arrays. */
  lemma QuerySwappedCounterexample()
    ensures var iron := LevelRow(26, 0, 0.0, 9.0);
            Query([iron], 5, 30) == [] && Query([iron], 30, 5) == [iron]
    ensures var stray := LevelRow(1, 7, 0.0, 2.0);
            Query([stray], 5, 30) == [stray] && !LevelsInRange(Query([stray], 5, 30), 5, 30)
  {
    var iron := LevelRow(26, 0, 0.0, 9.0);
    var stray := LevelRow(1, 7, 0.0, 2.0);
    assert [iron][..0] == [] && [stray][..0] == [];
    assert !LevelSlotValid(stray, 5, 30);
  }

  /** The rows of one (elem, ion) key, in order. */
  function RowsOf(rows: seq<LevelRow>, elem: int, ion: int): seq<LevelRow>
  {
    if |rows| == 0 then []
    else
      var n := |rows| - 1;
      RowsOf(rows[..n], elem, ion) + (if rows[n].elem == elem && rows[n].ion == ion then [rows[n]] else [])
  }

  lemma {:induction false} RowsOfAbsent(rows: seq<LevelRow>, elem: int, ion: int)
    requires forall k :: 0 <= k < |rows| ==> !(rows[k].elem == elem && rows[k].ion == ion)
    ensures RowsOf(rows, elem, ion) == []
  {
    if |rows| > 0 {
      var n := |rows| - 1;
      assert forall k :: 0 <= k < n ==> rows[..n][k] == rows[k];
      RowsOfAbsent(rows[..n], elem, ion);
    }
  }

  /** The query's ORDER BY atom, ion. */
  predicate SortedByKey(rows: seq<LevelRow>)
  {
    forall i, j :: 0 <= i < j < |rows| ==>
      rows[i].elem < rows[j].elem || (rows[i].elem == rows[j].elem && rows[i].ion <= rows[j].ion)
  }

  /** Rows of real atoms and ion stages that fit the arrays without
      wrapping around. */
  predicate NoWrap(rows: seq<LevelRow>, nIon: nat, nAtom: nat)
  {
    forall k :: 0 <= k < |rows| ==> 0 <= rows[k].ion < nIon && 1 <= rows[k].elem <= nAtom
  }

  /** On rows sorted by (elem, ion) that fit the arrays, the cell
      [ion, elem - 1] holds exactly the rows of key (elem, ion), in order:
      the append-or-restart rule groups the levels of each ion and loses
      none of them. */
  lemma {:induction false} LevelCellGrouped(rows: seq<LevelRow>, nIon: nat, nAtom: nat, elem: int, ion: int)
    requires SortedByKey(rows) && NoWrap(rows, nIon, nAtom)
    requires 0 <= ion < nIon && 1 <= elem <= nAtom
    ensures LevelCell(rows, nIon, nAtom, (ion, elem - 1)) == RowsOf(rows, elem, ion)
  {
    if |rows| > 0 {
      var n := |rows| - 1;
      var front := rows[..n];
      assert forall k :: 0 <= k < n ==> front[k] == rows[k];
      LevelCellGrouped(front, nIon, nAtom, elem, ion);
      var last := rows[n];
      assert SlotOf(last, nIon, nAtom) == (ion, elem - 1) <==> last.elem == elem && last.ion == ion;
      if last.elem == elem && last.ion == ion && !(n > 0 && SameKey(rows[n - 1], last)) {
        FirstOfKey(rows);
        RowsOfAbsent(front, elem, ion);
      }
    }
  }

  /** In rows sorted by key, a last row whose key differs from the row
      before it has a key no earlier row has. */
  lemma FirstOfKey(rows: seq<LevelRow>)
    requires SortedByKey(rows) && |rows| > 0
    requires !(|rows| > 1 && SameKey(rows[|rows| - 2], rows[|rows| - 1]))
    ensures forall k :: 0 <= k < |rows| - 1 ==> !SameKey(rows[k], rows[|rows| - 1])
  {
  }

  // read_line_list

  /** A row of the lines table. */
  datatype LineRow = LineRow(wl: real, logGf: real, gLower: int, gUpper: int, eLower: real, eUpper: real,
                             levelIdLower: int, levelIdUpper: int, atom: int, ion: int)

  /** A record of the line list. */
  datatype Line = Line(wl: real, gLower: int, gUpper: int, fLu: real, fUl: real, eLower: real, eUpper: real,
                       levelIdLower: int, levelIdUpper: int, atom: int, ion: int)

  function LineOf(row: LineRow, pow10: real -> real): Line
    requires row.gLower != 0 && row.gUpper != 0
  {
    var gf := pow10(row.logGf);
    Line(row.wl, row.gLower, row.gUpper, gf / row.gLower as real, gf / row.gUpper as real,
         row.eLower, row.eUpper, row.levelIdLower, row.levelIdUpper, row.atom, row.ion)
  }

  /** read_line_list: one record per row with f_lu = gf / g_lower and
      f_ul = gf / g_upper, gf = 10 ** loggf. A zero statistical weight
      raises ZeroDivisionError, modelled as None. */
  method ReadLineList(rows: seq<LineRow>, pow10: real -> real) returns (r: Option<seq<Line>>)
    ensures r.Some? <==> forall k :: 0 <= k < |rows| ==> rows[k].gLower != 0 && rows[k].gUpper != 0
    ensures r.Some? ==> |r.value| == |rows| && forall k :: 0 <= k < |rows| ==> r.value[k] == LineOf(rows[k], pow10)
  {
    var lines := [];
    for k := 0 to |rows|
      invariant |lines| == k
      invariant forall j :: 0 <= j < k ==> rows[j].gLower != 0 && rows[j].gUpper != 0 && lines[j] == LineOf(rows[j], pow10)
    {
      var row := rows[k];
      if row.gLower == 0 || row.gUpper == 0 {
        return None;
      }
      var gf := pow10(row.logGf);
      lines := lines + [Line(row.wl, row.gLower, row.gUpper, gf / row.gLower as real, gf / row.gUpper as real,
                             row.eLower, row.eUpper, row.levelIdLower, row.levelIdUpper, row.atom, row.ion)];
    }
    return Some(lines);
  }

  /** Both oscillator strengths recover gf: g_lower f_lu = gf = g_upper f_ul,
      and the record keeps the row's other columns. */
  lemma OscillatorStrengths(row: LineRow, pow10: real -> real)
    requires row.gLower != 0 && row.gUpper != 0
    ensures LineOf(row, pow10).fLu * row.gLower as real == pow10(row.logGf)
    ensures LineOf(row, pow10).fUl * row.gUpper as real == pow10(row.logGf)
    ensures LineOf(row, pow10).fLu * row.gLower as real == LineOf(row, pow10).fUl * row.gUpper as real
  {
    DivMul(pow10(row.logGf), row.gLower as real);
    DivMul(pow10(row.logGf), row.gUpper as real);
  }

  // _calculate_phis

  /** ge Z_{j+1} / Z_j for one atom, with the NaN (0 / 0) and infinite
      (x / 0) ratios of a zero Z_j replaced by 0. */
  function PartitionFractions(z: seq<real>, ge: real): (f: seq<real>)
    requires |z| >= 1
    ensures |f| == |z| - 1
  {
    seq(|z| - 1, j requires 0 <= j < |z| - 1 => if z[j] == 0.0 then 0.0 else ge * z[j + 1] / z[j])
  }

  /** phi for one atom: the partition fractions times exp(-beta chi),
      passed in as boltzmann. */
  function Phis(z: seq<real>, ge: real, boltzmann: seq<real>): (phi: seq<real>)
    requires |z| >= 1 && |boltzmann| == |z| - 1
    ensures |phi| == |z| - 1
  {
    var f := PartitionFractions(z, ge);
    seq(|z| - 1, j requires 0 <= j < |z| - 1 => f[j] * boltzmann[j])
  }

  /** phi is 0 for a stage whose partition function is 0, and otherwise
      relates neighbouring stages: phi_j Z_j = ge Z_{j+1} exp(-beta chi_j). */
  lemma PhisRelateStages(z: seq<real>, ge: real, boltzmann: seq<real>, j: nat)
    requires |z| >= 1 && |boltzmann| == |z| - 1 && j < |z| - 1
    ensures z[j] == 0.0 ==> Phis(z, ge, boltzmann)[j] == 0.0
    ensures z[j] != 0.0 ==> Phis(z, ge, boltzmann)[j] * z[j] == ge * z[j + 1] * boltzmann[j]
  {
    if z[j] != 0.0 {
      var q := ge * z[j + 1];
      DivMul(q, z[j]);
      assert (q / z[j]) * boltzmann[j] * z[j] == (q / z[j]) * z[j] * boltzmann[j];
    }
  }

  // _calculate_single_ion_populations

  /** One atom's column of the ion-by-atom arrays: phi of each ion stage
      above the neutral one, and the atom's number density. */
  datatype AtomColumn = AtomColumn(phis: seq<real>, density: real)

  function Element(col: AtomColumn): IonPopulation.ElementColumn
  {
    IonPopulation.ElementColumn(seq(|col.phis|, j requires 0 <= j < |col.phis| => Some(col.phis[j])), col.density)
  }

  /** The ion densities of every atom (neutral first) and the new electron
      density. */
  datatype IonPass = IonPass(ionDensity: seq<seq<real>>, electronDensity: real)

  /** _calculate_single_ion_populations at electron density ne: for each
      atom N1 = N / (1 + sum of the running products of phi / ne) and
      Nn = N1 times each running product; the new electron density is the
      sum of Nn times its charge n - 1. None where the arithmetic gives
      NaN (ne = 0 or a zero denominator). */
  function SingleIonPopulations(cols: seq<AtomColumn>, ne: real): (r: Option<IonPass>)
    ensures r.Some? ==> |r.value.ionDensity| == |cols|
  {
    var raw := AtomPopulations(cols, ne);
    if !AllKnown(raw) then None
    else
      var pops := Known(raw);
      Some(IonPass(pops, TotalElectrons(pops)))
  }

  /** The populations of every atom at electron density ne. */
  function AtomPopulations(cols: seq<AtomColumn>, ne: real): (raw: seq<Option<seq<real>>>)
    ensures |raw| == |cols|
  {
    seq(|cols|, a requires 0 <= a < |cols| => IonPopulation.RawPopulations(Element(cols[a]), ne))
  }

  predicate AllKnown(raw: seq<Option<seq<real>>>)
  {
    forall a :: 0 <= a < |raw| ==> raw[a].Some?
  }

  function Known(raw: seq<Option<seq<real>>>): (pops: seq<seq<real>>)
    requires AllKnown(raw)
    ensures |pops| == |raw|
  {
    seq(|raw|, a requires 0 <= a < |raw| => raw[a].value)
  }

  /** The atom number densities. */
  function Densities(cols: seq<AtomColumn>): (d: seq<real>)
    ensures |d| == |cols|
  {
    seq(|cols|, a requires 0 <= a < |cols| => cols[a].density)
  }

  /** The free electrons of all atoms: each population times its charge. */
  function TotalElectrons(pops: seq<seq<real>>): real
  {
    Sum(seq(|pops|, a requires 0 <= a < |pops| => IonPopulation.Electrons(pops[a])))
  }

  /** A pass is defined exactly when every atom's populations are, and
      then holds them. */
  lemma SinglePassParts(cols: seq<AtomColumn>, ne: real)
    ensures SingleIonPopulations(cols, ne).Some? <==>
              forall a :: 0 <= a < |cols| ==> IonPopulation.RawPopulations(Element(cols[a]), ne).Some?
    ensures SingleIonPopulations(cols, ne).Some? ==>
              forall a :: 0 <= a < |cols| ==>
                SingleIonPopulations(cols, ne).value.ionDensity[a] == IonPopulation.RawPopulations(Element(cols[a]), ne).value
  {
    var raw := AtomPopulations(cols, ne);
    assert forall a :: 0 <= a < |cols| ==> raw[a] == IonPopulation.RawPopulations(Element(cols[a]), ne);
  }

  /** Each atom's ion densities add up to its number density, and each
      stage is the one below it times phi / ne (the Saha relation). */
  lemma SingleIonConserve(cols: seq<AtomColumn>, ne: real, a: nat)
    requires SingleIonPopulations(cols, ne).Some? && a < |cols|
    ensures |SingleIonPopulations(cols, ne).value.ionDensity[a]| == |cols[a].phis| + 1
    ensures Sum(SingleIonPopulations(cols, ne).value.ionDensity[a]) == cols[a].density
    ensures forall j :: 0 <= j < |cols[a].phis| ==>
              SingleIonPopulations(cols, ne).value.ionDensity[a][j + 1]
              == SingleIonPopulations(cols, ne).value.ionDensity[a][j] * (cols[a].phis[j] / ne)
  {
    var col := Element(cols[a]);
    SinglePassParts(cols, ne);
    IonPopulation.RawPopulationsConserve(col, ne);
    forall j | 0 <= j < |cols[a].phis|
      ensures SingleIonPopulations(cols, ne).value.ionDensity[a][j + 1]
              == SingleIonPopulations(cols, ne).value.ionDensity[a][j] * (cols[a].phis[j] / ne)
    {
      IonPopulation.RawPopulationsSaha(col, ne, j);
    }
  }

  /** With non-negative phi and number densities, a positive electron
      density and max_ion - 1 stages above neutral for every atom, the pass
      is defined and its electron density lies between 0 and
      (max_ion - 1) times the total number density. */
  lemma SingleIonElectronsBounds(cols: seq<AtomColumn>, ne: real, stages: nat)
    requires ne > 0.0
    requires forall a :: 0 <= a < |cols| ==> |cols[a].phis| == stages && cols[a].density >= 0.0
    requires forall a, j :: 0 <= a < |cols| && 0 <= j < |cols[a].phis| ==> cols[a].phis[j] >= 0.0
    ensures SingleIonPopulations(cols, ne).Some?
    ensures 0.0 <= SingleIonPopulations(cols, ne).value.electronDensity <= stages as real * Sum(Densities(cols))
  {
    ScaledPassBounds(cols, ne, stages);
    SumScale(stages as real, Densities(cols));
  }

  lemma ScaledPassBounds(cols: seq<AtomColumn>, ne: real, stages: nat)
    requires ne > 0.0
    requires forall a :: 0 <= a < |cols| ==> |cols[a].phis| == stages && cols[a].density >= 0.0
    requires forall a, j :: 0 <= a < |cols| && 0 <= j < |cols[a].phis| ==> cols[a].phis[j] >= 0.0
    ensures SingleIonPopulations(cols, ne).Some?
    ensures 0.0 <= SingleIonPopulations(cols, ne).value.electronDensity <= Sum(Scale(stages as real, Densities(cols)))
  {
    AtomElectronsBounds(cols, ne, stages);
    PassElectronsBounds(cols, ne, Scale(stages as real, Densities(cols)));
  }

  lemma AtomElectronsBounds(cols: seq<AtomColumn>, ne: real, stages: nat)
    requires ne > 0.0
    requires forall a :: 0 <= a < |cols| ==> |cols[a].phis| == stages && cols[a].density >= 0.0
    requires forall a, j :: 0 <= a < |cols| && 0 <= j < |cols[a].phis| ==> cols[a].phis[j] >= 0.0
    ensures forall a :: 0 <= a < |cols| ==> IonPopulation.RawPopulations(Element(cols[a]), ne).Some?
    ensures forall a :: 0 <= a < |cols| ==>
              0.0 <= IonPopulation.Electrons(IonPopulation.RawPopulations(Element(cols[a]), ne).value)
                  <= Scale(stages as real, Densities(cols))[a]
  {
    forall a | 0 <= a < |cols|
      ensures IonPopulation.RawPopulations(Element(cols[a]), ne).Some?
      ensures 0.0 <= IonPopulation.Electrons(IonPopulation.RawPopulations(Element(cols[a]), ne).value)
                  <= Scale(stages as real, Densities(cols))[a]
    {
      ElementElectronsBounds(cols[a], ne);
    }
  }

  /** Bounds on each atom's free electrons add up to a bound on the pass's
      electron density. */
  lemma PassElectronsBounds(cols: seq<AtomColumn>, ne: real, bounds: seq<real>)
    requires |bounds| == |cols|
    requires forall a :: 0 <= a < |cols| ==> IonPopulation.RawPopulations(Element(cols[a]), ne).Some?
    requires forall a :: 0 <= a < |cols| ==>
               0.0 <= IonPopulation.Electrons(IonPopulation.RawPopulations(Element(cols[a]), ne).value) <= bounds[a]
    ensures SingleIonPopulations(cols, ne).Some?
    ensures 0.0 <= SingleIonPopulations(cols, ne).value.electronDensity <= Sum(bounds)
  {
    var raw := AtomPopulations(cols, ne);
    assert AllKnown(raw);
    var pops := Known(raw);
    assert forall a :: 0 <= a < |cols| ==> pops[a] == raw[a].value;
    TotalElectronsBounds(pops, bounds);
  }

  lemma TotalElectronsBounds(pops: seq<seq<real>>, bounds: seq<real>)
    requires |bounds| == |pops|
    requires forall a :: 0 <= a < |pops| ==> 0.0 <= IonPopulation.Electrons(pops[a]) <= bounds[a]
    ensures 0.0 <= TotalElectrons(pops) <= Sum(bounds)
  {
    var electrons := seq(|pops|, a requires 0 <= a < |pops| => IonPopulation.Electrons(pops[a]));
    SumNonNegative(electrons);
    SumMonotone(electrons, bounds);
  }

  /** One element's free electrons lie between 0 and its number of stages
      above neutral times its number density. */
  lemma ElementElectronsBounds(col: AtomColumn, ne: real)
    requires ne > 0.0 && col.density >= 0.0
    requires forall j :: 0 <= j < |col.phis| ==> col.phis[j] >= 0.0
    ensures IonPopulation.RawPopulations(Element(col), ne).Some?
    ensures 0.0 <= IonPopulation.Electrons(IonPopulation.RawPopulations(Element(col), ne).value)
                <= |col.phis| as real * col.density
  {
    var element := Element(col);
    IonPopulation.RawPopulationsNonNegative(element, ne);
    IonPopulation.RawPopulationsConserve(element, ne);
    IonPopulation.ElectronsBounds(IonPopulation.RawPopulations(element, ne).value);
  }

  // _calculate_ion_populations

  /** The stopping test |ne / old - 1| < 0.05; a zero old density gives an
      infinite or NaN ratio, which fails it. */
  predicate Close(ne: real, estimate: real)
  {
    estimate != 0.0 && IonPopulation.Abs(ne / estimate - 1.0) < 0.05
  }

  /** The estimate after k dampings old := (old + ne) / 2 towards a fixed
      ne. */
  function Damped(start: real, ne: real, k: nat): real
  {
    if k == 0 then start else 0.5 * (Damped(start, ne, k - 1) + ne)
  }

  function Pow2(k: nat): (p: real)
    ensures p >= 1.0
  {
    if k == 0 then 1.0 else 2.0 * Pow2(k - 1)
  }

  /** Damping towards a fixed ne halves the distance each time. */
  lemma {:induction false} DampedDistance(start: real, ne: real, k: nat)
    ensures Damped(start, ne, k) - ne == (start - ne) / Pow2(k)
  {
    if k > 0 {
      DampedDistance(start, ne, k - 1);
      var d := (start - ne) / Pow2(k - 1);
      assert Damped(start, ne, k) - ne == 0.5 * d;
      assert 0.5 * d == (start - ne) / (2.0 * Pow2(k - 1));
    }
  }

  datatype LoopResult = Converged(pass: IonPass) | Unfinished

  /** _calculate_ion_populations as written: every pass recomputes the
      populations at the plasma's stored electron density, never at the
      damped estimate, so only the estimate moves. passes counts the
      dampings before the stop, estimate is the damped density it stopped
      at; maxPasses bounds the source's unbounded loop. */
  method CalculateIonPopulationsAsWritten(cols: seq<AtomColumn>, electronDensity: real, maxPasses: nat)
    returns (r: LoopResult, passes: nat, estimate: real)
    ensures r.Converged? ==> Some(r.pass) == SingleIonPopulations(cols, electronDensity)
    ensures r.Converged? ==>
              passes < maxPasses && estimate == Damped(electronDensity, r.pass.electronDensity, passes) &&
              Close(r.pass.electronDensity, estimate) &&
              forall k :: 0 <= k < passes ==> !Close(r.pass.electronDensity, Damped(electronDensity, r.pass.electronDensity, k))
    ensures r.Unfinished? ==>
              passes == maxPasses &&
              (SingleIonPopulations(cols, electronDensity).None? ||
               forall k :: 0 <= k < maxPasses ==>
                 !Close(SingleIonPopulations(cols, electronDensity).value.electronDensity,
                        Damped(electronDensity, SingleIonPopulations(cols, electronDensity).value.electronDensity, k)))
  {
    estimate := electronDensity;
    passes := 0;
    while passes < maxPasses
      invariant passes <= maxPasses
      invariant SingleIonPopulations(cols, electronDensity).Some? ==>
                  var ne := SingleIonPopulations(cols, electronDensity).value.electronDensity;
                  estimate == Damped(electronDensity, ne, passes) &&
                  forall k :: 0 <= k < passes ==> !Close(ne, Damped(electronDensity, ne, k))
    {
      var p := SingleIonPopulations(cols, electronDensity);
      if p.Some? {
        if Close(p.value.electronDensity, estimate) {
          return Converged(p.value), passes, estimate;
        }
        estimate := 0.5 * (estimate + p.value.electronDensity);
      }
      passes := passes + 1;
    }
    r := Unfinished;
  }

  /** The estimates of the intended loop, which recomputes the populations
      at each damped estimate; None once a pass is NaN. */
  function Estimate(cols: seq<AtomColumn>, start: real, k: nat): Option<real>
  {
    if k == 0 then Some(start)
    else
      match Estimate(cols, start, k - 1)
      case None => None
      case Some(x) =>
        var p := SingleIonPopulations(cols, x);
        if p.None? then None else Some(0.5 * (x + p.value.electronDensity))
  }

  /** Whether the intended loop stops at estimate x. */
  predicate StopsAt(cols: seq<AtomColumn>, x: real)
  {
    SingleIonPopulations(cols, x).Some? && Close(SingleIonPopulations(cols, x).value.electronDensity, x)
  }

  /** The intended loop: each pass computes the populations at the current
      estimate, stops when the new electron density is within 5% of it and
      otherwise damps the estimate. What it returns is self-consistent: the
      Saha populations at the estimate, whose electron density is within 5%
      of that estimate. */
  method CalculateIonPopulations(cols: seq<AtomColumn>, electronDensity: real, maxPasses: nat)
    returns (r: LoopResult, passes: nat, estimate: real)
    ensures r.Converged? ==>
              passes < maxPasses && Estimate(cols, electronDensity, passes) == Some(estimate) &&
              SingleIonPopulations(cols, estimate) == Some(r.pass) && Close(r.pass.electronDensity, estimate)
    ensures r.Converged? ==>
              forall k :: 0 <= k < passes ==>
                Estimate(cols, electronDensity, k).Some? && !StopsAt(cols, Estimate(cols, electronDensity, k).value)
    ensures r.Unfinished? ==>
              passes == maxPasses &&
              forall k :: 0 <= k < maxPasses && Estimate(cols, electronDensity, k).Some? ==>
                !StopsAt(cols, Estimate(cols, electronDensity, k).value)
  {
    var current: Option<real> := Some(electronDensity);
    estimate := electronDensity;
    passes := 0;
    while passes < maxPasses
      invariant passes <= maxPasses
      invariant current == Estimate(cols, electronDensity, passes)
      invariant current.Some? ==> estimate == current.value
      invariant NoStopBefore(cols, electronDensity, passes)
    {
      if current.Some? {
        var stop, next := Pass(cols, electronDensity, passes, estimate);
        if stop.Some? {
          EstimateDefinedBefore(cols, electronDensity, passes);
          return Converged(stop.value), passes, estimate;
        }
        current := next;
        if next.Some? {
          estimate := next.value;
        }
      }
      NoStopExtend(cols, electronDensity, passes);
      passes := passes + 1;
    }
    r := Unfinished;
  }

  /** No estimate before the n-th is one the loop stops at. */
  predicate NoStopBefore(cols: seq<AtomColumn>, start: real, n: nat)
  {
    forall k :: 0 <= k < n && Estimate(cols, start, k).Some? ==> !StopsAt(cols, Estimate(cols, start, k).value)
  }

  lemma NoStopExtend(cols: seq<AtomColumn>, start: real, n: nat)
    requires NoStopBefore(cols, start, n)
    requires Estimate(cols, start, n).Some? ==> !StopsAt(cols, Estimate(cols, start, n).value)
    ensures NoStopBefore(cols, start, n + 1)
  {
  }

  /** One pass of the intended loop at the k-th estimate x: either it stops
      there with the populations at x, or it yields the next estimate. */
  method Pass(cols: seq<AtomColumn>, start: real, k: nat, x: real) returns (stop: Option<IonPass>, next: Option<real>)
    requires Estimate(cols, start, k) == Some(x)
    ensures stop.Some? <==> StopsAt(cols, x)
    ensures stop.Some? ==> SingleIonPopulations(cols, x) == stop
    ensures stop.None? ==> next == Estimate(cols, start, k + 1)
  {
    var p := SingleIonPopulations(cols, x);
    if p.Some? && Close(p.value.electronDensity, x) {
      return p, None;
    }
    stop := None;
    if p.None? {
      next := None;
    } else {
      next := Some(0.5 * (x + p.value.electronDensity));
    }
  }

  /** Once an estimate is NaN every later one is. */
  lemma {:induction false} EstimateStaysNaN(cols: seq<AtomColumn>, start: real, k: nat)
    requires Estimate(cols, start, k).None?
    ensures forall m :: k <= m ==> Estimate(cols, start, m).None?
  {
    forall m | k <= m
      ensures Estimate(cols, start, m).None?
    {
      EstimateNaNFrom(cols, start, k, m);
    }
  }

  /** A defined estimate had only defined estimates before it. */
  lemma EstimateDefinedBefore(cols: seq<AtomColumn>, start: real, m: nat)
    requires Estimate(cols, start, m).Some?
    ensures forall k :: 0 <= k <= m ==> Estimate(cols, start, k).Some?
  {
    forall k | 0 <= k <= m
      ensures Estimate(cols, start, k).Some?
    {
      if Estimate(cols, start, k).None? {
        EstimateNaNFrom(cols, start, k, m);
      }
    }
  }

  lemma {:induction false} EstimateNaNFrom(cols: seq<AtomColumn>, start: real, k: nat, m: nat)
    requires Estimate(cols, start, k).None? && k <= m
    ensures Estimate(cols, start, m).None?
    decreases m - k
  {
    if k < m {
      EstimateNaNFrom(cols, start, k + 1, m);
    }
  }

  /** For hydrogen alone with phi = 1 and a starting electron density of 1
      (the summed atom density), the loop as written stops after five
      dampings with the populations [1/2, 1/2] of electron density 1 while
      reporting electron density 1/2; at 1/2 the Saha populations are
      [1/3, 2/3] with electron density 2/3, off by a third. */
  lemma StalePopulationsCounterexample()
    ensures SingleIonPopulations([AtomColumn([1.0], 1.0)], 1.0) == Some(IonPass([[0.5, 0.5]], 0.5))
    ensures forall k :: 0 <= k < 5 ==> !Close(0.5, Damped(1.0, 0.5, k))
    ensures Close(0.5, Damped(1.0, 0.5, 5))
    ensures SingleIonPopulations([AtomColumn([1.0], 1.0)], 0.5) == Some(IonPass([[1.0 / 3.0, 1.0 / 3.0 * 2.0]], 1.0 / 3.0 * 2.0))
    ensures !Close(1.0 / 3.0 * 2.0, 0.5)
  {
    var cols := [AtomColumn([1.0], 1.0)];
    var col := Element(cols[0]);
    assert col.phi == [Some(1.0)];
    RawPopulationsOfOne(col, 1.0, 1.0);
    RawPopulationsOfOne(col, 0.5, 2.0);
    SingleAtom(cols[0], 1.0);
    SingleAtom(cols[0], 0.5);
    assert Damped(1.0, 0.5, 1) == 0.75;
    assert Damped(1.0, 0.5, 2) == 0.625;
    assert Damped(1.0, 0.5, 3) == 0.5625;
    assert Damped(1.0, 0.5, 4) == 0.53125;
    assert Damped(1.0, 0.5, 5) == 0.515625;
    forall k | 0 <= k < 5
      ensures !Close(0.5, Damped(1.0, 0.5, k))
    {
      if k == 0 {
        assert Damped(1.0, 0.5, 0) == 1.0;
      }
    }
  }

  /** A plasma of one element: the pass is that element's populations and
      their free electrons. */
  lemma SingleAtom(col: AtomColumn, ne: real)
    requires IonPopulation.RawPopulations(Element(col), ne).Some?
    ensures SingleIonPopulations([col], ne) ==
              Some(IonPass([IonPopulation.RawPopulations(Element(col), ne).value],
                           IonPopulation.Electrons(IonPopulation.RawPopulations(Element(col), ne).value)))
  {
    var pops := IonPopulation.RawPopulations(Element(col), ne).value;
    assert AtomPopulations([col], ne) == [Some(pops)];
    assert Known([Some(pops)]) == [pops];
    assert AllKnown([Some(pops)]);
    var e := seq(1, a requires 0 <= a < 1 => IonPopulation.Electrons([pops][a]));
    assert e == [IonPopulation.Electrons(pops)];
    assert e[..0] == [];
    assert TotalElectrons([pops]) == Sum(e) == IonPopulation.Electrons(pops);
  }

  /** Hydrogen with phi = 1 at electron density ne: the ratio is x = 1 / ne
      and the populations are [n, n x] with n = 1 / (1 + x). */
  lemma RawPopulationsOfOne(col: IonPopulation.ElementColumn, ne: real, x: real)
    requires col == IonPopulation.ElementColumn([Some(1.0)], 1.0) && ne > 0.0 && x == 1.0 / ne
    ensures IonPopulation.RawPopulations(col, ne) == Some([1.0 / (1.0 + x), 1.0 / (1.0 + x) * x])
    ensures IonPopulation.Electrons([1.0 / (1.0 + x), 1.0 / (1.0 + x) * x]) == 1.0 / (1.0 + x) * x
  {
    DivMonotone(0.0, 1.0, ne);
    var ratios := IonPopulation.Ratios(col.phi, ne);
    assert ratios == [x];
    var products := IonPopulation.CumProd(ratios);
    assert products == IonPopulation.CumProd([]) + [1.0 * x];
    assert products == [x];
    assert products[..0] == [];
    assert Sum(products) == x;
    var neutral := 1.0 / (1.0 + x);
    var scaled := Scale(neutral, products);
    assert |scaled| == 1 && scaled[0] == neutral * x;
    assert scaled == [neutral * x];
    var pops := [neutral, neutral * x];
    assert [neutral] + scaled == pops;
    assert IonPopulation.RawPopulations(col, ne) == Some(pops);
    assert pops[..1] == [neutral];
    assert pops[..1][..0] == [];
    assert IonPopulation.Electrons(pops[..1]) == 0.0;
    assert IonPopulation.Electrons(pops) == neutral * x * 1.0;
    assert neutral == 1.0 / (1.0 + x);
    assert pops[0] == 1.0 / (1.0 + x);
    assert pops[1] == 1.0 / (1.0 + x) * x;
    assert pops == [1.0 / (1.0 + x), 1.0 / (1.0 + x) * x];
  }
}
