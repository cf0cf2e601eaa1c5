/** The atomic data store: which optional tables were supplied, the symbol
    maps, and the preparation step that cuts levels, lines and macro-atom
    tables down to the selected species, numbers the kept rows, orders the
    lines by wavelength, computes the macro-atom block references and
    builds the NLTE level mask.

    Rows are values holding the columns the preparation reads; tables are
    sequences of rows. HDF5 reading, unit conversions and the line
    coefficients that need physical constants are not part of the model. */
module AtomicData {
  import opened Common

  datatype AtomRow = AtomRow(atomicNumber: int, symbol: string)

  type LevelKey = (int, int, int)

  datatype LevelRow = LevelRow(atomicNumber: int, ionNumber: int, levelNumber: int, energy: real, g: real,
                               metastable: bool)
  {
    function Key(): LevelKey { (atomicNumber, ionNumber, levelNumber) }
  }

  datatype LineRow = LineRow(lineId: int, atomicNumber: int, ionNumber: int, wavelength: real,
                             levelNumberLower: int, levelNumberUpper: int, fUl: real, fLu: real)

  /** A macro-atom transition; linesIdx and destinationLevelIdx are filled
      in by the preparation (None where the source's lookup gives NaN). */
  datatype MacroAtomRow = MacroAtomRow(atomicNumber: int, ionNumber: int, sourceLevelNumber: int,
                                       destinationLevelNumber: int, transitionType: int,
                                       transitionLineId: int, linesIdx: Option<nat>,
                                       destinationLevelIdx: Option<int>)

  /** A macro-atom reference: the transition counts of one source level and
      the block reference and position the preparation fills in. */
  datatype MacroRefRow = MacroRefRow(atomicNumber: int, ionNumber: int, sourceLevelNumber: int,
                                     countDown: int, countUp: int, countTotal: int,
                                     blockReferences: int, referencesIdx: int)
  {
    function Key(): LevelKey { (atomicNumber, ionNumber, sourceLevelNumber) }
  }

  type CollisionKey = (int, int, int, int)

  /** The rows of s that p keeps, in their order. */
  function Filter<T>(s: seq<T>, p: T -> bool): (r: seq<T>)
    ensures |r| <= |s|
  {
    if |s| == 0 then []
    else
      var rest := Filter(s[..|s| - 1], p);
      if p(s[|s| - 1]) then rest + [s[|s| - 1]] else rest
  }

  /** The filter keeps exactly the rows that satisfy p. */
  lemma {:induction false} FilterMembers<T>(s: seq<T>, p: T -> bool)
    ensures forall x :: x in Filter(s, p) <==> x in s && p(x)
  {
    if |s| > 0 {
      FilterMembers(s[..|s| - 1], p);
      assert s == s[..|s| - 1] + [s[|s| - 1]];
    }
  }

  /** The species filter of the preparation: a selected atomic number and,
      when a maximum ion number is given, an ion number not above it. */
  predicate SpeciesSelected(atomicNumber: int, ionNumber: int, selected: set<int>, maxIonNumber: Option<int>)
  {
    atomicNumber in selected && (maxIonNumber.None? || ionNumber <= maxIonNumber.value)
  }

  /** Numbering of a table by its index: each key is mapped to the position
      of its row; of rows with the same key the last one wins. */
  function IndexMap<K>(keys: seq<K>): map<K, nat>
  {
    if |keys| == 0 then map[] else IndexMap(keys[..|keys| - 1])[keys[|keys| - 1] := |keys| - 1]
  }

  /** The numbering has exactly the keys of the column, and maps each key to
      a position holding it. */
  lemma {:induction false} IndexMapCorrect<K>(keys: seq<K>)
    ensures IndexMap(keys).Keys == set k | k in keys
    ensures forall k :: k in IndexMap(keys) ==> IndexMap(keys)[k] < |keys| && keys[IndexMap(keys)[k]] == k
  {
    if |keys| > 0 {
      var front := keys[..|keys| - 1];
      IndexMapCorrect(front);
      assert keys == front + [keys[|keys| - 1]];
      assert forall k :: k in keys <==> k in front || k == keys[|keys| - 1];
    }
  }

  /** No key appears twice. */
  ghost predicate Distinct<K>(keys: seq<K>)
  {
    forall i, j :: 0 <= i < j < |keys| ==> keys[i] != keys[j]
  }

  /** With distinct keys, every row's key is numbered by its own position. */
  lemma IndexMapPositions<K(!new)>(keys: seq<K>)
    requires Distinct(keys)
    ensures forall i :: 0 <= i < |keys| ==> keys[i] in IndexMap(keys) && IndexMap(keys)[keys[i]] == i
  {
    IndexMapCorrect(keys);
    forall i | 0 <= i < |keys|
      ensures IndexMap(keys)[keys[i]] == i
    {
      var j := IndexMap(keys)[keys[i]];
      assert keys[j] == keys[i];
    }
  }

  /** Looking a key up in a numbering: None where pandas yields NaN. */
  function Lookup<K>(m: map<K, nat>, k: K): (r: Option<nat>)
    ensures r.Some? <==> k in m
    ensures r.Some? ==> r.value == m[k]
  {
    if k in m then Some(m[k]) else None
  }

  /** Lines ordered by wavelength. */
  predicate SortedByWavelength(lines: seq<LineRow>)
  {
    forall i, j :: 0 <= i < j < |lines| ==> lines[i].wavelength <= lines[j].wavelength
  }

  /** Insert a line into a wavelength-ordered table, before the first row
      whose wavelength is not smaller. */
  function InsertByWavelength(sorted: seq<LineRow>, x: LineRow): seq<LineRow>
  {
    if |sorted| == 0 then [x]
    else if x.wavelength <= sorted[0].wavelength then [x] + sorted
    else [sorted[0]] + InsertByWavelength(sorted[1..], x)
  }

  /** Insertion adds exactly the one row. */
  lemma {:induction false} InsertByWavelengthPermutes(sorted: seq<LineRow>, x: LineRow)
    ensures multiset(InsertByWavelength(sorted, x)) == multiset(sorted) + multiset{x}
  {
    if |sorted| > 0 && x.wavelength > sorted[0].wavelength {
      InsertByWavelengthPermutes(sorted[1..], x);
      assert sorted == [sorted[0]] + sorted[1..];
      assert InsertByWavelength(sorted, x) == [sorted[0]] + InsertByWavelength(sorted[1..], x);
    }
  }

  /** Insertion into an ordered table keeps it ordered. */
  lemma {:induction false} InsertByWavelengthSorted(sorted: seq<LineRow>, x: LineRow)
    requires SortedByWavelength(sorted)
    ensures SortedByWavelength(InsertByWavelength(sorted, x))
  {
    if |sorted| > 0 && x.wavelength > sorted[0].wavelength {
      var rest := InsertByWavelength(sorted[1..], x);
      InsertByWavelengthSorted(sorted[1..], x);
      InsertByWavelengthPermutes(sorted[1..], x);
      forall i | 0 <= i < |rest|
        ensures sorted[0].wavelength <= rest[i].wavelength
      {
        assert rest[i] in multiset(rest);
        if rest[i] != x {
          assert rest[i] in multiset(sorted[1..]);
          var j :| 0 <= j < |sorted[1..]| && sorted[1..][j] == rest[i];
          assert sorted[j + 1] == rest[i];
        }
      }
      var r := InsertByWavelength(sorted, x);
      assert r == [sorted[0]] + rest;
      forall i, j | 0 <= i < j < |r|
        ensures r[i].wavelength <= r[j].wavelength
      {
        if i > 0 {
          assert r[i] == rest[i - 1] && r[j] == rest[j - 1];
        } else {
          assert r[j] == rest[j - 1];
        }
      }
    }
  }

  /** The table sorted by wavelength by repeated insertion. */
  function SortByWavelength(lines: seq<LineRow>): seq<LineRow>
  {
    if |lines| == 0 then []
    else InsertByWavelength(SortByWavelength(lines[..|lines| - 1]), lines[|lines| - 1])
  }

  /** Sorting keeps exactly the same rows and puts them in wavelength order. */
  lemma {:induction false} SortByWavelengthCorrect(lines: seq<LineRow>)
    ensures SortedByWavelength(SortByWavelength(lines))
    ensures multiset(SortByWavelength(lines)) == multiset(lines)
  {
    if |lines| > 0 {
      SortByWavelengthCorrect(lines[..|lines| - 1]);
      InsertByWavelengthSorted(SortByWavelength(lines[..|lines| - 1]), lines[|lines| - 1]);
      InsertByWavelengthPermutes(SortByWavelength(lines[..|lines| - 1]), lines[|lines| - 1]);
      assert lines == lines[..|lines| - 1] + [lines[|lines| - 1]];
    }
  }

  /** np.hstack((0, np.cumsum(counts[:-1]))): 0 and then the running totals
      of all counts but the last. */
  function BlockReferences(counts: seq<int>): (r: seq<int>)
    ensures |r| == if |counts| == 0 then 1 else |counts|
    ensures r[0] == 0
  {
    if |counts| <= 1 then [0]
    else
      var r := BlockReferences(counts[..|counts| - 1]);
      r + [r[|r| - 1] + counts[|counts| - 2]]
  }

  /** Each block reference is the previous one plus the previous count. */
  lemma {:induction false} BlockReferencesStep(counts: seq<int>, k: nat)
    requires 0 < k < |counts|
    ensures BlockReferences(counts)[k] == BlockReferences(counts)[k - 1] + counts[k - 1]
  {
    var front := counts[..|counts| - 1];
    if k < |counts| - 1 {
      BlockReferencesStep(front, k);
    }
  }

  /** Each block reference is the total of the counts before it. */
  lemma {:induction false} BlockReferencesAreTotals(counts: seq<int>, k: nat)
    requires k < |counts|
    ensures BlockReferences(counts)[k] == SumInt(counts[..k])
  {
    if k > 0 {
      BlockReferencesAreTotals(counts, k - 1);
      BlockReferencesStep(counts, k);
      assert counts[..k][..k - 1] == counts[..k - 1];
    }
  }

  /** The kind of line interaction; the source compares strings. */
  const SCATTER: string := "scatter"
  const DOWNBRANCH: string := "downbranch"
  const MACROATOM: string := "macroatom"

  /** The count and block-reference columns of the macro-atom references,
      as the two non-scatter kinds set them; other kinds leave them. */
  function SetBlockReferences(refs: seq<MacroRefRow>, counts: seq<int>): (r: seq<MacroRefRow>)
    requires |counts| == |refs| && |refs| > 0
    ensures |r| == |refs|
  {
    var b := BlockReferences(counts);
    seq(|refs|, k requires 0 <= k < |refs| => refs[k].(blockReferences := b[k]))
  }

  function CountDowns(refs: seq<MacroRefRow>): (c: seq<int>)
    ensures |c| == |refs|
  {
    seq(|refs|, k requires 0 <= k < |refs| => refs[k].countDown)
  }

  function CountTotals(refs: seq<MacroRefRow>): (c: seq<int>)
    ensures |c| == |refs|
  {
    seq(|refs|, k requires 0 <= k < |refs| => refs[k].countTotal)
  }

  function RefKeys(refs: seq<MacroRefRow>): (keys: seq<LevelKey>)
    ensures |keys| == |refs|
  {
    seq(|refs|, k requires 0 <= k < |refs| => refs[k].Key())
  }

  function LevelKeys(levels: seq<LevelRow>): seq<LevelKey>
  {
    seq(|levels|, k requires 0 <= k < |levels| => levels[k].Key())
  }

  function LineIds(lines: seq<LineRow>): (ids: seq<int>)
    ensures |ids| == |lines|
  {
    seq(|lines|, k requires 0 <= k < |lines| => lines[k].lineId)
  }

  /** The macro-atom tables after preparation. */
  datatype MacroTables = MacroTables(data: seq<MacroAtomRow>, references: seq<MacroRefRow>,
                                     linesUpper2MacroReferenceIdx: seq<Option<nat>>)

  /** The downbranch step on the references: keep the levels with a
      downward transition, make the total count the downward count and
      number the blocks by the downward counts. None when no level is
      kept: pandas then grows the empty table to one row whose block
      reference is 0 and whose other columns are NaN, a table this model
      does not build. */
  function DownbranchReferences(refs: seq<MacroRefRow>): Option<seq<MacroRefRow>>
  {
    var kept := Filter(refs, (x: MacroRefRow) => x.countDown > 0);
    if |kept| == 0 then None
    else
      var withTotals := seq(|kept|, k requires 0 <= k < |kept| => kept[k].(countTotal := kept[k].countDown));
      Some(SetBlockReferences(withTotals, CountDowns(kept)))
  }

  /** The downbranch step is left unmodelled (None) exactly when no level
      has a downward transition; otherwise every kept level has one, its total count is
      its downward count, and its block reference is the running total of
      the downward counts before it. */
  lemma DownbranchReferencesCorrect(refs: seq<MacroRefRow>)
    ensures var r := DownbranchReferences(refs);
            && (r.Some? <==> exists x :: x in refs && x.countDown > 0)
            && (r.Some? ==> forall k :: 0 <= k < |r.value| ==>
                  r.value[k].countDown > 0 && r.value[k].countTotal == r.value[k].countDown
                  && r.value[k].blockReferences == SumInt(CountDowns(r.value)[..k]))
  {
    var p := (x: MacroRefRow) => x.countDown > 0;
    var kept := Filter(refs, p);
    FilterMembers(refs, p);
    if |kept| == 0 {
      forall x | x in refs ensures x.countDown <= 0 {
        assert !(x in kept);
      }
    } else {
      assert kept[0] in kept;
      var r := DownbranchReferences(refs).value;
      assert CountDowns(r) == CountDowns(kept);
      forall k | 0 <= k < |r|
        ensures r[k].countDown > 0 && r[k].countTotal == r[k].countDown
        ensures r[k].blockReferences == SumInt(CountDowns(r)[..k])
      {
        assert kept[k] in kept;
        BlockReferencesAreTotals(CountDowns(kept), k);
      }
    }
  }

  /** The reference table after the kind-specific step, before numbering:
      downbranch as above, macroatom numbers the blocks by the total
      counts (None on an empty table, which pandas grows to one row as for
      downbranch), any other kind leaves the table as it is. */
  function KindReferences(refs: seq<MacroRefRow>, kind: string): Option<seq<MacroRefRow>>
  {
    if kind == DOWNBRANCH then DownbranchReferences(refs)
    else if kind == MACROATOM then
      if |refs| == 0 then None else Some(SetBlockReferences(refs, CountTotals(refs)))
    else Some(refs)
  }

  /** For macroatom the step is left unmodelled (None) exactly on an empty
      table and otherwise
      keeps every row, setting its block reference to the running total of
      the total counts before it; any kind but downbranch and macroatom
      leaves the table unchanged. */
  lemma KindReferencesCorrect(refs: seq<MacroRefRow>, kind: string)
    ensures kind == MACROATOM ==> (KindReferences(refs, kind).Some? <==> |refs| > 0)
    ensures kind == MACROATOM && |refs| > 0 ==>
              var r := KindReferences(refs, kind).value;
              |r| == |refs| && forall k :: 0 <= k < |refs| ==>
                r[k] == refs[k].(blockReferences := SumInt(CountTotals(refs)[..k]))
    ensures kind != DOWNBRANCH && kind != MACROATOM ==> KindReferences(refs, kind) == Some(refs)
  {
    if kind == MACROATOM && |refs| > 0 {
      forall k | 0 <= k < |refs|
        ensures KindReferences(refs, kind).value[k] == refs[k].(blockReferences := SumInt(CountTotals(refs)[..k]))
      {
        BlockReferencesAreTotals(CountTotals(refs), k);
      }
    }
  }

  /** Each transition's line position and destination reference: the
      destination is looked up among the references for macroatom, is -1
      for downbranch and stays for any other kind. */
  function ResolveTransitions(data: seq<MacroAtomRow>, kind: string, linesIndex: map<int, nat>,
                              refIndex: map<LevelKey, nat>): (r: seq<MacroAtomRow>)
    ensures |r| == |data|
  {
    seq(|data|, k requires 0 <= k < |data| =>
      data[k].(linesIdx := Lookup(linesIndex, data[k].transitionLineId),
               destinationLevelIdx :=
                 if kind == MACROATOM then
                   match Lookup(refIndex, (data[k].atomicNumber, data[k].ionNumber, data[k].destinationLevelNumber))
                   case None => None
                   case Some(i) => Some(i as int)
                 else if kind == DOWNBRANCH then Some(-1)
                 else data[k].destinationLevelIdx))
  }

  /** Each resolved transition keeps its species and type, points at the
      position of its line (None where the line is not in the numbering),
      and has its destination resolved as the kind says. */
  lemma ResolveTransitionsCorrect(data: seq<MacroAtomRow>, kind: string, linesIndex: map<int, nat>,
                                  refIndex: map<LevelKey, nat>)
    ensures var r := ResolveTransitions(data, kind, linesIndex, refIndex);
            && (forall k :: 0 <= k < |data| ==>
                  && r[k].transitionType == data[k].transitionType
                  && r[k].atomicNumber == data[k].atomicNumber && r[k].ionNumber == data[k].ionNumber
                  && (r[k].linesIdx.Some? <==> data[k].transitionLineId in linesIndex)
                  && (r[k].linesIdx.Some? ==> r[k].linesIdx.value == linesIndex[data[k].transitionLineId]))
            && (kind == DOWNBRANCH ==> forall k :: 0 <= k < |data| ==> r[k].destinationLevelIdx == Some(-1))
            && (kind == MACROATOM ==> forall k :: 0 <= k < |data| ==>
                  var key := (data[k].atomicNumber, data[k].ionNumber, data[k].destinationLevelNumber);
                  r[k].destinationLevelIdx == if key in refIndex then Some(refIndex[key] as int) else None)
  {
  }

  /** The macro-atom preparation: filter both tables by species, apply the
      kind-specific step, number the references by position, resolve each
      transition's line and destination and each line's upper-level
      reference. */
  function PrepareMacroTables(dataAll: seq<MacroAtomRow>, refsAll: seq<MacroRefRow>, selected: set<int>,
                              maxIonNumber: Option<int>, kind: string, lines: seq<LineRow>,
                              linesIndex: map<int, nat>): Option<MacroTables>
  {
    var data0 := Filter(dataAll, (x: MacroAtomRow) => SpeciesSelected(x.atomicNumber, x.ionNumber, selected, maxIonNumber));
    var refs0 := Filter(refsAll, (x: MacroRefRow) => SpeciesSelected(x.atomicNumber, x.ionNumber, selected, maxIonNumber));
    var data1 := KindTransitions(data0, kind);
    match KindReferences(refs0, kind)
    case None => None
    case Some(refs1) =>
      var refs := seq(|refs1|, k requires 0 <= k < |refs1| => refs1[k].(referencesIdx := k));
      var refIndex := IndexMap(RefKeys(refs));
      var upper := seq(|lines|, k requires 0 <= k < |lines| =>
        Lookup(refIndex, (lines[k].atomicNumber, lines[k].ionNumber, lines[k].levelNumberUpper)));
      Some(MacroTables(ResolveTransitions(data1, kind, linesIndex, refIndex), refs, upper))
  }

  /** The macro-atom preparation fails only where the kind-specific step
      on the references fails; a prepared table has one upper-level
      reference per line, references numbered by position, and only
      transitions of selected species, all of them emissions resolved to
      -1 for downbranch. */
  lemma PrepareMacroTablesCorrect(dataAll: seq<MacroAtomRow>, refsAll: seq<MacroRefRow>, selected: set<int>,
                                  maxIonNumber: Option<int>, kind: string, lines: seq<LineRow>,
                                  linesIndex: map<int, nat>)
    ensures var r := PrepareMacroTables(dataAll, refsAll, selected, maxIonNumber, kind, lines, linesIndex);
            var keep := (x: MacroRefRow) => SpeciesSelected(x.atomicNumber, x.ionNumber, selected, maxIonNumber);
            && (r.Some? <==> KindReferences(Filter(refsAll, keep), kind).Some?)
            && (r.Some? ==>
                  && |r.value.linesUpper2MacroReferenceIdx| == |lines|
                  && (forall k :: 0 <= k < |r.value.references| ==> r.value.references[k].referencesIdx == k)
                  && (forall k :: 0 <= k < |r.value.data| ==>
                        SpeciesSelected(r.value.data[k].atomicNumber, r.value.data[k].ionNumber, selected, maxIonNumber))
                  && (kind == DOWNBRANCH ==> forall k :: 0 <= k < |r.value.data| ==>
                        r.value.data[k].transitionType == -1 && r.value.data[k].destinationLevelIdx == Some(-1)))
  {
    var keepData := (x: MacroAtomRow) => SpeciesSelected(x.atomicNumber, x.ionNumber, selected, maxIonNumber);
    var data0 := Filter(dataAll, keepData);
    FilterMembers(dataAll, keepData);
    var data1 := KindTransitions(data0, kind);
    KindTransitionsCorrect(data0, kind);
    var r := PrepareMacroTables(dataAll, refsAll, selected, maxIonNumber, kind, lines, linesIndex);
    if r.Some? {
      forall k | 0 <= k < |r.value.data|
        ensures SpeciesSelected(r.value.data[k].atomicNumber, r.value.data[k].ionNumber, selected, maxIonNumber)
      {
        assert data1[k] in data0;
      }
    }
  }

  /** The levels of the selected species. */
  function SelectedLevels(levelsData: seq<LevelRow>, selected: set<int>, maxIonNumber: Option<int>): seq<LevelRow>
  {
    Filter(levelsData, (x: LevelRow) => SpeciesSelected(x.atomicNumber, x.ionNumber, selected, maxIonNumber))
  }

  /** The lines of the selected species. */
  function SelectedLines(linesData: seq<LineRow>, selected: set<int>, maxIonNumber: Option<int>): seq<LineRow>
  {
    Filter(linesData, (x: LineRow) => SpeciesSelected(x.atomicNumber, x.ionNumber, selected, maxIonNumber))
  }

  /** Each line's lower (or upper) level looked up in the level numbering. */
  function LevelLookups(lines: seq<LineRow>, levelsIndex: map<LevelKey, nat>, upper: bool): seq<Option<nat>>
  {
    seq(|lines|, k requires 0 <= k < |lines| =>
      Lookup(levelsIndex, (lines[k].atomicNumber, lines[k].ionNumber,
                           if upper then lines[k].levelNumberUpper else lines[k].levelNumberLower)))
  }

  /** The transitions the kind keeps: downbranch keeps emissions only. */
  function KindTransitions(data: seq<MacroAtomRow>, kind: string): seq<MacroAtomRow>
  {
    if kind == DOWNBRANCH then Filter(data, (x: MacroAtomRow) => x.transitionType == -1) else data
  }

  /** Every kept transition is one of the input transitions, and for
      downbranch an emission; downbranch keeps every emission. */
  lemma KindTransitionsCorrect(data: seq<MacroAtomRow>, kind: string)
    ensures forall k :: 0 <= k < |KindTransitions(data, kind)| ==>
              KindTransitions(data, kind)[k] in data
              && (kind == DOWNBRANCH ==> KindTransitions(data, kind)[k].transitionType == -1)
    ensures kind == DOWNBRANCH ==> forall x :: x in data && x.transitionType == -1 ==> x in KindTransitions(data, kind)
  {
    var r := KindTransitions(data, kind);
    if kind == DOWNBRANCH {
      FilterMembers(data, (x: MacroAtomRow) => x.transitionType == -1);
      assert forall k :: 0 <= k < |r| ==> r[k] in r;
    }
  }

  /** The NLTE mask over the levels for a list of species: level k is
      marked when its (atomic number, ion number) is one of them. */
  predicate InNlteSpecies(level: LevelRow, species: seq<(int, int)>)
  {
    exists s :: s in species && level.atomicNumber == s.0 && level.ionNumber == s.1
  }

  /** The mask set_nlte_mask builds: start from all false over the levels
      and OR in, species by species, the levels of that species. */
  method NlteMask(levels: seq<LevelRow>, species: seq<(int, int)>) returns (mask: seq<bool>)
    ensures NlteMaskOf(levels, species, mask)
  {
    mask := seq(|levels|, k => false);
    var j := 0;
    while j < |species|
      invariant 0 <= j <= |species|
      invariant NlteMaskOf(levels, species[..j], mask)
    {
      var s := species[j];
      var currentMask := seq(|levels|, k requires 0 <= k < |levels| => levels[k].atomicNumber == s.0 && levels[k].ionNumber == s.1);
      assert species[..j + 1] == species[..j] + [s];
      mask := seq(|levels|, k requires 0 <= k < |levels| => mask[k] || currentMask[k]);
      j := j + 1;
    }
    assert species[..|species|] == species;
  }

  /** Outcome of the macro-atom step of prepare_atom_data: skipped, and
      successful, unless it is needed; otherwise successful exactly when the
      tables can be prepared, and then the stored tables are the prepared
      ones. */
  ghost predicate MacroAtomOutcome(needed: bool, prepared: Option<MacroTables>, ok: bool, stored: MacroTables)
  {
    if needed then (ok <==> prepared.Some?) && (ok ==> stored == prepared.value) else ok
  }

  /** The NLTE mask marks exactly the levels of the listed species. */
  ghost predicate NlteMaskOf(levels: seq<LevelRow>, species: seq<(int, int)>, mask: seq<bool>)
  {
    |mask| == |levels| && forall k :: 0 <= k < |levels| ==> (mask[k] <==> InNlteSpecies(levels[k], species))
  }

  class AtomData {
    var hasMacroAtom: bool
    var hasIonCxData: bool
    var hasZetaData: bool
    var hasCollisionData: bool
    var hasSynppRefs: bool

    var atomData: seq<AtomRow>
    var levelsData: seq<LevelRow>
    var linesData: seq<LineRow>
    var macroAtomDataAll: seq<MacroAtomRow>
    var macroAtomReferencesAll: seq<MacroRefRow>
    var collisionData: map<CollisionKey, seq<real>>
    var collisionDataTemperatures: seq<real>
    var symbol2atomicNumber: map<string, int>
    var atomicNumber2symbol: map<int, string>

    var selectedAtomicNumbers: set<int>
    var nlteSpecies: seq<(int, int)>
    var levels: seq<LevelRow>
    var levelsIndex: map<LevelKey, nat>
    var lines: seq<LineRow>
    var linesIndex: map<int, nat>
    var linesLower2LevelIdx: seq<Option<nat>>
    var linesUpper2LevelIdx: seq<Option<nat>>
    var macroAtomData: seq<MacroAtomRow>
    var macroAtomReferences: seq<MacroRefRow>
    var linesUpper2MacroReferenceIdx: seq<Option<nat>>
    var nlteMask: seq<bool>

    /** Store the tables; each has_* flag records whether its optional input
        was given, and the symbol maps are built from the atom rows. */
    constructor (atoms: seq<AtomRow>, levelsRows: seq<LevelRow>, linesRows: seq<LineRow>,
                 macroAtom: Option<(seq<MacroAtomRow>, seq<MacroRefRow>)>, zeta: Option<seq<real>>,
                 collision: (Option<map<CollisionKey, seq<real>>>, seq<real>),
                 synppRefs: Option<seq<(int, int)>>, ionCx: Option<seq<real>>)
      ensures hasMacroAtom <==> macroAtom.Some?
      ensures hasIonCxData <==> ionCx.Some?
      ensures hasZetaData <==> zeta.Some?
      ensures hasCollisionData <==> collision.0.Some?
      ensures hasSynppRefs <==> synppRefs.Some?
      ensures macroAtom.Some? ==> macroAtomDataAll == macroAtom.value.0 && macroAtomReferencesAll == macroAtom.value.1
      ensures collision.0.Some? ==> collisionData == collision.0.value && collisionDataTemperatures == collision.1
      ensures atomData == atoms && levelsData == levelsRows && linesData == linesRows
      ensures symbol2atomicNumber == SymbolToAtomicNumber(atoms)
      ensures atomicNumber2symbol == AtomicNumberToSymbol(atoms)
    {
      hasMacroAtom := macroAtom.Some?;
      if macroAtom.Some? {
        macroAtomDataAll := macroAtom.value.0;
        macroAtomReferencesAll := macroAtom.value.1;
      }
      hasIonCxData := ionCx.Some?;
      hasZetaData := zeta.Some?;
      hasCollisionData := collision.0.Some?;
      if collision.0.Some? {
        collisionData := collision.0.value;
        collisionDataTemperatures := collision.1;
      }
      hasSynppRefs := synppRefs.Some?;
      atomData := atoms;
      levelsData := levelsRows;
      linesData := linesRows;
      symbol2atomicNumber := SymbolToAtomicNumber(atoms);
      atomicNumber2symbol := AtomicNumberToSymbol(atoms);
    }

    /** prepare_atom_data: cut levels and lines to the selected species,
        number them, order the lines by wavelength, resolve each line's
        lower and upper level, prepare the macro-atom tables unless the
        interaction is plain scattering, and set the NLTE mask. False on an
        empty macro-atom reference table, a case this model leaves
        unmodelled: pandas grows that table to one NaN-keyed row. */
    method PrepareAtomData(selected: set<int>, lineInteractionType: string, maxIonNumber: Option<int>,
                           species: seq<(int, int)>) returns (ok: bool)
      modifies this`selectedAtomicNumbers, this`nlteSpecies, this`levels, this`levelsIndex
      modifies this`lines, this`linesIndex, this`linesLower2LevelIdx, this`linesUpper2LevelIdx
      modifies this`macroAtomData, this`macroAtomReferences, this`linesUpper2MacroReferenceIdx, this`nlteMask
      ensures selectedAtomicNumbers == selected && nlteSpecies == species
      ensures levels == SelectedLevels(levelsData, selected, maxIonNumber)
      ensures levelsIndex == IndexMap(LevelKeys(levels))
      ensures lines == SortByWavelength(SelectedLines(linesData, selected, maxIonNumber))
      ensures linesIndex == IndexMap(LineIds(lines))
      ensures linesLower2LevelIdx == LevelLookups(lines, levelsIndex, false)
      ensures linesUpper2LevelIdx == LevelLookups(lines, levelsIndex, true)
      ensures MacroAtomOutcome(hasMacroAtom && lineInteractionType != SCATTER,
                                 PrepareMacroTables(macroAtomDataAll, macroAtomReferencesAll, selected,
                                                    maxIonNumber, lineInteractionType, lines, linesIndex),
                                 ok, MacroTables(macroAtomData, macroAtomReferences, linesUpper2MacroReferenceIdx))
      ensures !(hasMacroAtom && lineInteractionType != SCATTER) ==>
                macroAtomData == old(macroAtomData) && macroAtomReferences == old(macroAtomReferences) &&
                linesUpper2MacroReferenceIdx == old(linesUpper2MacroReferenceIdx)
      ensures ok ==> NlteMaskOf(levels, species, nlteMask)
    {
      selectedAtomicNumbers, nlteSpecies := selected, species;
      PrepareLevelsAndLines(selected, maxIonNumber);
      ok := PrepareMacroAtomAndMask(selected, lineInteractionType, maxIonNumber, species);
    }

    /** The level and line part of prepare_atom_data. */
    method PrepareLevelsAndLines(selected: set<int>, maxIonNumber: Option<int>)
      modifies this`levels, this`levelsIndex, this`lines, this`linesIndex
      modifies this`linesLower2LevelIdx, this`linesUpper2LevelIdx
      ensures levels == SelectedLevels(levelsData, selected, maxIonNumber)
      ensures levelsIndex == IndexMap(LevelKeys(levels))
      ensures lines == SortByWavelength(SelectedLines(linesData, selected, maxIonNumber))
      ensures linesIndex == IndexMap(LineIds(lines))
      ensures linesLower2LevelIdx == LevelLookups(lines, levelsIndex, false)
      ensures linesUpper2LevelIdx == LevelLookups(lines, levelsIndex, true)
    {
      var lv := SelectedLevels(levelsData, selected, maxIonNumber);
      var lvIndex := IndexMap(LevelKeys(lv));
      var ln := SortByWavelength(SelectedLines(linesData, selected, maxIonNumber));
      levels, levelsIndex, lines, linesIndex := lv, lvIndex, ln, IndexMap(LineIds(ln));
      linesLower2LevelIdx, linesUpper2LevelIdx := LevelLookups(ln, lvIndex, false), LevelLookups(ln, lvIndex, true);
    }

    /** The part of prepare_atom_data after the levels and lines are cut:
        the macro-atom tables, then the NLTE mask. */
    method PrepareMacroAtomAndMask(selected: set<int>, lineInteractionType: string, maxIonNumber: Option<int>,
                                   species: seq<(int, int)>) returns (ok: bool)
      modifies this`macroAtomData, this`macroAtomReferences, this`linesUpper2MacroReferenceIdx, this`nlteMask
      ensures MacroAtomOutcome(hasMacroAtom && lineInteractionType != SCATTER,
                                 PrepareMacroTables(macroAtomDataAll, macroAtomReferencesAll, selected,
                                                    maxIonNumber, lineInteractionType, lines, linesIndex),
                                 ok, MacroTables(macroAtomData, macroAtomReferences, linesUpper2MacroReferenceIdx))
      ensures !(hasMacroAtom && lineInteractionType != SCATTER) ==>
                macroAtomData == old(macroAtomData) && macroAtomReferences == old(macroAtomReferences) &&
                linesUpper2MacroReferenceIdx == old(linesUpper2MacroReferenceIdx)
      ensures ok ==> NlteMaskOf(levels, species, nlteMask)
    {
      var needed := hasMacroAtom && lineInteractionType != SCATTER;
      var prepared := PrepareMacroTables(macroAtomDataAll, macroAtomReferencesAll, selected, maxIonNumber,
                                         lineInteractionType, lines, linesIndex);
      if needed && prepared.None? {
        return false;
      }
      if needed {
        macroAtomData, macroAtomReferences := prepared.value.data, prepared.value.references;
        linesUpper2MacroReferenceIdx := prepared.value.linesUpper2MacroReferenceIdx;
      }
      nlteMask := NlteMask(levels, species);
      ok := true;
    }

    /** set_nlte_mask. */
    method SetNlteMask(species: seq<(int, int)>)
      modifies this`nlteMask
      ensures NlteMaskOf(levels, species, nlteMask)
    {
      nlteMask := NlteMask(levels, species);
    }

    /** get_collision_coefficients: (0, 0) without collision data or when
        the transition has no row; otherwise C_lu interpolated at the
        electron temperature from the row's rates, and C_ul as C_lu times
        the row's first column. */
    function GetCollisionCoefficients(atomicNumber: int, ionNumber: int, levelNumberLower: int,
                                      levelNumberUpper: int, tElectron: real,
                                      interp: (real, seq<real>, seq<real>) -> real): (c: (real, real))
      reads this
      ensures !hasCollisionData ==> c == (0.0, 0.0)
      ensures (atomicNumber, ionNumber, levelNumberLower, levelNumberUpper) !in collisionData ==> c == (0.0, 0.0)
      ensures hasCollisionData && (atomicNumber, ionNumber, levelNumberLower, levelNumberUpper) in collisionData
              && |collisionData[(atomicNumber, ionNumber, levelNumberLower, levelNumberUpper)]| > 0 ==>
              var row := collisionData[(atomicNumber, ionNumber, levelNumberLower, levelNumberUpper)];
              c.0 == interp(tElectron, collisionDataTemperatures, row[1..]) && c.1 == c.0 * row[0]
    {
      var key := (atomicNumber, ionNumber, levelNumberLower, levelNumberUpper);
      if hasCollisionData then
        if key in collisionData && |collisionData[key]| > 0 then
          var row := collisionData[key];
          var cLu := interp(tElectron, collisionDataTemperatures, row[1..]);
          (cLu, cLu * row[0])
        else (0.0, 0.0)
      else (0.0, 0.0)
    }
  }

  /** OrderedDict(zip(symbols, atomic numbers)): later rows override. */
  function SymbolToAtomicNumber(atoms: seq<AtomRow>): (m: map<string, int>)
    ensures m.Keys == set a | a in atoms :: a.symbol
    ensures forall s :: s in m ==> exists a :: a in atoms && a.symbol == s && a.atomicNumber == m[s]
  {
    if |atoms| == 0 then map[]
    else
      var last := atoms[|atoms| - 1];
      assert atoms == atoms[..|atoms| - 1] + [last];
      SymbolToAtomicNumber(atoms[..|atoms| - 1])[last.symbol := last.atomicNumber]
  }

  /** OrderedDict(zip(atomic numbers, symbols)): later rows override. */
  function AtomicNumberToSymbol(atoms: seq<AtomRow>): (m: map<int, string>)
    ensures m.Keys == set a | a in atoms :: a.atomicNumber
    ensures forall z :: z in m ==> exists a :: a in atoms && a.atomicNumber == z && a.symbol == m[z]
  {
    if |atoms| == 0 then map[]
    else
      var last := atoms[|atoms| - 1];
      assert atoms == atoms[..|atoms| - 1] + [last];
      AtomicNumberToSymbol(atoms[..|atoms| - 1])[last.atomicNumber := last.symbol]
  }

  /** Atom rows with no repeated atomic number and no repeated symbol. */
  predicate UniqueAtoms(atoms: seq<AtomRow>)
  {
    forall a, b :: a in atoms && b in atoms && (a.atomicNumber == b.atomicNumber || a.symbol == b.symbol) ==> a == b
  }

  /** With unique atom rows, the two symbol maps are inverse to each other. */
  lemma SymbolMapsInverse(atoms: seq<AtomRow>)
    requires UniqueAtoms(atoms)
    ensures forall s :: s in SymbolToAtomicNumber(atoms) ==>
              SymbolToAtomicNumber(atoms)[s] in AtomicNumberToSymbol(atoms)
              && AtomicNumberToSymbol(atoms)[SymbolToAtomicNumber(atoms)[s]] == s
    ensures forall z :: z in AtomicNumberToSymbol(atoms) ==>
              AtomicNumberToSymbol(atoms)[z] in SymbolToAtomicNumber(atoms)
              && SymbolToAtomicNumber(atoms)[AtomicNumberToSymbol(atoms)[z]] == z
  {
    var s2z, z2s := SymbolToAtomicNumber(atoms), AtomicNumberToSymbol(atoms);
    forall s | s in s2z
      ensures s2z[s] in z2s && z2s[s2z[s]] == s
    {
      var a :| a in atoms && a.symbol == s && a.atomicNumber == s2z[s];
      var b :| b in atoms && b.atomicNumber == s2z[s] && b.symbol == z2s[s2z[s]];
    }
    forall z | z in z2s
      ensures z2s[z] in s2z && s2z[z2s[z]] == z
    {
      var a :| a in atoms && a.atomicNumber == z && a.symbol == z2s[z];
      var b :| b in atoms && b.symbol == z2s[z] && b.atomicNumber == s2z[z2s[z]];
    }
  }

  /** A prepared level is one of the input rows of a selected species, and
      every such input row is kept. */
  lemma PreparedLevelsSelected(levelsData: seq<LevelRow>, selected: set<int>, maxIonNumber: Option<int>,
                               level: LevelRow)
    ensures level in SelectedLevels(levelsData, selected, maxIonNumber)
            <==> level in levelsData && level.atomicNumber in selected
                 && (maxIonNumber.None? || level.ionNumber <= maxIonNumber.value)
  {
    FilterMembers(levelsData, (x: LevelRow) => SpeciesSelected(x.atomicNumber, x.ionNumber, selected, maxIonNumber));
  }

  /** A prepared line is one of the input rows of a selected
      species, and every such input row is kept: the sort loses no line. */
  lemma PreparedLinesSelected(linesData: seq<LineRow>, selected: set<int>, maxIonNumber: Option<int>,
                              line: LineRow)
    ensures line in SortByWavelength(SelectedLines(linesData, selected, maxIonNumber))
            <==> line in linesData && line.atomicNumber in selected
                 && (maxIonNumber.None? || line.ionNumber <= maxIonNumber.value)
  {
    var kept := SelectedLines(linesData, selected, maxIonNumber);
    FilterMembers(linesData, (x: LineRow) => SpeciesSelected(x.atomicNumber, x.ionNumber, selected, maxIonNumber));
    SortByWavelengthCorrect(kept);
    assert line in SortByWavelength(kept) <==> line in multiset(SortByWavelength(kept));
    assert line in kept <==> line in multiset(kept);
  }
}
