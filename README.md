# TARDIS core in Dafny

A Dafny model of the deterministic core of TARDIS, the Monte Carlo radiative-transfer code for supernova spectra. The model covers eleven parts:

- **Packet tracker** (`tracker.dfy`, module `RPacketTracking`). `RPacketTracker` is a seven-column record of packet states. It doubles its capacity when full and truncates to the filled prefix when finalised. The file also holds `NumbaModel` and the `LineInteractionType` codes.
- **Monte Carlo main loop** (`main_loop.dfy`, `MonteCarloMainLoop`). It covers:
  - per-packet seed choice and packet start;
  - sign-by-status output energies and the `-1` diagnostic defaults;
  - the virtual-packet spectrum histogram and the optional virtual-packet log;
  - the write-back into the packet collection.
  The per-packet propagation is a function parameter.
- **Legacy C transport helpers** (`cmontecarlo.dfy`, `CMonteCarlo`). It covers `line_search` and `binary_search` over a descending frequency list, the distances to a line, to an electron and to the inner boundary, and the macro-atom transition walk.
- **Atomic data** (`atomic.dfy`, `AtomicData`). It covers:
  - the `AtomData` flags and symbol maps;
  - species selection, row numbering and ordering by wavelength;
  - macro-atom block references and the downbranch tables;
  - the NLTE mask and the collision-coefficient lookup.
- **Plasma properties** (`ion_population.dfy`, `partition_function.dfy`, `level_population.dfy`). They cover:
  - Boltzmann factors and partition functions;
  - level fractions and level number densities;
  - Saha ion populations;
  - the damped electron-density iteration.
- **Continuum rates** (`rates.dfy`, `Rates`). It covers:
  - index transformations;
  - the corrected photo-ionisation rate and its negativity guard;
  - the Seaton ion-stage scaling;
  - free-bound cooling shares;
  - the two-photon emission CDF and the inverse-CDF frequency sampler.
- **The first LTE plasma** (`legacy_plasma.dfy`, `LegacyPlasma`). It covers the abundance array, the ionisation and level loaders over database rows, the line list's oscillator strengths, and its Saha populations and electron-density loop.
- **The simulation driver** (`simulation.dfy`, `SimulationDriver`). It covers damped convergence, the inner-temperature estimate, state advance, packet counts and the iteration loop.
- **Spencer-Fano pieces** (`spencer_fano.dfy`, `SpencerFano`). It covers the energy grid, the mean ionisation energy J, the Arnaud threshold, `get_index`, the start column of the ionisation term, the constant vector and the source vector.

`common.dfy` holds the Option type and the sum lemmas the other modules share.

Floating-point numbers are modelled as `real`. Functions such as `exp`, `sqrt`, `log`, `10 **` and powers are passed in as parameters. A value the source computes as NaN, or an operation that raises, is modelled as `None` or as an error outcome. The one exception is the corrected photo-ionisation rate, whose division by a zero level density is carried through as `Rates.Extended`: a finite value, plus or minus infinity, or NaN.

Where the source changes state in place, the model does too:
- a tracker that reallocates its arrays;
- output arrays filled packet by packet;
- a mask built with `|=`;
- loaders that write into two-dimensional arrays;
- a simulation object whose model is damped each iteration.

Each such method is proved against a specification function. Separate lemmas state what the source promises about that function.

## Model

| member | source | states |
|---|---|---|
| RPacketTracking.CapacityAfterTrack | tardis/transport/montecarlo/numba_interface.py:91-92 | the capacity never shrinks; it is unchanged while there is room and, for a full tracker, there is room for the next record exactly when the old capacity was at least 1 |
| RPacketTracking.ResizeColumn | tardis/transport/montecarlo/numba_interface.py:92-107 | a fresh column of the new length whose first `keep` slots equal the old column's |
| RPacketTracking.Rows | tardis/transport/montecarlo/numba_interface.py:35-42 | seven parallel columns of equal length spell one record per index |
| RPacketTracking.RowsAppend | tardis/transport/montecarlo/numba_interface.py:120-128 | appending one value to each column appends exactly that packet's record to the rows |
| RPacketTracking.RPacketTracker.constructor | tardis/transport/montecarlo/numba_interface.py:77-88 | every column has `length` slots, the count is 0, seed and index are 0 and nothing is recorded |
| RPacketTracking.RPacketTracker.Track | tardis/transport/montecarlo/numba_interface.py:90-129 | the capacity doubles exactly when full, the count grows by one, the recorded rows are the old rows plus this packet's state, index and seed are the packet's, and the count stays within the capacity |
| RPacketTracking.RPacketTracker.ResizeIntColumns | tardis/transport/montecarlo/numba_interface.py:93-115 | the three integer columns become fresh, distinct arrays of the new length keeping their first `keep` entries |
| RPacketTracking.RPacketTracker.ResizeRealColumns | tardis/transport/montecarlo/numba_interface.py:94-113 | the four real columns become fresh, distinct arrays of the new length keeping their first `keep` entries |
| RPacketTracking.RPacketTracker.Grow | tardis/transport/montecarlo/numba_interface.py:91-116 | every column doubles in length with no recorded entry lost; count, index and seed unchanged |
| RPacketTracking.RPacketTracker.Append | tardis/transport/montecarlo/numba_interface.py:120-129 | the packet is written at slot `num_interactions` of every column, the count grows by one and no earlier slot changes |
| RPacketTracking.RPacketTracker.FinalizeArray | tardis/transport/montecarlo/numba_interface.py:131-138 | every column has exactly `num_interactions` slots holding the previously recorded prefix |
| RPacketTracking.NumbaModel.constructor | tardis/transport/montecarlo/numba_interface.py:20-28 | the model stores the given time since explosion |
| RPacketTracking.LineInteractionType.Value | tardis/transport/montecarlo/numba_interface.py:141-144 | SCATTER, DOWNBRANCH and MACROATOM have codes 0, 1 and 2 |
| RPacketTracking.LineInteractionTypeOf | tardis/transport/montecarlo/numba_interface.py:141-144 | a code names a member exactly when it lies in 0..2, and then that member's code is the given one |
| RPacketTracking.LineInteractionTypeRoundTrip | tardis/transport/montecarlo/numba_interface.py:141-144 | decoding a member's code gives that member back |
| MonteCarloMainLoop.VPacketBuffer.Filled | tardis/montecarlo/montecarlo_numba/base.py:383-390 | the filled part of every virtual-packet column is its length-`idx` prefix |
| MonteCarloMainLoop.PacketCollection.constructor | tardis/montecarlo/montecarlo_numba/base.py:178-185 | the collection keeps the given input columns and gets output columns of the same length |
| MonteCarloMainLoop.SeedFor | tardis/montecarlo/montecarlo_numba/base.py:349-354 | the seed comes from the seed table, and without a single packet seed (-1) packet i uses entry i |
| MonteCarloMainLoop.SingleSeedShared | tardis/montecarlo/montecarlo_numba/base.py:349-351 | with a single packet seed every packet uses the same table entry, the one it names |
| MonteCarloMainLoop.StartOf | tardis/montecarlo/montecarlo_numba/base.py:355-362 | packet i starts at `r_inner[0]` with its own input mu, nu and energy, its seed, and index i |
| MonteCarloMainLoop.SignedEnergy | tardis/montecarlo/montecarlo_numba/base.py:376-381 | the output energy is defined exactly for emitted and reabsorbed packets: `-energy` when reabsorbed, `+energy` when emitted |
| MonteCarloMainLoop.SignedEnergyDecodes | tardis/montecarlo/montecarlo_numba/base.py:376-381 | for a positive packet energy the sign of the output energy tells reabsorbed from emitted, in both directions |
| MonteCarloMainLoop.ReportedInteractionType | tardis/montecarlo/montecarlo_numba/base.py:376-381 | the reported last interaction type is the packet's own once it has ended and the default -1 otherwise |
| MonteCarloMainLoop.BinOf | tardis/montecarlo/montecarlo_numba/base.py:392-394 | an in-range frequency falls in a valid bin k with `f[0] + k*delta_nu <= nu < f[0] + (k+1)*delta_nu` |
| MonteCarloMainLoop.AddSampleEffect | tardis/montecarlo/montecarlo_numba/base.py:398-403 | an out-of-range sample changes nothing; an in-range one adds its energy to its own bin only; the total grows by exactly the in-range energy |
| MonteCarloMainLoop.AddBufferTotal | tardis/montecarlo/montecarlo_numba/base.py:383-403 | depositing a buffer's first samples raises the histogram total by their in-range energy |
| MonteCarloMainLoop.HistogramTotal | tardis/montecarlo/montecarlo_numba/base.py:383-403 | the histogram total equals the energy of all in-range virtual packets, each buffer read up to its fill mark |
| MonteCarloMainLoop.HistogramStep | tardis/montecarlo/montecarlo_numba/base.py:383-403 | the histogram after one more packet is the previous one with that packet's virtual packets deposited |
| MonteCarloMainLoop.HistogramNonNegative | tardis/montecarlo/montecarlo_numba/base.py:383-403 | non-negative virtual-packet energies give a histogram without negative bins |
| MonteCarloMainLoop.AddBufferNonNegative | tardis/montecarlo/montecarlo_numba/base.py:398-403 | depositing non-negative energies keeps every bin non-negative |
| MonteCarloMainLoop.Outcomes | tardis/montecarlo/montecarlo_numba/base.py:338-367 | outcome i is the propagation of packet i's start state |
| MonteCarloMainLoop.VPacketLog | tardis/montecarlo/montecarlo_numba/base.py:405-452 | the log has one entry per packet, in packet order, each the filled prefix of that packet's buffer |
| MonteCarloMainLoop.DepositVPackets | tardis/montecarlo/montecarlo_numba/base.py:383-403 | the histogram array afterwards is the old histogram with the buffer's filled samples deposited |
| MonteCarloMainLoop.RecordExtendsReports | tardis/montecarlo/montecarlo_numba/base.py:371-381 | recording packet i's outcome extends the report of packets 0..i-1 to packet i and leaves earlier slots alone |
| MonteCarloMainLoop.EmptyReports | tardis/montecarlo/montecarlo_numba/base.py:298-309 | columns whose interaction types are all -1 report no packet yet |
| MonteCarloMainLoop.RecordPacket | tardis/montecarlo/montecarlo_numba/base.py:371-381 | the six output arrays afterwards hold exactly the per-packet writes of slot i |
| MonteCarloMainLoop.AllocateOutputs | tardis/montecarlo/montecarlo_numba/base.py:297-312 | fresh, distinct output arrays of n slots with interaction types and line ids at -1 and a zero histogram |
| MonteCarloMainLoop.PropagatePacket | tardis/montecarlo/montecarlo_numba/base.py:349-403 | packet i is propagated from its start state, its outcome written to slot i and its virtual packets deposited |
| MonteCarloMainLoop.PropagateStep | tardis/montecarlo/montecarlo_numba/base.py:338-403 | one turn of the packet loop moves the loop state from packet i to packet i+1 |
| MonteCarloMainLoop.PropagatePackets | tardis/montecarlo/montecarlo_numba/base.py:338-403 | after the loop the histogram is that of all packets and every slot reports its packet; the buffers are kept in packet order |
| MonteCarloMainLoop.LogVPackets | tardis/montecarlo/montecarlo_numba/base.py:405-452 | the log holds the filled prefix of every buffer, in order |
| MonteCarloMainLoop.WriteBack | tardis/montecarlo/montecarlo_numba/base.py:454-455 | the collection's output energy and nu columns are overwritten with the computed ones |
| MonteCarloMainLoop.MainLoop | tardis/montecarlo/montecarlo_numba/base.py:268-471 | the returned histogram is that of all packets' in-range virtual packets, the output columns report each packet's terminal state, and the log is present exactly when logging is on |
| CMonteCarlo.BinarySearchAsWritten | tardis/cmontecarlo.c:22-50 | out of domain the result is -1; when the loop runs the result is the left boundary of x_insert; when it does not, the result depends on the uninitialised `imid`, and is `None` when the final test reads `x[imin + 1]` past the end |
| CMonteCarlo.BinarySearchGarbageCounterexample | tardis/cmontecarlo.c:29-49 | on [3, 2, 1] with x_insert 1.5 and `imid` holding 5 the as-written search answers 0, which is not the boundary (1 is), so line_search answers 1 instead of the insertion point 2; on the one-line list [5] searched for 5 with `imid` holding -2 the final test reads past the end |
| CMonteCarlo.BinarySearch | tardis/cmontecarlo.c:22-50 | out of domain the result is -1; inside it the result is at least imin and is the left boundary: x[r] >= x_insert and the next entry, if any, is at most x_insert |
| CMonteCarlo.LineSearch | tardis/cmontecarlo.c:3-20 | line_search over the corrected binary search: the result is the insertion point of nu_insert in the descending line list, 0 above the first line and the number of lines below the last |
| CMonteCarlo.LineSearchAsWritten | tardis/cmontecarlo.c:3-20 | line_search over binary_search as written: 0 above the first line, the number of lines below the last; inside, with more than three lines the result is the insertion point, and with at most three it is one past the as-written final choice, which depends on the uninitialised `imid` and can read past the end of the list |
| CMonteCarlo.Distance2Line | tardis/cmontecarlo.c:70-92 | the error is raised exactly when the comoving frequency is below the line, the distance is then 0, and otherwise it is non-negative for positive nu |
| CMonteCarlo.Distance2LineReachesLine | tardis/cmontecarlo.c:72-91 | travelling the returned distance brings the comoving frequency exactly onto the line |
| CMonteCarlo.Distance2Electron | tardis/cmontecarlo.c:94-97 | the distance is non-negative for non-negative inputs and divided by the inverse density gives back tau_event |
| CMonteCarlo.Distance2Inner | tardis/cmontecarlo.c:57-68 | a line of flight that misses the inner sphere or points outward gives the miss distance |
| CMonteCarlo.Distance2InnerHits | tardis/cmontecarlo.c:57-68 | with a true square root, an inward packet that meets the inner sphere travels a non-negative distance to a point of radius r_inner |
| CMonteCarlo.Distance2OuterHits | tardis/cmontecarlo.c:52-55 | with a true square root, a packet inside the outer sphere travels a non-negative distance to a point of radius r_outer |
| CMonteCarlo.MacroAtomTables.Row | tardis/cmontecarlo.c:110 | a zone's row of transition probabilities has `p_transition_nd` entries |
| CMonteCarlo.FirstExceeding | tardis/cmontecarlo.c:107-118 | the selected transition is the first whose cumulative probability from the block start exceeds the draw; None when none does |
| CMonteCarlo.MacroAtomWalkEmits | tardis/cmontecarlo.c:103-123 | a walk that returns a line returns the target line of some emission (type -1) transition |
| CMonteCarlo.MacroAtomWalkFirstEmission | tardis/cmontecarlo.c:111-122 | a first draw that selects an emission decides the returned line whatever the later draws are |
| CMonteCarlo.SelectTransition | tardis/cmontecarlo.c:106-118 | the inner loop selects exactly the first transition whose cumulative probability exceeds the draw |
| CMonteCarlo.MacroAtom | tardis/cmontecarlo.c:99-124 | the returned line is the macro-atom walk over the given draws from the activated level |
| AtomicData.Filter | tardis/atomic.py:444-453 | filtering never lengthens a table |
| AtomicData.FilterMembers | tardis/atomic.py:444-453 | the filter keeps exactly the rows that satisfy the selection |
| AtomicData.IndexMapCorrect | tardis/atomic.py:449-457 | the position numbering has exactly the table's keys, and maps each key to a position holding it |
| AtomicData.IndexMapPositions | tardis/atomic.py:449-457 | with distinct keys each row's key is numbered by its own position 0..n-1 |
| AtomicData.Lookup | tardis/atomic.py:462-467 | a lookup finds a position exactly for a numbered key, and that position is the numbering's |
| AtomicData.InsertByWavelengthPermutes | tardis/atomic.py:455 | inserting a line adds exactly that row |
| AtomicData.InsertByWavelengthSorted | tardis/atomic.py:455 | inserting into a wavelength-ordered table keeps it ordered |
| AtomicData.SortByWavelengthCorrect | tardis/atomic.py:455 | the sorted lines are in wavelength order and are a permutation of the input |
| AtomicData.BlockReferences | tardis/atomic.py:499-505 | the block references start at 0 and have one entry per count |
| AtomicData.BlockReferencesStep | tardis/atomic.py:499-505 | each block reference is the previous one plus the previous count |
| AtomicData.BlockReferencesAreTotals | tardis/atomic.py:499-505 | each block reference is the total of the counts before it |
| AtomicData.DownbranchReferencesCorrect | tardis/atomic.py:497-501 | the downbranch step is left unmodelled (`None`) exactly when no level has a downward transition; otherwise every kept level has one, its total count is its downward count and its block reference is the running total of the downward counts before it |
| AtomicData.KindReferencesCorrect | tardis/atomic.py:494-506 | for macroatom the block references are the running totals of the total counts (left unmodelled, `None`, exactly on an empty table); any other kind but downbranch leaves the references alone |
| AtomicData.ResolveTransitions | tardis/atomic.py:510-529 | one resolved transition per input transition |
| AtomicData.ResolveTransitionsCorrect | tardis/atomic.py:510-529 | each transition keeps species and type, points at its line's position when that line is numbered, and its destination is -1 for downbranch and the destination level's reference position for macroatom |
| AtomicData.PrepareMacroTablesCorrect | tardis/atomic.py:480-529 | the preparation is left unmodelled (`None`) only where the reference step is; a prepared table has one upper-level reference per line, references numbered by position, only transitions of selected species, and for downbranch only emissions resolved to -1 |
| AtomicData.KindTransitionsCorrect | tardis/atomic.py:495 | every kept transition is an input transition, and downbranch keeps exactly the emissions |
| AtomicData.NlteMask | tardis/atomic.py:535-544 | level k is marked exactly when its (atomic number, ion number) is one of the listed species; an empty list marks nothing |
| AtomicData.AtomData.constructor | tardis/atomic.py:347-416 | each has_* flag is true exactly when its optional input was given, the tables are stored and the symbol maps are built from the atom rows |
| AtomicData.AtomData.PrepareAtomData | tardis/atomic.py:419-532 | levels and lines are cut to the selected species and numbered, lines ordered by wavelength with their level lookups, macro-atom tables prepared exactly when macro-atom data exists and the kind is not scatter and left unchanged otherwise, and the NLTE mask set; false only on an empty macro-atom reference table, a case left unmodelled |
| AtomicData.AtomData.PrepareLevelsAndLines | tardis/atomic.py:444-467 | the kept levels and lines, their numberings and the lines' lower and upper level lookups |
| AtomicData.AtomData.PrepareMacroAtomAndMask | tardis/atomic.py:480-532 | the macro-atom tables (data, references and the upper-level reference lookup) are the prepared ones when needed and untouched otherwise, and the mask marks the listed species |
| AtomicData.AtomData.SetNlteMask | tardis/atomic.py:535-544 | the stored mask marks exactly the levels of the listed species |
| AtomicData.AtomData.GetCollisionCoefficients | tardis/atomic.py:546-567 | (0, 0) without collision data or for a missing transition; otherwise C_lu interpolated at the electron temperature and C_ul = C_lu times the row's first column |
| AtomicData.SymbolToAtomicNumber | tardis/atomic.py:415 | the map's keys are the atom symbols and each maps to an atomic number of a row with that symbol |
| AtomicData.AtomicNumberToSymbol | tardis/atomic.py:416 | the map's keys are the atomic numbers and each maps to the symbol of a row with that number |
| AtomicData.SymbolMapsInverse | tardis/atomic.py:415-416 | with unique atom rows the two symbol maps are inverse to each other, in both directions |
| AtomicData.PreparedLevelsSelected | tardis/atomic.py:444-446 | a level is kept exactly when it is an input row of a selected atomic number with an ion number within the maximum |
| AtomicData.PreparedLinesSelected | tardis/atomic.py:451-455 | a line is kept exactly when it is an input row of a selected species, so sorting loses no line |
| IonPopulation.PhiGeneralRelatesStages | tardis/plasma/properties/ion_population.py:33-42 | phi of stage j is defined exactly where Z_j is non-zero, and then phi_j * Z_j equals Z_{j+1} times the stage's Saha coefficient |
| IonPopulation.PhiSahaLTE | tardis/plasma/properties/ion_population.py:82-83 | in LTE phi is the general phi, unchanged |
| IonPopulation.DefaultFactorA | tardis/plasma/properties/ion_population.py:105-116 | without a configured departure coefficient (1/w) factor_a is T_e / T_rad |
| IonPopulation.RadiationFieldCorrection | tardis/plasma/properties/ion_population.py:103-131 | one row per ion and one column per cell; with delta_input every entry is delta_input; otherwise the table exists exactly when the chi_0 species is known, and each entry is the above/below-chi_0 correction for its ion and cell |
| IonPopulation.CumProdStep | tardis/plasma/properties/ion_population.py:162 | each running product is the previous one times the next factor |
| IonPopulation.CumProdFirst | tardis/plasma/properties/ion_population.py:162 | the first running product is the first factor |
| IonPopulation.RawPopulations | tardis/plasma/properties/ion_population.py:160-168 | a defined result has one population per ion stage, neutral included |
| IonPopulation.RawPopulationsConserve | tardis/plasma/properties/ion_population.py:163-168 | before the threshold an element's ion populations add up to its number density |
| IonPopulation.CumProdNonNegative | tardis/plasma/properties/ion_population.py:162 | running products of non-negative factors are non-negative |
| IonPopulation.RawPopulationsNonNegative | tardis/plasma/properties/ion_population.py:160-168 | with non-negative phi, positive n_e and non-negative number density every population is defined and non-negative |
| IonPopulation.RawPopulationsSaha | tardis/plasma/properties/ion_population.py:161-168 | each stage's population is the one below it times phi/n_e, a NaN phi counting as 0 |
| IonPopulation.ThresholdCorrect | tardis/plasma/properties/ion_population.py:150-169 | entries below the threshold become 0, the others are kept, so every entry is 0 or at least the threshold |
| IonPopulation.CalculateWithNElectron | tardis/plasma/properties/ion_population.py:154-170 | the result is the thresholded Saha populations of every element in every cell |
| IonPopulation.ElectronsBounds | tardis/plasma/properties/ion_population.py:179-182 | an element's free electrons are non-negative and at most its highest charge times its total population |
| IonPopulation.CellElectronsKnown | tardis/plasma/properties/ion_population.py:181-185 | a cell's new electron density is NaN exactly when some element's populations in it are |
| IonPopulation.CellElectronsNonNegative | tardis/plasma/properties/ion_population.py:179-182 | non-negative populations give a non-negative electron density |
| IonPopulation.ElectronDensitiesCorrect | tardis/plasma/properties/ion_population.py:179-185 | the new densities are known exactly when every cell's is, and each is that cell's free-electron sum |
| IonPopulation.RawPopulationsTotal | tardis/plasma/properties/ion_population.py:160-174 | before the threshold a cell's populations add up to its summed number density, the starting electron density |
| IonPopulation.AveragedBetween | tardis/plasma/properties/ion_population.py:194 | the averaged density lies between old and new, and equals the old one exactly when the new one does |
| IonPopulation.CellPopulationsKnown | tardis/plasma/properties/ion_population.py:177-185 | a cell's recomputed electron density is NaN exactly when some element's populations are |
| IonPopulation.PassErrorMeans | tardis/plasma/properties/ion_population.py:183-185 | a pass raises the ionization error exactly when some element's populations in some cell are NaN |
| IonPopulation.PassConvergedMeans | tardis/plasma/properties/ion_population.py:191-193 | a converging pass returns that pass's populations and every cell's recomputed density is within 5% of the one used |
| IonPopulation.SolveConverged | tardis/plasma/properties/ion_population.py:172-195 | a converged result comes from a converging pass at the densities it returns, after between 1 and the bound's number of passes |
| IonPopulation.NewElectronDensities | tardis/plasma/properties/ion_population.py:179-185 | the loop computes exactly the per-cell electron densities, or the error |
| IonPopulation.Pass | tardis/plasma/properties/ion_population.py:177-194 | one pass ends in the error, convergence or the averaged next densities exactly as the pass outcome says |
| IonPopulation.Calculate | tardis/plasma/properties/ion_population.py:172-195 | the loop's result is the iteration from the summed number densities, bounded by maxIterations passes |
| Partition.BoltzmannFactorPositive | tardis/plasma/properties/partition_function.py:22-25 | a level of positive weight whose exponential is positive has a positive factor g exp(-E beta_rad) |
| Partition.LTETable | tardis/plasma/properties/partition_function.py:22-30 | the LTE factor table has one column per cell |
| Partition.DiluteLTE | tardis/plasma/properties/partition_function.py:40-49 | the in-place update yields the dilute table: the LTE factor for metastable levels and w times it for the others |
| Partition.DiluteUnitWeight | tardis/plasma/properties/partition_function.py:40-49 | with w = 1 in every cell the dilute factors are the LTE factors |
| Partition.DilutePositive | tardis/plasma/properties/partition_function.py:40-49 | metastable levels keep their LTE factor, and with positive weight, exponential and w every dilute factor is positive |
| Partition.PartitionColumn | tardis/plasma/properties/partition_function.py:61-63 | one partition function per ion key |
| Partition.IonSumBoundsMember | tardis/plasma/properties/partition_function.py:61-63 | with non-negative factors each level's factor is at most its ion's partition function |
| Partition.IonSumNonNegative | tardis/plasma/properties/partition_function.py:61-63 | non-negative factors give a non-negative partition function |
| Partition.IonSumPositive | tardis/plasma/properties/partition_function.py:61-63 | an ion with a level, all factors positive, has a positive partition function |
| Partition.IonSumCongruent | tardis/plasma/properties/partition_function.py:61-63 | an ion's group sum reads only that ion's levels |
| Partition.IonSumScale | tardis/plasma/properties/partition_function.py:61-63 | scaling every factor scales each group sum |
| Partition.IonSumDivide | tardis/plasma/properties/partition_function.py:61-63 | dividing an ion's factors by t divides its group sum by t |
| Partition.PartitionColumnTotal | tardis/plasma/properties/partition_function.py:61-63 | the partition functions of all ions add up to the sum of all level factors: the grouping loses and repeats nothing |
| LevelPopulation.IndexOf | tardis/plasma/properties/level_population.py:17-18 | the row of an ion key is its first occurrence in the ion index, None when it is absent |
| LevelPopulation.IndexOfDistinct | tardis/plasma/properties/level_population.py:17-18 | with distinct ion keys the i-th key is found at row i |
| LevelPopulation.FractionOfIon | tardis/plasma/properties/level_population.py:16-19 | a level of an ion with non-zero partition function Z has fraction factor / Z |
| LevelPopulation.FractionsSumToOne | tardis/plasma/properties/level_population.py:16-19 | an ion's level fractions add up to 1 |
| LevelPopulation.IonFractionsSum | tardis/plasma/properties/level_population.py:16-19 | given partition functions equal to the factor sums, an ion's fractions add up to 1 |
| LevelPopulation.FractionBounds | tardis/plasma/properties/level_population.py:16-19 | with non-negative factors every defined fraction lies in [0, 1]; with positive factors every fraction is defined |
| LevelPopulation.IonDensitySum | tardis/plasma/properties/level_population.py:30-33 | an ion's level number densities add up to the ion's number density |
| LevelPopulation.TotalDensity | tardis/plasma/properties/level_population.py:30-33 | all level number densities of a cell add up to its total ion number density |
| Rates.GroundStateOfNextIon | tardis/plasma/properties/continuum_processes/rates.py:82-106 | the ion index maps (Z, ion, level) to (Z, ion) or, with next_higher, to (Z, ion+1); the ground state index is level 0 of that next-higher ion |
| Rates.CoolingRateFrame | tardis/plasma/properties/continuum_processes/rates.py:131-142 | the frame has exactly one row, keyed ("k", destination, -1) and holding the given series |
| Rates.SetIndexRows | tardis/plasma/properties/continuum_processes/rates.py:147-161 | re-keying succeeds exactly when every level is in photo_ion_idx; each row keeps its values, ends in the transition type and names source and destination in the order `reverse` selects |
| Rates.SetIndexReverse | tardis/plasma/properties/continuum_processes/rates.py:153-156 | reversing swaps source and destination in every key and changes nothing else |
| Rates.CorrectedTable | tardis/plasma/properties/continuum_processes/rates.py:305-310 | one corrected row per level; each entry is gamma - alpha_stim n_k / n_i n_e as floating point evaluates it, so a zero level density n_i gives an infinity or NaN |
| Rates.CorrPhotoIonBounds | tardis/plasma/properties/continuum_processes/rates.py:305-316 | a returned table has no negative entry and no minus infinity, and where the inputs are non-negative and the level density positive the entry is finite and between 0 and the uncorrected gamma |
| Rates.CorrPhotoIonZeroDensity | tardis/plasma/properties/continuum_processes/rates.py:305-316 | at a zero level density the entry is minus infinity and the property raises when alpha_stim n_k and n_e are non-zero and of the same sign, and the entry is NaN, which the guard lets through, when either is zero |
| Rates.CorrPhotoIonNoStimulation | tardis/plasma/properties/continuum_processes/rates.py:305-316 | without stimulated recombination and with non-negative gamma the table is returned, and each entry is gamma itself where the level density is non-zero and NaN (0 / 0) where it is zero |
| Rates.ScaleRowsWhere | tardis/plasma/properties/continuum_processes/rates.py:771-773 | the masked rows are multiplied by the factor and the others are unchanged |
| Rates.SeatonIonScaling | tardis/plasma/properties/continuum_processes/rates.py:760-774 | the coefficient rows end up scaled by 0.1, 0.2 or 0.3 for ion number 0, 1 or at least 2 |
| Rates.SeatonScaledBounds | tardis/plasma/properties/continuum_processes/rates.py:771-773 | the masks are disjoint, so each row is scaled once: non-negative entries stay non-negative, a real ion stage keeps at most 0.3 of its value, neutral atoms exactly 0.1 |
| Rates.FreeBoundRates | tardis/plasma/properties/continuum_processes/rates.py:681-684 | one cooling rate c_fb_sp n_e n_k per continuum and cell |
| Rates.FreeBoundNormalised | tardis/plasma/properties/continuum_processes/rates.py:674-689 | the total is one row keyed ("k", "bf", -1) holding each cell's sum of the continuum rates; in a cell with a non-zero total the deactivation probabilities are defined and add up to 1 |
| Rates.SharesSumToOne | tardis/plasma/properties/continuum_processes/rates.py:689 | in a cell with a non-zero total every share is defined and the shares add up to 1 |
| Rates.FreeBoundSharesBounded | tardis/plasma/properties/continuum_processes/rates.py:689 | with non-negative rates every defined deactivation probability lies in [0, 1] |
| Rates.FrequencyGridEnds | tardis/plasma/properties/continuum_processes/rates.py:514-523 | the 500-point grid starts at 0, ends at nu0 and rises for positive nu0 |
| Rates.EmissionCdf | tardis/plasma/properties/continuum_processes/rates.py:527-529 | the array afterwards is 0 followed by the cumulative integrals, all divided by the last |
| Rates.EmissionCdfs | tardis/plasma/properties/continuum_processes/rates.py:513-533 | one normalised CDF per two-photon transition, in table order |
| Rates.NormalisedCdfEnds | tardis/plasma/properties/continuum_processes/rates.py:527-529 | the CDF starts at 0 and ends at 1 |
| Rates.NormalisedCdfMonotone | tardis/plasma/properties/continuum_processes/rates.py:527-529 | for non-negative non-decreasing integrals the CDF is non-decreasing and within [0, 1] |
| Rates.SearchRight | tardis/plasma/properties/continuum_processes/rates.py:648 | the right-searchsorted index is at most the table length |
| Rates.SearchRightSplits | tardis/plasma/properties/continuum_processes/rates.py:648 | on a sorted table the entries before the index are at most z and those from it on exceed z |
| Rates.SampleInBracket | tardis/plasma/properties/continuum_processes/rates.py:646-652 | with em[0] <= z < em[last] the sample is defined, em[idx-1] <= z < em[idx], and the sample lies between nus[idx-1] and nus[idx] |
| Rates.SampleFromEmissionCdf | tardis/plasma/properties/continuum_processes/rates.py:646-652 | on a transition's normalised CDF a uniform draw in [0, 1) always yields a sample |
| LegacyPlasma.LastWriteDistinct | tardis/plasma.py:263-264 | when no two writes target the same slot, each written slot holds its own value and every slot never written keeps the initial 0.0 of np.zeros |
| LegacyPlasma.Named2ArrayAbundances | tardis/plasma.py:256-265 | fails exactly when some symbol is unknown or maps outside the array (Python's negative indices wrap, as modelled); otherwise a fresh array of max_atom entries whose entry k is the value of the last abundance written to slot k, 0.0 if none |
| LegacyPlasma.AbundancesPlaced | tardis/plasma.py:261-264 | with known, in-range and pairwise distinct atomic numbers, every element's abundance lands at index Z-1 and every other slot stays 0.0 |
| LegacyPlasma.ReadIonizeData | tardis/plasma.py:199-216 | max_ion defaults to max_atom; fails exactly when a selected row (atom <= max_atom, ion <= max_ion) would index outside the (max_ion, max_atom) array; otherwise each cell holds the last ionisation energy written to [ion-1, atom-1], 0.0 if none |
| LegacyPlasma.IonizePlaced | tardis/plasma.py:211-214 | with distinct (atom, ion) keys, a selected row's energy is found at [ion-1, atom-1] |
| LegacyPlasma.IonizeUntouched | tardis/plasma.py:201-214 | a cell that no selected row targets keeps 0.0 |
| LegacyPlasma.Query | tardis/plasma.py:224-235 | the query keeps exactly the table rows with atom <= the first bound and ion < the second, in table order |
| LegacyPlasma.LoadLevels | tardis/plasma.py:236-253 | fails exactly when a row would index outside the (max_ion, max_atom) arrays; otherwise each cell holds the energies and weights of the row run the grouping loop leaves there (a new (elem, ion) key restarts the cell, a repeated one appends) |
| LegacyPlasma.StoreRow | tardis/plasma.py:242-251 | one loop step keeps every cell equal to the grouping of the rows read so far |
| LegacyPlasma.Store | tardis/plasma.py:244-251 | the cell at the slot is appended to or restarted with the value, and every other cell is unchanged |
| LegacyPlasma.LevelCellStep | tardis/plasma.py:243-251 | reading one more row changes only that row's cell: appended when it repeats the previous key, restarted otherwise |
| LegacyPlasma.ReadLevelDataAsWritten | tardis/plasma.py:219-253 | the function as written: the query binds (max_ion, max_atom), so it selects atoms up to max_ion and ions below max_atom, then groups as LoadLevels |
| LegacyPlasma.QuerySwappedCounterexample | tardis/plasma.py:229-235 | with max_atom 30 and max_ion 5 the swapped binding silently drops every element above 5, such as iron (Z=26); it also no longer bounds the ion stage, so a row of ion stage 7 would pass and not fit the arrays |
| LegacyPlasma.ReadLevelData | tardis/plasma.py:219-253 | with the bounds bound as intended (atoms up to max_atom, ions below max_ion), each cell holds the energies and weights grouped for its (ion, atom) |
| LegacyPlasma.QuerySelectsInRange | tardis/plasma.py:229-235 | with atoms >= 1 and ions >= 0, every row the intended query selects fits the arrays, so ReadLevelData never fails |
| LegacyPlasma.RowsOfAbsent | tardis/plasma.py:242-251 | a key that no row carries has no levels |
| LegacyPlasma.LevelCellGrouped | tardis/plasma.py:232-251 | when the rows come ordered by (atom, ion) and fit the arrays, each cell holds exactly the rows with its key, in order |
| LegacyPlasma.FirstOfKey | tardis/plasma.py:243-251 | in ordered rows, a row that does not repeat its predecessor's key shares it with no earlier row |
| LegacyPlasma.ReadLineList | tardis/plasma.py:172-189 | fails exactly when some line has a zero statistical weight; otherwise one line per row, in order, each built from that row |
| LegacyPlasma.OscillatorStrengths | tardis/plasma.py:177-179 | f_lu * g_lower == f_ul * g_upper == 10**loggf |
| LegacyPlasma.PhisRelateStages | tardis/plasma.py:68-77 | phi_j * Z_j == ge * Z_(j+1) * exp(-beta chi_j), and a zero partition function (a NaN or inf fraction in the source) gives phi_j == 0 |
| LegacyPlasma.SinglePassParts | tardis/plasma.py:79-90 | a pass is defined exactly when every atom's populations are, and then holds each atom's Saha populations |
| LegacyPlasma.SingleIonConserve | tardis/plasma.py:83-87 | each atom has one more stage than it has phis, its stages sum to its number density, and stage j+1 is stage j times phi_j / n_e |
| LegacyPlasma.SingleIonElectronsBounds | tardis/plasma.py:88-89 | with non-negative phis and densities and n_e > 0, the new electron density lies between 0 and (number of stages) * the total number density |
| LegacyPlasma.ElementElectronsBounds | tardis/plasma.py:83-89 | one atom contributes between 0 and (number of stages) * its number density electrons |
| LegacyPlasma.TotalElectronsBounds | tardis/plasma.py:88-89 | the summed electron density is bounded by the sum of the per-atom bounds |
| LegacyPlasma.DampedDistance | tardis/plasma.py:105 | damping towards a fixed density halves the distance each pass |
| LegacyPlasma.CalculateIonPopulationsAsWritten | tardis/plasma.py:92-106 | the loop as written: every pass recomputes at the stored electron density, so on convergence the result is the single pass at that density and only the damped estimate moved; no earlier estimate was within 5% |
| LegacyPlasma.StalePopulationsCounterexample | tardis/plasma.py:98-105 | for one atom with phi 1 and density 1 at n_e 1, the as-written loop stops after 5 dampings with the populations [1/2, 1/2] of n_e 1 and a reported n_e of 1/2, yet the populations at 1/2 give n_e 2/3, not within 5% |
| LegacyPlasma.CalculateIonPopulations | tardis/plasma.py:92-106 | the intended loop: on convergence the result is the populations at the estimate reached, with electron density within 5% of it, and no earlier estimate stopped; unfinished after maxPasses means no estimate stopped |
| LegacyPlasma.Pass | tardis/plasma.py:100-105 | one pass stops exactly when the populations at the estimate are within 5% of it, else yields the next damped estimate |
| LegacyPlasma.EstimateNaNFrom | tardis/plasma.py:99-105 | once a pass has no value (NaN) every later estimate has none |
| LegacyPlasma.EstimateDefinedBefore | tardis/plasma.py:99-105 | a defined estimate has every earlier estimate defined |
| LegacyPlasma.SingleAtom | tardis/plasma.py:79-90 | a pass over one atom is that atom's populations and their electron count |
| SimulationDriver.DampedConvergeEnds | tardis/simulation/base.py:51-55 | damping 0 keeps the old value, damping 1 takes the estimate, and an estimate equal to the value is a fixed point |
| SimulationDriver.DampedConvergeBetween | tardis/simulation/base.py:51-55 | the new value's distance to the estimate is (1 - damping) times the old distance, so for damping in [0, 1] it lies between the old value and the estimate |
| SimulationDriver.DampRepeatedlyDistance | tardis/simulation/base.py:73-80 | damping n times towards a fixed estimate shrinks the distance by (1 - damping)^n |
| SimulationDriver.EstimateTInnerResponse | tardis/simulation/base.py:40-49 | t_inner * (L_emitted / L_requested)^exponent: unchanged when the emitted luminosity matches the request, and lowered when too much is emitted and the power is below 1 |
| SimulationDriver.AdvanceFixedPoint | tardis/simulation/base.py:57-80 | a run whose estimates equal the current t_rad and w and whose emitted luminosity equals the request leaves the model unchanged |
| SimulationDriver.AdvanceBetween | tardis/simulation/base.py:66-77 | with dampings in [0, 1], each shell's new t_rad and w lie between the old value and the run's estimate |
| SimulationDriver.NoPacketEscapedIff | tardis/simulation/base.py:107 | np.sum(output_energy < 0) == len(output_energy) holds exactly when every packet's energy is negative (none escaped) |
| SimulationDriver.WarningsListed | tardis/simulation/base.py:107-122 | iteration k is reported critical exactly when it ran in this call and none of its packets escaped |
| SimulationDriver.Simulation.constructor | tardis/simulation/base.py:12-38 | a new simulation is not converged, has executed no iterations and keeps its packet counts, requested luminosity, strategy and model |
| SimulationDriver.Create | tardis/simulation/base.py:33-38 | construction succeeds exactly when the strategy type is damped or specific (otherwise ValueError), and then holds the given settings with no iteration executed |
| SimulationDriver.Simulation.PacketsFor | tardis/simulation/base.py:89-92 | the packet count is no_of_packets, except on the last run when last_no_of_packets is set, which then wins |
| SimulationDriver.Simulation.RunSingle | tardis/simulation/base.py:88-108 | runs with PacketsFor(last_run) packets and reports critical exactly when no packet escaped |
| SimulationDriver.Simulation.AdvanceState | tardis/simulation/base.py:57-86 | the model becomes Advance of the old model: t_rad, w and t_inner each damped towards the run's estimates with their own damping constants |
| SimulationDriver.Simulation.Run | tardis/simulation/base.py:110-122 | runs the iterations from iterations_executed up to iterations, leaves iterations_executed at the larger of the two, advances the model once per run in order, and reports exactly the runs with no escaped packet |
| SpencerFano.GridUniform | tardis/energy_input/spencer_fano.py:18-24 | a grid (which needs two points, since grid[1] is read) has `points` entries from energy_min to energy_max, uniform steps of delta_energy = (max - min) / (points - 1), and a positive step when min < max |
| SpencerFano.GetJValues | tardis/energy_input/spencer_fano.py:226-237 | J is 15.8, 24.2 and 10.0 eV for neutral He, Ne and Ar, 0.6 times the ionisation potential for everything else, and positive for a positive potential |
| SpencerFano.ArnaudThreshold | tardis/energy_input/spencer_fano.py:126-128 | below and at the ionisation potential (u <= 1) the cross section is zero |
| SpencerFano.GetIndex | tardis/energy_input/spencer_fano.py:240-250 | fails exactly when an assertion fails (energy outside [grid[0], grid[-1] + step) or fewer than two points); otherwise the index is the last grid point strictly below the energy, or left unbound (UnboundLocalError) exactly when no point is below, which happens only at energy == grid[0] |
| SpencerFano.IndexBrackets | tardis/energy_input/spencer_fano.py:246-250 | the index found brackets the energy: grid[i] < energy <= grid[i+1] |
| SpencerFano.CrossSectionStartIndex | tardis/energy_input/spencer_fano.py:264-267 | 0 when the potential is at or below the first grid energy, otherwise get_index of the potential; never unbound |
| SpencerFano.ColumnStart | tardis/energy_input/spencer_fano.py:271-273 | j_start is the larger of i and the start index |
| SpencerFano.ConstantVector | tardis/energy_input/spencer_fano.py:384-387 | a fresh vector whose entry i is the sum of source[j] * dE over j >= i |
| SpencerFano.SuffixSums | tardis/energy_input/spencer_fano.py:384-387 | for a non-negative source and dE the constant vector is non-increasing, and its first entry is dE times the source total |
| SpencerFano.SourceVector | tardis/energy_input/spencer_fano.py:484-493 | a fresh vector equal to the source profile: 0 on the first points - ceil(0.03 points) entries and 1 / (dE * spread) on the rest |
| SpencerFano.SpreadPoints | tardis/energy_input/spencer_fano.py:485 | ceil(0.03 points) spreads the source over between 1 and `points` entries for a non-empty grid |
| SpencerFano.SourceNormalised | tardis/energy_input/spencer_fano.py:484-493 | the source integrates to one: its sum times dE is 1, and it is non-negative for a positive dE |
| SpencerFano.SourceSum | tardis/energy_input/spencer_fano.py:486-493 | the source sums to its height times the number of spread points |

## Left out

- Floating-point rounding, NaN propagation and infinities. Reals are exact. A NaN the source would produce is `None` or an error outcome, except in `Rates.CorrectedTable`, where `Rates.Extended` carries the infinities and NaN of a division by a zero level density. Signed zeros, and the overflow to `inf` in large exponentials, are not modelled.
- `exp`, `sqrt`, `log`, powers, `10 ** x` and `interp1d` are given as function parameters or precomputed values. Properties that need their mathematical behaviour take it as a precondition, for example `pow(1, e) == 1`.
- Random numbers, from `np.random.seed` and the C `rk_double` draws to the two-photon sampler's `z`, are parameters: draws are a sequence, seeds are input values.
- `single_packet_loop` and `RPacket` are not part of this model. The per-packet propagation is a function parameter of `MonteCarloMainLoop.MainLoop`, returning a final status, frequency, energy, diagnostics and a virtual-packet buffer.
- `prange` parallelism is modelled as a sequential loop in packet order. Races on the shared histogram are not modelled.
- Progress bars, notebook widgets and all logging are left out. The critical message of `run_single` is modelled as a boolean result.
- HDF5, SQL and pandas I/O are left out:
  - A database cursor is the sequence of rows it yields.
  - `WHERE` clauses are modelled by `LegacyPlasma.Query`.
  - The `ORDER BY atom, ion, energy` of the level query is a precondition (`SortedByKey`) of the lemma that relates cells to keys.
  - DataFrames are nested sequences indexed by cell.
- Unit conversions and the Einstein coefficients B_lu, B_ul and A_ul in `prepare_atom_data` are left out. They are astropy arithmetic on columns that no other modelled operation reads.
- The other methods of `LTEPlasma` and `NebularPlasma` in `tardis/plasma.py` are left out: `calculate_tau_sobolev`, the nebular partition functions and phis, and `make_levels_table`. They are outside the modelled core.
- The rest of the plasma property framework is left out, including PhiSahaNebular and the property graph. It is glue around the modelled calculations.
- The Monte Carlo runner is not part of this model. Each run is summarised by a `RunReport`: output energies, estimated t_rad and w, and emitted luminosity. Its `j_estimator` and `nu_bar_estimator` copies are left out, and so are `plasma.update` and `legacy_update_spectrum`.
- Spencer-Fano physics is left out:
  - the matrix terms for Coulomb loss, excitation and ionisation beyond their start column;
  - the LU solve;
  - `initial_energy`;
  - `get_arnaud_cross_section_array_shell`.
  These are floating-point linear algebra over library calls.
- `SpencerFano.ArnaudCrossSection`: only the zero below threshold is stated. Above threshold the value depends on `log` and on nonlinear real arithmetic. It also requires a non-zero ionisation potential, which it divides by; the source asserts only `ion_potential >= grid[0]` (tardis/energy_input/spencer_fano.py:406), which does not exclude 0 on a grid starting at or below 0, where the source would produce inf or NaN.
- `Rates.EmissionCdf` and `Rates.EmissionCdfs` require a non-zero last cumulative integral. Only degenerate data such as nu0 = 0 gives 0 there, and then `cdf /= cdf[-1]` (tardis/plasma/properties/continuum_processes/rates.py:529) makes every entry NaN; that NaN table is not modelled.
- `Rates.FreeBoundRates`: the reindexing and sorting of `p_fb_deactivation` by `level2continuum_idx` are not modelled. Each level's share is modelled by position.
- `Rates.SampleFrequency`: an index of 0 is `None`, while Python's `nus[idx - 1]` would wrap to the last entry. Equal neighbouring CDF values, a division by zero, are also `None`. `Rates.SampleFromEmissionCdf` shows that neither happens for a draw in [0, 1).
- `AtomicData.DownbranchReferencesCorrect`: when no level has a downward transition the reference table is empty and the model gives `None`. pandas instead grows the empty frame to one row whose block reference is 0 and whose other columns are NaN; what the later `.ix` lookups (tardis/atomic.py:510-526) make of that NaN-keyed row depends on the pandas version, so this case is not modelled.
- `AtomicData.KindReferencesCorrect`: the same holds for the macroatom references of an empty table, which are `None` here.
- `AtomicData.AtomData.PrepareAtomData` and `AtomicData.AtomData.PrepareMacroAtomAndMask` inherit that outcome: they return false exactly in this unmodelled empty-table case, where the source goes on with the one-row table.
- `AtomicData.SortByWavelength`: the source sorts with an unstable quicksort, so the order of lines of equal wavelength is unspecified; the model fixes one such order. Only wavelength order and permutation are stated.
- `CMonteCarlo.SelectTransition` and `CMonteCarlo.MacroAtom`: like the C loop, the selection runs on past the level's block into the next levels' transitions of the same zone. When the running probability never exceeds the draw before the end of the zone's row, the model gives `None`; the C loop reads on into the next zone's probabilities and, in the last zone, past the end of the array. That read is not modelled.
- `Rates.SearchRight` and `Rates.SampleFrequency`: the source searches the concatenation of every transition's CDF (tardis/plasma/properties/continuum_processes/rates.py:646-648), which with two or more transitions is not sorted. The model states its properties for one transition's sorted CDF; the search on the concatenated, unsorted array is not modelled.
- `LegacyPlasma`: `LTEPlasma.__init__` (tardis/plasma.py:25-34) never stores `atom_model`, yet the atom number density reads `self.atomic_model.masses` (tardis/plasma.py:59) and the modelled methods read `self.atom_model` (tardis/plasma.py:66-76) and `self.atomic_model.max_ion` (tardis/plasma.py:89). As written, construction raises `AttributeError`. The model passes the atomic data to each operation as a parameter instead.
- `IonPopulation.Calculate` and `LegacyPlasma.CalculateIonPopulations`: the source loops without bound. Here `maxIterations` or `maxPasses` bounds the loop, with an `Unfinished` or `NotConverged` outcome. The warning after 100 iterations is not modelled.
- `CMonteCarlo.MacroAtom`: the walk takes a finite sequence of draws and gives `None` when they run out. The C loop is unbounded.
- `RPacketTracking.RPacketTracker.Track` requires `length >= 1`. With length 0 the doubling keeps capacity 0 and the source writes out of bounds.
- `MonteCarloMainLoop.MainLoop` requires a grid of at least two ascending points in which every in-range frequency has a bin (`BinsCoverGrid`). On other grids the source's bin index would fall outside the histogram.
- `CMonteCarlo.Distance2Line` requires `nu != 0`. The source divides by `nu`.
- `CMonteCarlo.Distance2Outer` and `CMonteCarlo.Distance2Inner` take `sqrt` as a parameter. Their contracts state the branch structure and the hit conditions, not the sqrt arithmetic.
- `SimulationDriver.Simulation.Run`:
  - It requires a nonzero `luminosity_requested`, since `estimate_t_inner` divides by it.
  - It requires one `RunReport` per iteration, each of the model's shape (`Fits`).
  - It requires that no previous run has iterated further than the reports cover.
- `SimulationDriver.EstimateTInnerResponse`: the direction of the change in t_inner is stated under the given behaviour of the power function, not for the real power.
- `SpencerFano.MakeGrid` has no value for fewer than two points, where the source's `grid[1]` raises.

## Findings

| source | as written | input that shows it | evidently intended | confidence | as-written member | corrected member |
|---|---|---|---|---|---|---|
| tardis/cmontecarlo.c:29-42 | `imid` is declared without a value, and when the initial `imax - imin <= 2` the loop never runs, so line 42 compares against `x[imid]` with `imid` uninitialised | x = [3, 2, 1], x_insert = 1.5, imin = 0, imax = 2 with a leftover `imid` of 5: the result is 0, but 1.5 lies between x[1] and x[2], so the answer is 1. line_search calls it over the whole line list, so every list of at most three lines is exposed: on these three lines it answers 1 instead of 2, and on the one-line list [5] searched for 5 a leftover `imid` of -2 reads x[1], past the end | return `imin` or `imin + 1` by comparing against the remaining interval, as in the header's contract | high, not executed | CMonteCarlo.BinarySearchAsWritten, CMonteCarlo.LineSearchAsWritten, CMonteCarlo.BinarySearchGarbageCounterexample | CMonteCarlo.BinarySearch, CMonteCarlo.LineSearch |
| tardis/plasma.py:235 | the level query is bound with `(max_ion, max_atom)`, so `atom <= ?` gets max_ion and `ion < ?` gets max_atom | max_atom = 30, max_ion = 5: every element above Z = 5 is silently dropped, iron (Z = 26) included; the ion stage is no longer bounded either, so a row of ion stage 7 would be selected and fall outside the 5 x 30 arrays | bind `(max_atom, max_ion)` | high, not executed | LegacyPlasma.ReadLevelDataAsWritten, LegacyPlasma.QuerySwappedCounterexample | LegacyPlasma.ReadLevelData, LegacyPlasma.QuerySelectsInRange |
| tardis/plasma.py:98-105 | every pass recomputes the populations at the stored `self.electron_density`, and the damped estimate is never fed back, so the loop only moves the estimate towards a fixed value | one atom with phi 1 and density 1 at n_e = 1: the loop stops after 5 dampings and returns the populations [1/2, 1/2] of n_e = 1 together with a reported n_e of 1/2, yet the populations at n_e = 1/2 give n_e = 2/3 | recompute the populations at the damped estimate each pass until self-consistent | medium, not executed | LegacyPlasma.CalculateIonPopulationsAsWritten, LegacyPlasma.StalePopulationsCounterexample | LegacyPlasma.CalculateIonPopulations |
