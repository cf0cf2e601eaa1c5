/** The Monte Carlo orchestration loop of the numba transport
    (tardis/montecarlo/montecarlo_numba/base.py, montecarlo_main_loop): one
    packet after another is seeded, started at the inner boundary and handed
    to the per-packet propagation, its terminal state is written into the
    output columns, and the energies of the virtual packets it spawned are
    binned into a spectrum histogram. The propagation itself is a parameter
    of the model. */
module MonteCarloMainLoop {
  import opened Common

  datatype PacketStatus = InProcess | Emitted | Reabsorbed

  /** The state a real packet is created in. */
  datatype PacketStart = PacketStart(
    r: real, mu: real, nu: real, energy: real, seed: int, index: nat)

  /** A virtual-packet collection as the propagation leaves it: eight
      columns of some capacity whose first idx entries are filled. */
  datatype VPacketBuffer = VPacketBuffer(
    idx: nat, nus: seq<real>, energies: seq<real>, initialMus: seq<real>,
    initialRs: seq<real>, lastInteractionInNu: seq<real>,
    lastInteractionType: seq<int>, lastInteractionInId: seq<int>,
    lastInteractionOutId: seq<int>)
  {
    ghost predicate Valid()
    {
      && idx <= |nus| && idx <= |energies| && idx <= |initialMus| && idx <= |initialRs|
      && idx <= |lastInteractionInNu| && idx <= |lastInteractionType|
      && idx <= |lastInteractionInId| && idx <= |lastInteractionOutId|
    }

    /** Every filled sample carries a non-negative energy. */
    ghost predicate NonNegative()
    {
      forall j :: 0 <= j < idx && j < |energies| ==> energies[j] >= 0.0
    }

    /** The filled part of every column, as it is logged. */
    function Filled(): (b: VPacketBuffer)
      requires Valid()
      ensures b.Valid() && b.idx == idx
      ensures |b.nus| == idx && |b.energies| == idx && |b.initialMus| == idx
      ensures |b.initialRs| == idx && |b.lastInteractionInNu| == idx
      ensures |b.lastInteractionType| == idx && |b.lastInteractionInId| == idx
      ensures |b.lastInteractionOutId| == idx
      ensures b.nus <= nus && b.energies <= energies && b.initialMus <= initialMus
      ensures b.initialRs <= initialRs && b.lastInteractionInNu <= lastInteractionInNu
      ensures b.lastInteractionType <= lastInteractionType
      ensures b.lastInteractionInId <= lastInteractionInId
      ensures b.lastInteractionOutId <= lastInteractionOutId
    {
      VPacketBuffer(idx, nus[..idx], energies[..idx], initialMus[..idx], initialRs[..idx],
                    lastInteractionInNu[..idx], lastInteractionType[..idx],
                    lastInteractionInId[..idx], lastInteractionOutId[..idx])
    }
  }

  /** A buffer whose fill mark lies within every column. */
  type FilledBuffer = b: VPacketBuffer | b.Valid()
    witness VPacketBuffer(0, [], [], [], [], [], [], [], [])

  /** What the per-packet propagation leaves behind. */
  datatype PacketOutcome = PacketOutcome(
    status: PacketStatus, nu: real, energy: real, lastInteractionInNu: real,
    lastInteractionType: int, lastLineInteractionInId: int,
    lastLineInteractionOutId: int, vpackets: FilledBuffer)

  /** The packet collection: input columns and the two output columns the
      loop writes back into. */
  class PacketCollection {
    var inputMu: array<real>
    var inputNu: array<real>
    var inputEnergy: array<real>
    var outputNu: array<real>
    var outputEnergy: array<real>

    ghost predicate Valid()
      reads this
    {
      && inputMu.Length == outputNu.Length && inputNu.Length == outputNu.Length
      && inputEnergy.Length == outputNu.Length && outputEnergy.Length == outputNu.Length
      && outputNu != outputEnergy
    }

    constructor (inputMu: array<real>, inputNu: array<real>, inputEnergy: array<real>)
      requires inputNu.Length == inputMu.Length && inputEnergy.Length == inputMu.Length
      ensures Valid() && outputNu.Length == inputMu.Length
      ensures this.inputMu == inputMu && this.inputNu == inputNu
      ensures this.inputEnergy == inputEnergy
      ensures fresh(outputNu) && fresh(outputEnergy)
    {
      this.inputMu := inputMu;
      this.inputNu := inputNu;
      this.inputEnergy := inputEnergy;
      outputNu := new real[inputMu.Length];
      outputEnergy := new real[inputMu.Length];
    }
  }

  /** The seed table can serve n packets: the one shared entry when a single
      seed is configured (-1 means none), the first n entries otherwise. */
  predicate SeedsCover(seeds: seq<int>, singlePacketSeed: int, n: nat)
  {
    if singlePacketSeed != -1 then PyIndexValid(singlePacketSeed, |seeds|) else n <= |seeds|
  }

  /** The seed of packet i. */
  function SeedFor(seeds: seq<int>, singlePacketSeed: int, i: nat): (seed: int)
    requires SeedsCover(seeds, singlePacketSeed, i + 1)
    ensures seed in seeds
    ensures singlePacketSeed == -1 ==> seed == seeds[i]
  {
    if singlePacketSeed != -1 then seeds[PyIndex(singlePacketSeed, |seeds|)] else seeds[i]
  }

  /** With a single seed configured every packet draws the same random
      sequence. */
  lemma SingleSeedShared(seeds: seq<int>, singlePacketSeed: int, i: nat, j: nat)
    requires singlePacketSeed != -1 && SeedsCover(seeds, singlePacketSeed, 0)
    ensures SeedFor(seeds, singlePacketSeed, i) == SeedFor(seeds, singlePacketSeed, j)
    ensures singlePacketSeed >= 0 ==> SeedFor(seeds, singlePacketSeed, i) == seeds[singlePacketSeed]
  {
  }

  /** Everything a packet is created from: the inner radius, the input
      columns of the packet collection and the seed table. */
  datatype Injection = Injection(
    rInner0: real, mus: seq<real>, nus: seq<real>, energies: seq<real>,
    seeds: seq<int>, singlePacketSeed: int)
  {
    /** The injection can create packets 0 .. n-1. */
    predicate Covers(n: nat)
    {
      n <= |mus| && n <= |nus| && n <= |energies| && SeedsCover(seeds, singlePacketSeed, n)
    }
  }

  /** Packet i starts at the inner boundary with its own input direction,
      frequency and energy, and its seed. */
  function StartOf(inj: Injection, i: nat): (s: PacketStart)
    requires inj.Covers(i + 1)
    ensures s.r == inj.rInner0 && s.index == i
    ensures s.mu == inj.mus[i] && s.nu == inj.nus[i] && s.energy == inj.energies[i]
    ensures s.seed == SeedFor(inj.seeds, inj.singlePacketSeed, i)
  {
    PacketStart(inj.rInner0, inj.mus[i], inj.nus[i], inj.energies[i],
                SeedFor(inj.seeds, inj.singlePacketSeed, i), i)
  }

  /** The output energy of a packet: negative when reabsorbed, positive when
      emitted; a packet in neither state has no defined output energy. */
  function SignedEnergy(o: PacketOutcome): (e: Option<real>)
    ensures e.Some? <==> o.status != InProcess
    ensures o.status == Reabsorbed ==> e == Some(-o.energy)
    ensures o.status == Emitted ==> e == Some(o.energy)
  {
    match o.status
    case Reabsorbed => Some(-o.energy)
    case Emitted => Some(o.energy)
    case InProcess => None
  }

  /** Reading the sign back: for a packet of non-negative energy the output
      energy is negative only if it was reabsorbed, and its magnitude is the
      packet energy either way. */
  lemma SignedEnergyDecodes(o: PacketOutcome)
    requires o.energy > 0.0 && o.status != InProcess
    ensures SignedEnergy(o).value < 0.0 <==> o.status == Reabsorbed
    ensures SignedEnergy(o).value > 0.0 <==> o.status == Emitted
  {
  }

  /** The last interaction type reported for a packet: its own for a packet
      that ended, the default -1 otherwise. */
  function ReportedInteractionType(o: PacketOutcome): (t: int)
    ensures o.status == InProcess ==> t == -1
    ensures o.status != InProcess ==> t == o.lastInteractionType
  {
    match o.status
    case Reabsorbed => o.lastInteractionType
    case Emitted => o.lastInteractionType
    case InProcess => -1
  }

  /** A frequency grid the histogram can bin into: at least two ascending
      points and no point beyond where uniform steps of the first spacing
      would put it, so that every in-range frequency has a bin. */
  predicate BinsCoverGrid(f: seq<real>)
  {
    |f| >= 2 && f[0] < f[1] && f[|f| - 1] <= f[0] + (|f| - 1) as real * (f[1] - f[0])
  }

  /** A frequency inside the spectrum grid; the others are skipped. */
  predicate InRange(f: seq<real>, nu: real)
    requires |f| >= 1
  {
    f[0] <= nu <= f[|f| - 1]
  }

  /** The width of a histogram bin: the first spacing of the grid. */
  function Spacing(f: seq<real>): real
    requires |f| >= 2
  {
    f[1] - f[0]
  }

  /** The histogram bin of an in-range frequency: the bin of width
      Spacing(f) that contains it. */
  function BinOf(f: seq<real>, nu: real): (k: int)
    requires BinsCoverGrid(f) && InRange(f, nu)
    ensures 0 <= k < |f|
    ensures f[0] + k as real * Spacing(f) <= nu < f[0] + (k + 1) as real * Spacing(f)
  {
    var d, y := Spacing(f), nu - f[0];
    var x := y / d;
    DivMul(y, d);
    MulSub((|f| - 1) as real, x, d);
    MulSign((|f| - 1) as real - x, d);
    var k := x.Floor;
    assert k as real <= x < (k + 1) as real;
    MulSub(x, k as real, d);
    MulSign(x - k as real, d);
    MulSub((k + 1) as real, x, d);
    MulSign((k + 1) as real - x, d);
    assert x * d == y;
    assert ((k + 1) as real - x) * d > 0.0;
    assert (k + 1) as real * d - x * d > 0.0;
    assert (k + 1) as real * d > y;
    k
  }

  /** One virtual packet deposited into the histogram: skipped when out of
      range, otherwise added to its bin. */
  function AddSample(h: seq<real>, f: seq<real>, nu: real, e: real): (h': seq<real>)
    requires BinsCoverGrid(f) && |h| == |f|
    ensures |h'| == |h|
  {
    if !InRange(f, nu) then h
    else
      var k := BinOf(f, nu);
      h[k := h[k] + e]
  }

  /** An out-of-range sample leaves every bin alone; an in-range one adds
      its energy to the bin containing its frequency and to no other bin;
      either way the total grows by exactly the in-range energy. */
  lemma AddSampleEffect(h: seq<real>, f: seq<real>, nu: real, e: real)
    requires BinsCoverGrid(f) && |h| == |f|
    ensures !InRange(f, nu) ==> AddSample(h, f, nu, e) == h
    ensures InRange(f, nu) ==>
      && AddSample(h, f, nu, e)[BinOf(f, nu)] == h[BinOf(f, nu)] + e
      && forall k :: 0 <= k < |h| && k != BinOf(f, nu) ==> AddSample(h, f, nu, e)[k] == h[k]
    ensures Sum(AddSample(h, f, nu, e)) == Sum(h) + (if InRange(f, nu) then e else 0.0)
  {
    if InRange(f, nu) {
      var k := BinOf(f, nu);
      SumUpdate(h, k, h[k] + e);
    }
  }

  /** The energy of the in-range samples among the first n of a buffer. */
  function InRangeEnergy(f: seq<real>, nus: seq<real>, es: seq<real>, n: nat): real
    requires |f| >= 1 && n <= |nus| && n <= |es|
  {
    if n == 0 then 0.0
    else InRangeEnergy(f, nus, es, n - 1) + (if InRange(f, nus[n - 1]) then es[n - 1] else 0.0)
  }

  /** The first n samples of a buffer deposited in order. */
  function AddBuffer(h: seq<real>, f: seq<real>, b: FilledBuffer, n: nat): (h': seq<real>)
    requires BinsCoverGrid(f) && |h| == |f| && n <= b.idx
    ensures |h'| == |h|
  {
    if n == 0 then h
    else AddSample(AddBuffer(h, f, b, n - 1), f, b.nus[n - 1], b.energies[n - 1])
  }

  /** Depositing a buffer raises the total by the energy of its in-range
      samples. */
  lemma {:induction false} AddBufferTotal(h: seq<real>, f: seq<real>, b: FilledBuffer, n: nat)
    requires BinsCoverGrid(f) && |h| == |f| && n <= b.idx
    ensures Sum(AddBuffer(h, f, b, n)) == Sum(h) + InRangeEnergy(f, b.nus, b.energies, n)
  {
    if n > 0 {
      AddBufferTotal(h, f, b, n - 1);
      AddSampleEffect(AddBuffer(h, f, b, n - 1), f, b.nus[n - 1], b.energies[n - 1]);
    }
  }

  /** The energy of the in-range virtual packets of a sequence of packets,
      each read up to its buffer's fill mark. */
  function TotalInRangeEnergy(f: seq<real>, outs: seq<PacketOutcome>): real
    requires |f| >= 1
  {
    if |outs| == 0 then 0.0
    else
      var b := outs[|outs| - 1].vpackets;
      TotalInRangeEnergy(f, outs[..|outs| - 1]) + InRangeEnergy(f, b.nus, b.energies, b.idx)
  }

  /** The spectrum histogram of a sequence of packets: it starts at zero and
      receives every packet's virtual packets in packet order. */
  function Histogram(f: seq<real>, outs: seq<PacketOutcome>): (h: seq<real>)
    requires BinsCoverGrid(f)
    ensures |h| == |f|
  {
    if |outs| == 0 then Zeros(|f|)
    else
      var b := outs[|outs| - 1].vpackets;
      AddBuffer(Histogram(f, outs[..|outs| - 1]), f, b, b.idx)
  }

  /** The total of the histogram is the energy of all in-range virtual
      packets: nothing in range is lost and nothing out of range counts. */
  lemma {:induction false} HistogramTotal(f: seq<real>, outs: seq<PacketOutcome>)
    requires BinsCoverGrid(f)
    ensures Sum(Histogram(f, outs)) == TotalInRangeEnergy(f, outs)
  {
    if |outs| > 0 {
      var b := outs[|outs| - 1].vpackets;
      HistogramTotal(f, outs[..|outs| - 1]);
      AddBufferTotal(Histogram(f, outs[..|outs| - 1]), f, b, b.idx);
    }
  }

  /** The histogram of one more packet is the previous histogram with
      that packet's virtual packets deposited. */
  lemma HistogramStep(f: seq<real>, outs: seq<PacketOutcome>, i: nat)
    requires BinsCoverGrid(f) && i < |outs|
    ensures Histogram(f, outs[..i + 1])
         == AddBuffer(Histogram(f, outs[..i]), f, outs[i].vpackets, outs[i].vpackets.idx)
  {
    assert outs[..i + 1][..i] == outs[..i];
  }

  /** A histogram of non-negative energies has no negative bin. */
  lemma {:induction false} HistogramNonNegative(f: seq<real>, outs: seq<PacketOutcome>)
    requires BinsCoverGrid(f)
    requires forall i :: 0 <= i < |outs| ==> outs[i].vpackets.NonNegative()
    ensures forall k :: 0 <= k < |f| ==> Histogram(f, outs)[k] >= 0.0
  {
    if |outs| > 0 {
      HistogramNonNegative(f, outs[..|outs| - 1]);
      var b := outs[|outs| - 1].vpackets;
      assert b.NonNegative();
      AddBufferNonNegative(Histogram(f, outs[..|outs| - 1]), f, b, b.idx);
    }
  }

  lemma {:induction false} AddBufferNonNegative(h: seq<real>, f: seq<real>, b: FilledBuffer, n: nat)
    requires BinsCoverGrid(f) && |h| == |f| && n <= b.idx
    requires forall k :: 0 <= k < |h| ==> h[k] >= 0.0
    requires b.NonNegative()
    ensures forall k :: 0 <= k < |h| ==> AddBuffer(h, f, b, n)[k] >= 0.0
  {
    if n > 0 {
      AddBufferNonNegative(h, f, b, n - 1);
      AddSampleEffect(AddBuffer(h, f, b, n - 1), f, b.nus[n - 1], b.energies[n - 1]);
    }
  }

  /** The outcomes of packets 0 .. n-1, in packet order. */
  function Outcomes(propagate: PacketStart -> PacketOutcome, inj: Injection, n: nat): (outs: seq<PacketOutcome>)
    requires inj.Covers(n)
    ensures |outs| == n
    ensures forall i :: 0 <= i < n ==> outs[i] == propagate(StartOf(inj, i))
  {
    if n == 0 then [] else Outcomes(propagate, inj, n - 1) + [propagate(StartOf(inj, n - 1))]
  }

  /** The logged virtual packets: the filled part of every packet's
      buffer, in packet order. */
  function VPacketLog(outs: seq<PacketOutcome>): (log: seq<VPacketBuffer>)
    ensures |log| == |outs|
    ensures forall i :: 0 <= i < |outs| ==> log[i] == outs[i].vpackets.Filled()
  {
    if |outs| == 0 then [] else VPacketLog(outs[..|outs| - 1]) + [outs[|outs| - 1].vpackets.Filled()]
  }

  /** Deposit the filled part of one virtual-packet buffer. */
  method DepositVPackets(hist: array<real>, f: seq<real>, b: FilledBuffer)
    requires BinsCoverGrid(f) && hist.Length == |f|
    modifies hist
    ensures hist[..] == AddBuffer(old(hist[..]), f, b, b.idx)
  {
    ghost var h0 := hist[..];
    var delta := f[1] - f[0];
    var j := 0;
    while j < b.idx
      invariant 0 <= j <= b.idx
      invariant hist[..] == AddBuffer(h0, f, b, j)
    {
      var nu := b.nus[j];
      if !(nu < f[0] || nu > f[|f| - 1]) {
        var idx := ((nu - f[0]) / delta).Floor;
        assert idx == BinOf(f, nu);
        hist[idx] := hist[idx] + b.energies[j];
      }
      j := j + 1;
    }
  }

  /** The six per-packet output columns of the loop, as values. */
  datatype PacketColumns = PacketColumns(
    nus: seq<real>, energies: seq<real>, interactionTypes: seq<int>,
    interactionInNus: seq<real>, lineInIds: seq<int>, lineOutIds: seq<int>)
  {
    predicate Holds(i: nat)
    {
      && i < |nus| && i < |energies| && i < |interactionTypes|
      && i < |interactionInNus| && i < |lineInIds| && i < |lineOutIds|
    }
  }

  /** The writes of the loop body for packet i: its frequency and line
      diagnostics always, its signed energy and last interaction type only
      when it ended as emitted or reabsorbed. */
  function Record(c: PacketColumns, i: nat, o: PacketOutcome): PacketColumns
    requires c.Holds(i)
  {
    PacketColumns(
      c.nus[i := o.nu],
      if SignedEnergy(o).Some? then c.energies[i := SignedEnergy(o).value] else c.energies,
      if SignedEnergy(o).Some? then c.interactionTypes[i := o.lastInteractionType] else c.interactionTypes,
      c.interactionInNus[i := o.lastInteractionInNu],
      c.lineInIds[i := o.lastLineInteractionInId],
      c.lineOutIds[i := o.lastLineInteractionOutId])
  }

  /** Slots 0 .. i-1 report packets 0 .. i-1: the terminal frequency, the
      signed energy where one is defined, the reported interaction type and
      the line diagnostics; the interaction types past i are still -1. */
  ghost predicate Reports(c: PacketColumns, outs: seq<PacketOutcome>, i: nat)
  {
    && i <= |outs| && i <= |c.nus| && i <= |c.energies| && i <= |c.interactionInNus|
    && i <= |c.lineInIds| && i <= |c.lineOutIds|
    && (forall k :: i <= k < |c.interactionTypes| ==> c.interactionTypes[k] == -1)
    && forall k :: 0 <= k < i ==>
         && k < |c.interactionTypes|
         && c.nus[k] == outs[k].nu
         && (SignedEnergy(outs[k]).Some? ==> c.energies[k] == SignedEnergy(outs[k]).value)
         && c.interactionTypes[k] == ReportedInteractionType(outs[k])
         && c.interactionInNus[k] == outs[k].lastInteractionInNu
         && c.lineInIds[k] == outs[k].lastLineInteractionInId
         && c.lineOutIds[k] == outs[k].lastLineInteractionOutId
  }

  /** Recording packet i's outcome extends the report by one packet and
      leaves the earlier slots alone. */
  lemma RecordExtendsReports(c: PacketColumns, outs: seq<PacketOutcome>, i: nat)
    requires i < |outs| && c.Holds(i) && Reports(c, outs, i)
    ensures Reports(Record(c, i, outs[i]), outs, i + 1)
  {
  }

  /** Fresh columns, with the interaction types at -1, report no packet. */
  lemma EmptyReports(c: PacketColumns, outs: seq<PacketOutcome>)
    requires forall k :: 0 <= k < |c.interactionTypes| ==> c.interactionTypes[k] == -1
    ensures Reports(c, outs, 0)
  {
  }

  /** The six output columns read as values. */
  function ColumnsOf(outputNus: array<real>, outputEnergies: array<real>,
                     lastInteractionTypes: array<int>, lastInteractionInNus: array<real>,
                     lastLineInteractionInIds: array<int>, lastLineInteractionOutIds: array<int>): PacketColumns
    reads outputNus, outputEnergies, lastInteractionTypes, lastInteractionInNus
    reads lastLineInteractionInIds, lastLineInteractionOutIds
  {
    PacketColumns(outputNus[..], outputEnergies[..], lastInteractionTypes[..],
                  lastInteractionInNus[..], lastLineInteractionInIds[..], lastLineInteractionOutIds[..])
  }

  /** The per-packet writes of the loop body, in place. */
  method RecordPacket(o: PacketOutcome, i: nat, outputNus: array<real>, outputEnergies: array<real>,
                      lastInteractionTypes: array<int>, lastInteractionInNus: array<real>,
                      lastLineInteractionInIds: array<int>, lastLineInteractionOutIds: array<int>)
    requires i < outputNus.Length && i < outputEnergies.Length && i < lastInteractionTypes.Length
    requires i < lastInteractionInNus.Length && i < lastLineInteractionInIds.Length
    requires i < lastLineInteractionOutIds.Length
    requires outputNus != outputEnergies && outputNus != lastInteractionInNus
    requires outputEnergies != lastInteractionInNus
    requires lastInteractionTypes != lastLineInteractionInIds
    requires lastInteractionTypes != lastLineInteractionOutIds
    requires lastLineInteractionInIds != lastLineInteractionOutIds
    modifies outputNus, outputEnergies, lastInteractionTypes, lastInteractionInNus
    modifies lastLineInteractionInIds, lastLineInteractionOutIds
    ensures ColumnsOf(outputNus, outputEnergies, lastInteractionTypes, lastInteractionInNus,
                      lastLineInteractionInIds, lastLineInteractionOutIds)
         == Record(old(ColumnsOf(outputNus, outputEnergies, lastInteractionTypes, lastInteractionInNus,
                                 lastLineInteractionInIds, lastLineInteractionOutIds)), i, o)
  {
    outputNus[i] := o.nu;
    lastInteractionInNus[i] := o.lastInteractionInNu;
    lastLineInteractionInIds[i] := o.lastLineInteractionInId;
    lastLineInteractionOutIds[i] := o.lastLineInteractionOutId;
    if o.status == Reabsorbed {
      outputEnergies[i] := -o.energy;
      lastInteractionTypes[i] := o.lastInteractionType;
    } else if o.status == Emitted {
      outputEnergies[i] := o.energy;
      lastInteractionTypes[i] := o.lastInteractionType;
    }
  }

  /** Six per-packet output columns of n slots and a histogram, no two of
      them the same array. */
  predicate OutputArrays(n: nat, outputNus: array<real>, outputEnergies: array<real>,
                         lastInteractionTypes: array<int>, lastInteractionInNus: array<real>,
                         lastLineInteractionInIds: array<int>, lastLineInteractionOutIds: array<int>,
                         hist: array<real>)
  {
    && outputNus.Length == n && outputEnergies.Length == n && lastInteractionTypes.Length == n
    && lastInteractionInNus.Length == n && lastLineInteractionInIds.Length == n
    && lastLineInteractionOutIds.Length == n
    && outputNus != outputEnergies && outputNus != lastInteractionInNus && outputNus != hist
    && outputEnergies != lastInteractionInNus && outputEnergies != hist
    && lastInteractionInNus != hist
    && lastInteractionTypes != lastLineInteractionInIds
    && lastInteractionTypes != lastLineInteractionOutIds
    && lastLineInteractionInIds != lastLineInteractionOutIds
  }

  /** The output columns of the loop as they start: the line ids and the
      interaction types at -1, the histogram at zero; the frequency, energy
      and interaction-frequency columns are left as allocated, since the
      loop overwrites them. */
  method AllocateOutputs(n: nat, bins: nat)
    returns (outputNus: array<real>, outputEnergies: array<real>,
             lastInteractionTypes: array<int>, lastInteractionInNus: array<real>,
             lastLineInteractionInIds: array<int>, lastLineInteractionOutIds: array<int>,
             hist: array<real>)
    ensures fresh(outputNus) && fresh(outputEnergies) && fresh(lastInteractionTypes)
    ensures fresh(lastInteractionInNus) && fresh(lastLineInteractionInIds)
    ensures fresh(lastLineInteractionOutIds) && fresh(hist)
    ensures OutputArrays(n, outputNus, outputEnergies, lastInteractionTypes, lastInteractionInNus,
                         lastLineInteractionInIds, lastLineInteractionOutIds, hist)
    ensures forall k :: 0 <= k < n ==> lastInteractionTypes[k] == -1
    ensures forall k :: 0 <= k < n ==> lastLineInteractionInIds[k] == -1
    ensures forall k :: 0 <= k < n ==> lastLineInteractionOutIds[k] == -1
    ensures hist[..] == Zeros(bins)
  {
    outputNus := new real[n];
    outputEnergies := new real[n];
    lastInteractionTypes := new int[n](_ => -1);
    lastInteractionInNus := new real[n];
    lastLineInteractionInIds := new int[n](_ => -1);
    lastLineInteractionOutIds := new int[n](_ => -1);
    hist := new real[bins](_ => 0.0);
    assert hist[..] == Zeros(bins);
  }

  /** The body of the packet loop for packet i: seed, create and propagate
      the packet, record its outcome in slot i and deposit its virtual
      packets. */
  method PropagatePacket(inj: Injection, n: nat, i: nat, f: seq<real>, propagate: PacketStart -> PacketOutcome,
                         outputNus: array<real>, outputEnergies: array<real>,
                         lastInteractionTypes: array<int>, lastInteractionInNus: array<real>,
                         lastLineInteractionInIds: array<int>, lastLineInteractionOutIds: array<int>,
                         hist: array<real>)
    returns (o: PacketOutcome)
    requires i < n && inj.Covers(n) && BinsCoverGrid(f) && hist.Length == |f|
    requires OutputArrays(n, outputNus, outputEnergies, lastInteractionTypes, lastInteractionInNus,
                          lastLineInteractionInIds, lastLineInteractionOutIds, hist)
    modifies outputNus, outputEnergies, lastInteractionTypes, lastInteractionInNus
    modifies lastLineInteractionInIds, lastLineInteractionOutIds, hist
    ensures o == propagate(StartOf(inj, i))
    ensures ColumnsOf(outputNus, outputEnergies, lastInteractionTypes, lastInteractionInNus,
                      lastLineInteractionInIds, lastLineInteractionOutIds)
         == Record(old(ColumnsOf(outputNus, outputEnergies, lastInteractionTypes, lastInteractionInNus,
                                 lastLineInteractionInIds, lastLineInteractionOutIds)), i, o)
    ensures hist[..] == AddBuffer(old(hist[..]), f, o.vpackets, o.vpackets.idx)
  {
    var seed;
    if inj.singlePacketSeed != -1 {
      seed := inj.seeds[PyIndex(inj.singlePacketSeed, |inj.seeds|)];
    } else {
      seed := inj.seeds[i];
    }
    o := propagate(PacketStart(inj.rInner0, inj.mus[i], inj.nus[i], inj.energies[i], seed, i));
    RecordPacket(o, i, outputNus, outputEnergies, lastInteractionTypes, lastInteractionInNus,
                 lastLineInteractionInIds, lastLineInteractionOutIds);
    DepositVPackets(hist, f, o.vpackets);
  }

  /** The loop's state after packets 0 .. i-1: their virtual packets are
      in the histogram and their outcomes in their slots. */
  ghost predicate Progress(f: seq<real>, outs: seq<PacketOutcome>, i: nat,
                           outputNus: array<real>, outputEnergies: array<real>,
                           lastInteractionTypes: array<int>, lastInteractionInNus: array<real>,
                           lastLineInteractionInIds: array<int>, lastLineInteractionOutIds: array<int>,
                           hist: array<real>)
    reads outputNus, outputEnergies, lastInteractionTypes, lastInteractionInNus
    reads lastLineInteractionInIds, lastLineInteractionOutIds, hist
  {
    && BinsCoverGrid(f) && hist.Length == |f| && i <= |outs|
    && hist[..] == Histogram(f, outs[..i])
    && Reports(ColumnsOf(outputNus, outputEnergies, lastInteractionTypes, lastInteractionInNus,
                         lastLineInteractionInIds, lastLineInteractionOutIds), outs, i)
  }

  /** One turn of the packet loop: packet i is propagated and the loop's
      state moves from i to i + 1. */
  method PropagateStep(inj: Injection, n: nat, i: nat, f: seq<real>,
                       propagate: PacketStart -> PacketOutcome, ghost outs: seq<PacketOutcome>,
                       outputNus: array<real>, outputEnergies: array<real>,
                       lastInteractionTypes: array<int>, lastInteractionInNus: array<real>,
                       lastLineInteractionInIds: array<int>, lastLineInteractionOutIds: array<int>,
                       hist: array<real>)
    returns (o: PacketOutcome)
    requires i < n && inj.Covers(n) && outs == Outcomes(propagate, inj, n)
    requires OutputArrays(n, outputNus, outputEnergies, lastInteractionTypes, lastInteractionInNus,
                          lastLineInteractionInIds, lastLineInteractionOutIds, hist)
    requires Progress(f, outs, i, outputNus, outputEnergies, lastInteractionTypes, lastInteractionInNus,
                      lastLineInteractionInIds, lastLineInteractionOutIds, hist)
    modifies outputNus, outputEnergies, lastInteractionTypes, lastInteractionInNus
    modifies lastLineInteractionInIds, lastLineInteractionOutIds, hist
    ensures o == outs[i]
    ensures Progress(f, outs, i + 1, outputNus, outputEnergies, lastInteractionTypes, lastInteractionInNus,
                     lastLineInteractionInIds, lastLineInteractionOutIds, hist)
  {
    RecordExtendsReports(ColumnsOf(outputNus, outputEnergies, lastInteractionTypes, lastInteractionInNus,
                                   lastLineInteractionInIds, lastLineInteractionOutIds), outs, i);
    HistogramStep(f, outs, i);
    o := PropagatePacket(inj, n, i, f, propagate, outputNus, outputEnergies, lastInteractionTypes,
                         lastInteractionInNus, lastLineInteractionInIds, lastLineInteractionOutIds, hist);
  }

  /** The packet loop: packets 0 .. n-1 in order, their buffers kept in
      packet order for logging. */
  method PropagatePackets(inj: Injection, n: nat, f: seq<real>, propagate: PacketStart -> PacketOutcome,
                          outputNus: array<real>, outputEnergies: array<real>,
                          lastInteractionTypes: array<int>, lastInteractionInNus: array<real>,
                          lastLineInteractionInIds: array<int>, lastLineInteractionOutIds: array<int>,
                          hist: array<real>)
    returns (collections: seq<FilledBuffer>)
    requires inj.Covers(n) && BinsCoverGrid(f) && hist.Length == |f|
    requires OutputArrays(n, outputNus, outputEnergies, lastInteractionTypes, lastInteractionInNus,
                          lastLineInteractionInIds, lastLineInteractionOutIds, hist)
    requires hist[..] == Zeros(|f|)
    requires forall k :: 0 <= k < n ==> lastInteractionTypes[k] == -1
    modifies outputNus, outputEnergies, lastInteractionTypes, lastInteractionInNus
    modifies lastLineInteractionInIds, lastLineInteractionOutIds, hist
    ensures hist[..] == Histogram(f, Outcomes(propagate, inj, n))
    ensures Reports(ColumnsOf(outputNus, outputEnergies, lastInteractionTypes, lastInteractionInNus,
                              lastLineInteractionInIds, lastLineInteractionOutIds),
                    Outcomes(propagate, inj, n), n)
    ensures |collections| == n
    ensures forall k :: 0 <= k < n ==> collections[k] == Outcomes(propagate, inj, n)[k].vpackets
  {
    ghost var outs := Outcomes(propagate, inj, n);
    EmptyReports(ColumnsOf(outputNus, outputEnergies, lastInteractionTypes, lastInteractionInNus,
                           lastLineInteractionInIds, lastLineInteractionOutIds), outs);
    collections := [];
    var i := 0;
    while i < n
      invariant 0 <= i <= n
      invariant |collections| == i
      invariant forall k :: 0 <= k < i ==> collections[k] == outs[k].vpackets
      invariant Progress(f, outs, i, outputNus, outputEnergies, lastInteractionTypes, lastInteractionInNus,
                         lastLineInteractionInIds, lastLineInteractionOutIds, hist)
    {
      var o := PropagateStep(inj, n, i, f, propagate, outs, outputNus, outputEnergies, lastInteractionTypes,
                             lastInteractionInNus, lastLineInteractionInIds, lastLineInteractionOutIds, hist);
      collections := collections + [o.vpackets];
      i := i + 1;
    }
    assert outs[..n] == outs;
  }

  /** The virtual-packet log: the filled part of every buffer, in order. */
  method LogVPackets(collections: seq<FilledBuffer>) returns (log: seq<VPacketBuffer>)
    ensures |log| == |collections|
    ensures forall k :: 0 <= k < |log| ==> log[k] == collections[k].Filled()
  {
    log := [];
    var k := 0;
    while k < |collections|
      invariant 0 <= k <= |collections|
      invariant |log| == k
      invariant forall j :: 0 <= j < k ==> log[j] == collections[j].Filled()
    {
      log := log + [collections[k].Filled()];
      k := k + 1;
    }
  }

  /** The collection's output frequencies and energies overwritten with the
      loop's columns. */
  method WriteBack(pc: PacketCollection, outputNus: array<real>, outputEnergies: array<real>)
    requires pc.Valid() && outputNus.Length == pc.outputNu.Length
    requires outputEnergies.Length == pc.outputNu.Length
    requires outputNus != pc.outputEnergy
    modifies pc.outputNu, pc.outputEnergy
    ensures pc.outputEnergy[..] == old(outputEnergies[..])
    ensures pc.outputNu[..] == old(outputNus[..])
  {
    forall k | 0 <= k < pc.outputEnergy.Length {
      pc.outputEnergy[k] := outputEnergies[k];
    }
    forall k | 0 <= k < pc.outputNu.Length {
      pc.outputNu[k] := outputNus[k];
    }
  }

  /** The main loop. Each packet is created from its inputs and seed and
      propagated; its frequency, signed energy and interaction diagnostics
      go to the output columns; its virtual packets go into the histogram;
      with logging on, each packet's filled virtual-packet columns are
      logged in packet order. The frequencies and energies are written back
      to the collection at the end. */
  method MainLoop(pc: PacketCollection, rInner0: real, seeds: seq<int>, singlePacketSeed: int,
                  f: seq<real>, propagate: PacketStart -> PacketOutcome, vpacketLogging: bool)
    returns (hist: seq<real>, lastInteractionTypes: seq<int>,
             lastInteractionInNus: seq<real>, lastLineInteractionInIds: seq<int>,
             lastLineInteractionOutIds: seq<int>, virtualPacketLog: seq<VPacketBuffer>)
    requires pc.Valid()
    requires SeedsCover(seeds, singlePacketSeed, pc.outputNu.Length)
    requires BinsCoverGrid(f)
    modifies pc.outputNu, pc.outputEnergy
    ensures var inj := Injection(rInner0, old(pc.inputMu[..]), old(pc.inputNu[..]),
                                 old(pc.inputEnergy[..]), seeds, singlePacketSeed);
            var n := pc.outputNu.Length;
      && inj.Covers(n)
      && hist == Histogram(f, Outcomes(propagate, inj, n))
      && Reports(PacketColumns(pc.outputNu[..], pc.outputEnergy[..], lastInteractionTypes,
                               lastInteractionInNus, lastLineInteractionInIds,
                               lastLineInteractionOutIds),
                 Outcomes(propagate, inj, n), n)
      && virtualPacketLog == (if vpacketLogging then VPacketLog(Outcomes(propagate, inj, n)) else [])
  {
    var n := pc.outputNu.Length;
    var inj := Injection(rInner0, pc.inputMu[..], pc.inputNu[..], pc.inputEnergy[..],
                         seeds, singlePacketSeed);
    var outputNus, outputEnergies, types, inNus, inIds, outIds, histogram;
    outputNus, outputEnergies, types, inNus, inIds, outIds, histogram := AllocateOutputs(n, |f|);
    var collections := PropagatePackets(inj, n, f, propagate, outputNus, outputEnergies,
                                        types, inNus, inIds, outIds, histogram);
    hist, lastInteractionTypes, lastInteractionInNus := histogram[..], types[..], inNus[..];
    lastLineInteractionInIds, lastLineInteractionOutIds := inIds[..], outIds[..];
    ghost var cols := ColumnsOf(outputNus, outputEnergies, types, inNus, inIds, outIds);
    virtualPacketLog := [];
    if vpacketLogging {
      virtualPacketLog := LogVPackets(collections);
      assert virtualPacketLog == VPacketLog(Outcomes(propagate, inj, n));
    }
    WriteBack(pc, outputNus, outputEnergies);
    assert PacketColumns(pc.outputNu[..], pc.outputEnergy[..], lastInteractionTypes,
                         lastInteractionInNus, lastLineInteractionInIds,
                         lastLineInteractionOutIds) == cols;
  }
}
