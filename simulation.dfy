/** The simulation driver (tardis/simulation/base.py): a Simulation object
    that checks its convergence strategy when built, runs the Monte Carlo
    transport a fixed number of times, and after each run damps the model's
    radiation temperatures, dilution factors and inner boundary temperature
    towards the run's estimates. The transport run itself is outside this
    model: what one run reports back (the estimated t_rad and w, the emitted
    luminosity and the packets' output energies) is a parameter, as is the
    power function used to correct t_inner. */
module SimulationDriver {
  import opened Common

  /** The convergence strategy: its type and one damping constant per
      converged quantity. */
  datatype ConvergenceStrategy = ConvergenceStrategy(
    kind: string, tRadDamping: real, wDamping: real, tInnerDamping: real)

  /** The two strategy types the constructor accepts. */
  predicate KnownStrategy(kind: string)
  {
    kind == "damped" || kind == "specific"
  }

  /** The part of the model the driver updates: t_rad and w per shell and
      the inner boundary temperature. */
  datatype ModelState = ModelState(tRad: seq<real>, w: seq<real>, tInner: real)

  /** What one transport run reports: estimated t_rad and w per shell, the
      luminosity emitted in the requested band and each packet's output
      energy (negative for a packet that was reabsorbed). */
  datatype RunReport = RunReport(
    tRad: seq<real>, w: seq<real>, emittedLuminosity: real, outputEnergy: seq<real>)

  /** A report's per-shell estimates have the model's shape. */
  predicate Fits(report: RunReport, st: ModelState)
  {
    |report.tRad| == |st.tRad| && |report.w| == |st.w|
  }

  /** The default exponent of the t_inner correction. */
  const TInnerUpdateExponent: real := -0.5

  // damped_converge

  /** Moves a value the fraction `damping` of the way to its estimate. */
  function DampedConverge(value: real, estimated: real, damping: real): real
  {
    value + damping * (estimated - value)
  }

  /** Damping 0 keeps the value, damping 1 takes the estimate, and an
      estimate equal to the value leaves it in place. */
  lemma DampedConvergeEnds(value: real, estimated: real, damping: real)
    ensures DampedConverge(value, estimated, 0.0) == value
    ensures DampedConverge(value, estimated, 1.0) == estimated
    ensures DampedConverge(value, value, damping) == value
  {
  }

  /** With a damping in [0, 1] the new value lies between the old value and
      the estimate, and its distance to the estimate is the old distance
      times 1 - damping. */
  lemma DampedConvergeBetween(value: real, estimated: real, damping: real)
    requires 0.0 <= damping <= 1.0
    ensures DampedConverge(value, estimated, damping) - estimated == (1.0 - damping) * (value - estimated)
    ensures value <= estimated ==> value <= DampedConverge(value, estimated, damping) <= estimated
    ensures estimated <= value ==> estimated <= DampedConverge(value, estimated, damping) <= value
  {
    MulSign(estimated - value, 1.0);
    if damping > 0.0 {
      MulSign(estimated - value, damping);
      MulSign(value - estimated, damping);
    }
    if damping < 1.0 {
      MulSign(value - estimated, 1.0 - damping);
      MulSign(estimated - value, 1.0 - damping);
    }
  }

  /** The value after n dampings towards the same estimate. */
  function DampRepeatedly(value: real, estimated: real, damping: real, n: nat): real
  {
    if n == 0 then value else DampedConverge(DampRepeatedly(value, estimated, damping, n - 1), estimated, damping)
  }

  function Power(x: real, n: nat): real
  {
    if n == 0 then 1.0 else x * Power(x, n - 1)
  }

  /** Damping n times towards a fixed estimate shrinks the distance to it by
      the factor (1 - damping)^n. */
  lemma {:induction false} DampRepeatedlyDistance(value: real, estimated: real, damping: real, n: nat)
    ensures DampRepeatedly(value, estimated, damping, n) - estimated
            == Power(1.0 - damping, n) * (value - estimated)
  {
    if n > 0 {
      DampRepeatedlyDistance(value, estimated, damping, n - 1);
      var prev := DampRepeatedly(value, estimated, damping, n - 1);
      assert DampedConverge(prev, estimated, damping) - estimated == (1.0 - damping) * (prev - estimated);
    }
  }

  /** Damping every shell's value towards its own estimate. */
  function DampAll(values: seq<real>, estimated: seq<real>, damping: real): (r: seq<real>)
    requires |estimated| == |values|
    ensures |r| == |values|
  {
    seq(|values|, k requires 0 <= k < |values| => DampedConverge(values[k], estimated[k], damping))
  }

  // estimate_t_inner

  /** The corrected inner temperature t_inner * (L_emitted / L_requested)^exponent,
      with the power function given. */
  function EstimateTInner(tInner: real, emitted: real, requested: real, exponent: real,
                          pow: (real, real) -> real): real
    requires requested != 0.0
  {
    tInner * pow(emitted / requested, exponent)
  }

  /** When the run emits exactly the requested luminosity the estimate is
      the current t_inner; when it emits more (a ratio above 1, which a
      negative exponent maps below 1) the estimate is lower. */
  lemma EstimateTInnerResponse(tInner: real, emitted: real, requested: real, exponent: real,
                               pow: (real, real) -> real)
    requires requested > 0.0 && pow(1.0, exponent) == 1.0
    ensures emitted == requested ==> EstimateTInner(tInner, emitted, requested, exponent, pow) == tInner
    ensures tInner > 0.0 && emitted > requested && pow(emitted / requested, exponent) < 1.0 ==>
              EstimateTInner(tInner, emitted, requested, exponent, pow) < tInner
  {
    if emitted == requested {
      assert emitted / requested == 1.0;
    }
    if tInner > 0.0 && emitted > requested && pow(emitted / requested, exponent) < 1.0 {
      MulSign(1.0 - pow(emitted / requested, exponent), tInner);
      assert (1.0 - pow(emitted / requested, exponent)) * tInner
             == tInner - EstimateTInner(tInner, emitted, requested, exponent, pow);
    }
  }

  // advance_state

  /** The model after one advance_state: t_rad, w and t_inner each damped
      towards the run's estimate with its own damping constant. */
  function Advance(st: ModelState, strategy: ConvergenceStrategy, requested: real,
                   report: RunReport, pow: (real, real) -> real): (next: ModelState)
    requires requested != 0.0 && Fits(report, st)
    ensures |next.tRad| == |st.tRad| && |next.w| == |st.w|
  {
    var tInnerEstimate := EstimateTInner(st.tInner, report.emittedLuminosity, requested, TInnerUpdateExponent, pow);
    ModelState(
      DampAll(st.tRad, report.tRad, strategy.tRadDamping),
      DampAll(st.w, report.w, strategy.wDamping),
      DampedConverge(st.tInner, tInnerEstimate, strategy.tInnerDamping))
  }

  /** A run whose estimates are the current model and whose emitted
      luminosity is the requested one leaves the model unchanged: the
      converged state is a fixed point of advance_state. */
  lemma AdvanceFixedPoint(st: ModelState, strategy: ConvergenceStrategy, requested: real,
                          report: RunReport, pow: (real, real) -> real)
    requires requested > 0.0 && pow(1.0, TInnerUpdateExponent) == 1.0
    requires report.tRad == st.tRad && report.w == st.w && report.emittedLuminosity == requested
    ensures Advance(st, strategy, requested, report, pow) == st
  {
    EstimateTInnerResponse(st.tInner, requested, requested, TInnerUpdateExponent, pow);
    var next := Advance(st, strategy, requested, report, pow);
    assert next.tRad == st.tRad;
    assert next.w == st.w;
  }

  /** With dampings in [0, 1] every shell's new t_rad and w lie between the
      old value and the run's estimate. */
  lemma AdvanceBetween(st: ModelState, strategy: ConvergenceStrategy, requested: real,
                       report: RunReport, pow: (real, real) -> real, k: nat)
    requires requested != 0.0 && Fits(report, st)
    requires 0.0 <= strategy.tRadDamping <= 1.0 && 0.0 <= strategy.wDamping <= 1.0
    requires k < |st.tRad| && k < |st.w|
    ensures var next := Advance(st, strategy, requested, report, pow);
            (st.tRad[k] <= report.tRad[k] ==> st.tRad[k] <= next.tRad[k] <= report.tRad[k]) &&
            (report.tRad[k] <= st.tRad[k] ==> report.tRad[k] <= next.tRad[k] <= st.tRad[k]) &&
            (st.w[k] <= report.w[k] ==> st.w[k] <= next.w[k] <= report.w[k]) &&
            (report.w[k] <= st.w[k] ==> report.w[k] <= next.w[k] <= st.w[k])
  {
    DampedConvergeBetween(st.tRad[k], report.tRad[k], strategy.tRadDamping);
    DampedConvergeBetween(st.w[k], report.w[k], strategy.wDamping);
  }

  /** The model after the runs numbered from up to until - 1, each advancing the
      model with its own report. */
  function AdvanceFrom(st: ModelState, strategy: ConvergenceStrategy, requested: real,
                       reports: seq<RunReport>, pow: (real, real) -> real, from: nat, until: nat): (r: ModelState)
    requires requested != 0.0 && until <= |reports|
    requires forall k :: 0 <= k < |reports| ==> Fits(reports[k], st)
    ensures |r.tRad| == |st.tRad| && |r.w| == |st.w|
    decreases until
  {
    if until <= from then st
    else
      var prev := AdvanceFrom(st, strategy, requested, reports, pow, from, until - 1);
      assert Fits(reports[until - 1], prev);
      Advance(prev, strategy, requested, reports[until - 1], pow)
  }

  // run_single

  /** np.sum(output_energy < 0): the number of reabsorbed packets. */
  function CountNegative(energies: seq<real>): (n: nat)
    ensures n <= |energies|
  {
    if |energies| == 0 then 0
    else CountNegative(energies[..|energies| - 1]) + (if energies[|energies| - 1] < 0.0 then 1 else 0)
  }

  /** The condition of the critical "no r-packet escaped" message. */
  predicate NoPacketEscaped(energies: seq<real>)
  {
    CountNegative(energies) == |energies|
  }

  /** The message is logged exactly when every packet's output energy is
      negative (so also when there are no packets). */
  lemma {:induction false} NoPacketEscapedIff(energies: seq<real>)
    ensures NoPacketEscaped(energies) <==> forall k :: 0 <= k < |energies| ==> energies[k] < 0.0
  {
    if |energies| > 0 {
      var front := energies[..|energies| - 1];
      NoPacketEscapedIff(front);
      assert forall k :: 0 <= k < |front| ==> front[k] == energies[k];
    }
  }

  /** The iterations, from up to until - 1, whose run logged the critical
      message. */
  function Warnings(reports: seq<RunReport>, from: nat, until: nat): (r: seq<nat>)
    requires until <= |reports|
    ensures forall k :: 0 <= k < |r| ==> from <= r[k] < until
  {
    if until <= from then []
    else Warnings(reports, from, until - 1) + (if NoPacketEscaped(reports[until - 1].outputEnergy) then [until - 1] else [])
  }

  /** An iteration is listed exactly when its run let no packet escape. */
  lemma {:induction false} WarningsListed(reports: seq<RunReport>, from: nat, until: nat, k: nat)
    requires until <= |reports|
    ensures k in Warnings(reports, from, until) <==> from <= k < until && NoPacketEscaped(reports[k].outputEnergy)
  {
    if until > from {
      WarningsListed(reports, from, until - 1, k);
    }
  }

  class Simulation {
    var converged: bool
    var iterations: nat
    var iterationsExecuted: nat
    var noOfPackets: nat
    var lastNoOfPackets: Option<nat>
    var luminosityRequested: real
    var strategy: ConvergenceStrategy
    var model: ModelState

    constructor (iterations: nat, noOfPackets: nat, lastNoOfPackets: Option<nat>,
                 luminosityRequested: real, strategy: ConvergenceStrategy, model: ModelState)
      ensures !this.converged && this.iterationsExecuted == 0
      ensures this.iterations == iterations && this.noOfPackets == noOfPackets
      ensures this.lastNoOfPackets == lastNoOfPackets && this.luminosityRequested == luminosityRequested
      ensures this.strategy == strategy && this.model == model
    {
      this.converged := false;
      this.iterations := iterations;
      this.iterationsExecuted := 0;
      this.noOfPackets := noOfPackets;
      this.lastNoOfPackets := lastNoOfPackets;
      this.luminosityRequested := luminosityRequested;
      this.strategy := strategy;
      this.model := model;
    }

    /** The number of packets of a run: last_no_of_packets on the last run
        when it is given, no_of_packets otherwise. */
    function PacketsFor(lastRun: bool): (n: nat)
      reads this
      ensures n == noOfPackets || (lastRun && lastNoOfPackets == Some(n))
      ensures lastRun && lastNoOfPackets.Some? ==> n == lastNoOfPackets.value
      ensures !lastRun ==> n == noOfPackets
    {
      if lastRun && lastNoOfPackets.Some? then lastNoOfPackets.value else noOfPackets
    }

    /** run_single around a transport run that reported `report`: the number
        of packets it was asked for and whether the critical message is
        logged. */
    method RunSingle(report: RunReport, lastRun: bool) returns (packets: nat, critical: bool)
      ensures packets == PacketsFor(lastRun)
      ensures critical <==> forall k :: 0 <= k < |report.outputEnergy| ==> report.outputEnergy[k] < 0.0
    {
      packets := noOfPackets;
      if lastRun {
        if lastNoOfPackets.Some? {
          packets := lastNoOfPackets.value;
        }
      }
      critical := CountNegative(report.outputEnergy) == |report.outputEnergy|;
      NoPacketEscapedIff(report.outputEnergy);
    }

    /** advance_state: damps the model towards the run's estimates in
        place. */
    method AdvanceState(report: RunReport, pow: (real, real) -> real)
      requires luminosityRequested != 0.0 && Fits(report, model)
      modifies this`model
      ensures model == Advance(old(model), strategy, luminosityRequested, report, pow)
    {
      var estimatedTInner := EstimateTInner(model.tInner, report.emittedLuminosity, luminosityRequested,
                                            TInnerUpdateExponent, pow);
      model := model.(tRad := DampAll(model.tRad, report.tRad, strategy.tRadDamping));
      model := model.(w := DampAll(model.w, report.w, strategy.wDamping));
      model := model.(tInner := DampedConverge(model.tInner, estimatedTInner, strategy.tInnerDamping));
    }

    /** run: while fewer than `iterations` runs are done, one run, one more
        executed iteration and one advance of the model. reports[k] is what
        the k-th run reports; warnings lists the runs that logged the
        critical message. */
    method Run(reports: seq<RunReport>, pow: (real, real) -> real) returns (warnings: seq<nat>)
      requires luminosityRequested != 0.0 && iterations <= |reports| && iterationsExecuted <= |reports|
      requires forall k :: 0 <= k < |reports| ==> Fits(reports[k], model)
      modifies this`model, this`iterationsExecuted
      ensures iterationsExecuted == if old(iterationsExecuted) < iterations then iterations else old(iterationsExecuted)
      ensures model == AdvanceFrom(old(model), strategy, luminosityRequested, reports, pow,
                                   old(iterationsExecuted), iterationsExecuted)
      ensures warnings == Warnings(reports, old(iterationsExecuted), iterationsExecuted)
    {
      ghost var start := iterationsExecuted;
      ghost var initial := model;
      warnings := [];
      while iterationsExecuted < iterations
        invariant start <= iterationsExecuted <= |reports|
        invariant start < iterations ==> iterationsExecuted <= iterations
        invariant start >= iterations ==> iterationsExecuted == start
        invariant model == AdvanceFrom(initial, strategy, luminosityRequested, reports, pow, start, iterationsExecuted)
        invariant warnings == Warnings(reports, start, iterationsExecuted)
        decreases iterations - iterationsExecuted
      {
        var report := reports[iterationsExecuted];
        var packets, critical := RunSingle(report, false);
        NoPacketEscapedIff(report.outputEnergy);
        if critical {
          warnings := warnings + [iterationsExecuted];
        }
        iterationsExecuted := iterationsExecuted + 1;
        assert Fits(report, model);
        AdvanceState(report, pow);
      }
    }
  }

  /** __init__: the simulation is built only for a damped or specific
      convergence strategy; any other type raises ValueError (None). */
  method Create(iterations: nat, noOfPackets: nat, lastNoOfPackets: Option<nat>,
                luminosityRequested: real, strategy: ConvergenceStrategy, model: ModelState)
    returns (r: Option<Simulation>)
    ensures r.Some? <==> KnownStrategy(strategy.kind)
    ensures r.Some? ==>
              fresh(r.value) && r.value.iterationsExecuted == 0 && !r.value.converged &&
              r.value.iterations == iterations && r.value.strategy == strategy && r.value.model == model &&
              r.value.noOfPackets == noOfPackets && r.value.lastNoOfPackets == lastNoOfPackets &&
              r.value.luminosityRequested == luminosityRequested
  {
    var s := new Simulation(iterations, noOfPackets, lastNoOfPackets, luminosityRequested, strategy, model);
    if KnownStrategy(strategy.kind) {
      r := Some(s);
    } else {
      r := None;
    }
  }
}
