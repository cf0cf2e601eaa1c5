/** The per-packet interaction tracker of the transport layer
    (tardis/transport/montecarlo/numba_interface.py): a record of packet
    states in seven parallel columns that doubles its capacity when full,
    plus the small model record and the line-interaction enumeration of the
    same file. */
module RPacketTracking {
  import opened Common

  /** The fields of a real packet that the tracker reads. */
  datatype RPacket = RPacket(
    index: int, seed: int, status: int, r: real, nu: real, mu: real,
    energy: real, currentShellId: int, lastInteractionType: int)

  /** One tracked interaction: one row across the seven columns. */
  datatype Interaction = Interaction(
    status: int, r: real, nu: real, mu: real, energy: real,
    shellId: int, interactionType: int)

  function Snapshot(p: RPacket): Interaction
  {
    Interaction(p.status, p.r, p.nu, p.mu, p.energy, p.currentShellId, p.lastInteractionType)
  }

  /** The capacity the tracker has once `track` has made room for the next
      record: doubled exactly when the columns are full. There is room for the
      record exactly when the capacity was at least 1 to begin with. */
  function CapacityAfterTrack(length: nat, numInteractions: nat): (capacity: nat)
    ensures capacity >= length
    ensures numInteractions < length ==> capacity == length
    ensures numInteractions <= length ==> (numInteractions < capacity <==> length >= 1)
  {
    if numInteractions >= length then 2 * length else length
  }

  /** A fresh column of `newLength` slots whose first `keep` slots copy
      those of `a`; the remaining slots hold the type's default value. */
  method ResizeColumn<T(0)>(a: array<T>, newLength: nat, keep: nat) returns (b: array<T>)
    requires keep <= newLength && keep <= a.Length
    ensures fresh(b) && b.Length == newLength
    ensures b[..keep] == a[..keep]
  {
    b := new T[newLength];
    var i := 0;
    while i < keep
      invariant 0 <= i <= keep
      invariant forall k :: 0 <= k < i ==> b[k] == a[k]
    {
      b[i] := a[i];
      i := i + 1;
    }
  }

  /** The rows spelled by seven parallel columns of equal length. */
  function Rows(st: seq<int>, rs: seq<real>, ns: seq<real>, ms: seq<real>,
                es: seq<real>, ss: seq<int>, ts: seq<int>): (rows: seq<Interaction>)
    requires |rs| == |st| && |ns| == |st| && |ms| == |st| && |es| == |st| && |ss| == |st| && |ts| == |st|
    ensures |rows| == |st|
  {
    seq(|st|, k requires 0 <= k < |st| => Interaction(st[k], rs[k], ns[k], ms[k], es[k], ss[k], ts[k]))
  }

  lemma RowsAppend(st: seq<int>, rs: seq<real>, ns: seq<real>, ms: seq<real>,
                   es: seq<real>, ss: seq<int>, ts: seq<int>, x: Interaction)
    requires |rs| == |st| && |ns| == |st| && |ms| == |st| && |es| == |st| && |ss| == |st| && |ts| == |st|
    ensures Rows(st + [x.status], rs + [x.r], ns + [x.nu], ms + [x.mu], es + [x.energy],
                 ss + [x.shellId], ts + [x.interactionType])
         == Rows(st, rs, ns, ms, es, ss, ts) + [x]
  {
  }

  class RPacketTracker {
    var length: nat
    var seed: int
    var index: int
    var status: array<int>
    var r: array<real>
    var nu: array<real>
    var mu: array<real>
    var energy: array<real>
    var shellId: array<int>
    var interactionType: array<int>
    var numInteractions: nat

    /** The seven columns are seven different arrays. */
    ghost predicate Separate()
      reads this
    {
      && status != shellId && status != interactionType && shellId != interactionType
      && r != nu && r != mu && r != energy && nu != mu && nu != energy && mu != energy
    }

    /** Every column has at least numInteractions slots. */
    ghost predicate Holds()
      reads this
    {
      && numInteractions <= status.Length && numInteractions <= r.Length
      && numInteractions <= nu.Length && numInteractions <= mu.Length
      && numInteractions <= energy.Length && numInteractions <= shellId.Length
      && numInteractions <= interactionType.Length
    }

    /** While tracking: every column has `length` slots and the count stays
        within the capacity. */
    ghost predicate Valid()
      reads this
    {
      && Separate()
      && status.Length == length && r.Length == length && nu.Length == length
      && mu.Length == length && energy.Length == length && shellId.Length == length
      && interactionType.Length == length
      && numInteractions <= length
    }

    /** After finalize_array: every column has exactly numInteractions slots. */
    ghost predicate Finalized()
      reads this
    {
      && Separate()
      && status.Length == numInteractions && r.Length == numInteractions
      && nu.Length == numInteractions && mu.Length == numInteractions
      && energy.Length == numInteractions && shellId.Length == numInteractions
      && interactionType.Length == numInteractions
    }

    /** The tracked interactions, oldest first. */
    ghost function Records(): seq<Interaction>
      reads this, status, r, nu, mu, energy, shellId, interactionType
      requires Holds()
    {
      var n := numInteractions;
      Rows(status[..n], r[..n], nu[..n], mu[..n], energy[..n], shellId[..n], interactionType[..n])
    }

    constructor (length: nat)
      ensures Valid() && Holds()
      ensures this.length == length && numInteractions == 0
      ensures seed == 0 && index == 0
      ensures Records() == []
      ensures fresh(status) && fresh(r) && fresh(nu) && fresh(mu)
      ensures fresh(energy) && fresh(shellId) && fresh(interactionType)
    {
      this.length := length;
      seed := 0;
      index := 0;
      status := new int[length];
      r := new real[length];
      nu := new real[length];
      mu := new real[length];
      energy := new real[length];
      shellId := new int[length];
      interactionType := new int[length];
      numInteractions := 0;
    }

    /** Record one packet state, doubling every column first when full. A
        tracker created with length 0 stays at capacity 0 and has no slot for
        the record, so it cannot track. */
    method Track(p: RPacket)
      requires Valid() && length >= 1
      modifies this, status, r, nu, mu, energy, shellId, interactionType
      ensures Valid() && Holds()
      ensures length == CapacityAfterTrack(old(length), old(numInteractions))
      ensures numInteractions == old(numInteractions) + 1
      ensures Records() == old(Records()) + [Snapshot(p)]
      ensures index == p.index && seed == p.seed
    {
      if numInteractions >= length {
        Grow();
      }
      index := p.index;
      seed := p.seed;
      Append(p);
    }

    /** The three integer columns replaced by fresh ones of `newLength`
        slots that keep their first `keep` entries. */
    method ResizeIntColumns(newLength: nat, keep: nat)
      requires keep <= newLength
      requires keep <= status.Length && keep <= shellId.Length && keep <= interactionType.Length
      modifies this`status, this`shellId, this`interactionType
      ensures fresh(status) && fresh(shellId) && fresh(interactionType)
      ensures status != shellId && status != interactionType && shellId != interactionType
      ensures status.Length == newLength && shellId.Length == newLength
      ensures interactionType.Length == newLength
      ensures status[..keep] == old(status[..keep]) && shellId[..keep] == old(shellId[..keep])
      ensures interactionType[..keep] == old(interactionType[..keep])
    {
      status := ResizeColumn(status, newLength, keep);
      shellId := ResizeColumn(shellId, newLength, keep);
      interactionType := ResizeColumn(interactionType, newLength, keep);
    }

    /** The four real columns replaced by fresh ones of `newLength` slots
        that keep their first `keep` entries. */
    method ResizeRealColumns(newLength: nat, keep: nat)
      requires keep <= newLength
      requires keep <= r.Length && keep <= nu.Length && keep <= mu.Length && keep <= energy.Length
      modifies this`r, this`nu, this`mu, this`energy
      ensures fresh(r) && fresh(nu) && fresh(mu) && fresh(energy)
      ensures r != nu && r != mu && r != energy && nu != mu && nu != energy && mu != energy
      ensures r.Length == newLength && nu.Length == newLength
      ensures mu.Length == newLength && energy.Length == newLength
      ensures r[..keep] == old(r[..keep]) && nu[..keep] == old(nu[..keep])
      ensures mu[..keep] == old(mu[..keep]) && energy[..keep] == old(energy[..keep])
    {
      r := ResizeColumn(r, newLength, keep);
      nu := ResizeColumn(nu, newLength, keep);
      mu := ResizeColumn(mu, newLength, keep);
      energy := ResizeColumn(energy, newLength, keep);
    }

    /** The growth step of track: every column is replaced by one of twice
        the length whose first half copies it. */
    method Grow()
      requires Valid()
      modifies this
      ensures Valid() && Holds()
      ensures length == 2 * old(length)
      ensures numInteractions == old(numInteractions)
      ensures Records() == old(Records())
      ensures index == old(index) && seed == old(seed)
      ensures fresh(status) && fresh(r) && fresh(nu) && fresh(mu)
      ensures fresh(energy) && fresh(shellId) && fresh(interactionType)
    {
      var n := numInteractions;
      ghost var st, rs, ns, ms := status[..n], r[..n], nu[..n], mu[..n];
      ghost var es, ss, ts := energy[..n], shellId[..n], interactionType[..n];
      ResizeIntColumns(2 * length, length);
      ResizeRealColumns(2 * length, length);
      assert status[..n] == st by { assert status[..n] == status[..length][..n]; }
      assert shellId[..n] == ss by { assert shellId[..n] == shellId[..length][..n]; }
      assert interactionType[..n] == ts by { assert interactionType[..n] == interactionType[..length][..n]; }
      assert r[..n] == rs by { assert r[..n] == r[..length][..n]; }
      assert nu[..n] == ns by { assert nu[..n] == nu[..length][..n]; }
      assert mu[..n] == ms by { assert mu[..n] == mu[..length][..n]; }
      assert energy[..n] == es by { assert energy[..n] == energy[..length][..n]; }
      length := 2 * length;
    }

    /** The write step of track: the packet goes into slot numInteractions of
        every column. */
    method Append(p: RPacket)
      requires Valid() && numInteractions < length
      modifies this`numInteractions, status, r, nu, mu, energy, shellId, interactionType
      ensures Valid() && Holds()
      ensures numInteractions == old(numInteractions) + 1
      ensures Records() == old(Records()) + [Snapshot(p)]
    {
      var n := numInteractions;
      ghost var st, rs, ns, ms := status[..n], r[..n], nu[..n], mu[..n];
      ghost var es, ss, ts := energy[..n], shellId[..n], interactionType[..n];
      status[n] := p.status;
      r[n] := p.r;
      nu[n] := p.nu;
      mu[n] := p.mu;
      energy[n] := p.energy;
      shellId[n] := p.currentShellId;
      interactionType[n] := p.lastInteractionType;
      numInteractions := n + 1;
      assert status[..n + 1] == st + [p.status] && r[..n + 1] == rs + [p.r];
      assert nu[..n + 1] == ns + [p.nu] && mu[..n + 1] == ms + [p.mu];
      assert energy[..n + 1] == es + [p.energy] && shellId[..n + 1] == ss + [p.currentShellId];
      assert interactionType[..n + 1] == ts + [p.lastInteractionType];
      RowsAppend(st, rs, ns, ms, es, ss, ts, Snapshot(p));
    }

    /** Cut every column down to the tracked records. */
    method FinalizeArray()
      requires Valid()
      modifies this
      ensures Finalized() && Holds()
      ensures Records() == old(Records())
      ensures numInteractions == old(numInteractions) && length == old(length)
      ensures seed == old(seed) && index == old(index)
    {
      ResizeIntColumns(numInteractions, numInteractions);
      ResizeRealColumns(numInteractions, numInteractions);
    }
  }

  /** The model record handed to the transport: the time since explosion. */
  class NumbaModel {
    var timeExplosion: real

    constructor (timeExplosion: real)
      ensures this.timeExplosion == timeExplosion
    {
      this.timeExplosion := timeExplosion;
    }
  }

  /** How a line interaction is resolved. */
  datatype LineInteractionType = Scatter | Downbranch | Macroatom
  {
    /** The integer code of the enumeration. */
    function Value(): (v: int)
      ensures 0 <= v <= 2
      ensures v == 0 <==> Scatter?
      ensures v == 1 <==> Downbranch?
    {
      match this
      case Scatter => 0
      case Downbranch => 1
      case Macroatom => 2
    }
  }

  /** The enumeration member with a given code, if there is one. */
  function LineInteractionTypeOf(v: int): (t: Option<LineInteractionType>)
    ensures t.Some? <==> 0 <= v <= 2
    ensures t.Some? ==> t.value.Value() == v
  {
    if v == 0 then Some(Scatter)
    else if v == 1 then Some(Downbranch)
    else if v == 2 then Some(Macroatom)
    else None
  }

  /** Decoding the code of a member gives that member back. */
  lemma LineInteractionTypeRoundTrip(t: LineInteractionType)
    ensures LineInteractionTypeOf(t.Value()) == Some(t)
  {
  }
}
