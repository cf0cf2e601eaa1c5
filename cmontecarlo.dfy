/** The legacy C transport helpers: the search for a frequency's place in
    the descending line list, the distances a packet travels to the next
    line, to an electron scattering event and to the inner boundary, and
    the macro-atom transition selection.

    The speed of light, its inverse and the miss distance are defined in
    headers this model does not include; they are parameters here. The
    square root is a function parameter, and the random draws of the
    macro atom are a sequence. */
module CMonteCarlo {
  import opened Common

  /** x is sorted from largest to smallest. */
  predicate Descending(x: seq<real>)
  {
    forall i, j :: 0 <= i <= j < |x| ==> x[i] >= x[j]
  }

  /** r is where xInsert goes between imin and imax: the entry at r is at
      least xInsert and, unless r is the last index, the next one is at
      most xInsert. */
  predicate IsBoundaryLeft(x: seq<real>, xInsert: real, imax: int, r: int)
    requires 0 <= imax < |x|
  {
    0 <= r <= imax && x[r] >= xInsert && (r < imax ==> x[r + 1] <= xInsert)
  }

  /** The value binary_search computes after its loop: imin + 1 when the
      window it tested is two wide and xInsert is below x[imin + 1],
      imin otherwise. The window is measured from imid, the last midpoint.
      None when that test reads x[imin + 1] past the end of the array. */
  function FinalChoice(x: seq<real>, xInsert: real, imin: int, imax: int, imid: int): Option<int>
    requires 0 <= imin < |x|
  {
    if imax - imid != 2 then Some(imin)
    else if imin + 1 >= |x| then None
    else if xInsert < x[imin + 1] then Some(imin + 1)
    else Some(imin)
  }

  /** binary_search as written: imid is only assigned inside the loop, so
      when the loop does not run the final test reads whatever imid held;
      that value is the parameter imidGarbage. Out of domain it reports
      an error and returns -1. None is a read past the end of x, which
      only a garbage imid can cause. */
  method BinarySearchAsWritten(x: seq<real>, xInsert: real, imin: int, imax: int, imidGarbage: int)
    returns (r: Option<int>)
    requires Descending(x) && 0 <= imin <= imax < |x|
    ensures xInsert > x[imin] || xInsert < x[imax] ==> r == Some(-1)
    ensures x[imax] <= xInsert <= x[imin] && imax - imin > 2 ==> r.Some? && IsBoundaryLeft(x, xInsert, imax, r.value)
    ensures x[imax] <= xInsert <= x[imin] && imax - imin <= 2
            ==> r == FinalChoice(x, xInsert, imin, imax, imidGarbage)
  {
    if xInsert > x[imin] || xInsert < x[imax] {
      return Some(-1);
    }
    var lo, hi, imid := imin, imax, imidGarbage;
    var ran := false;
    while hi - lo > 2
      invariant imin <= lo <= hi <= imax
      invariant x[lo] >= xInsert && x[hi] <= xInsert
      invariant ran ==> lo <= imid < hi && (imid == lo || (hi == imid + 1 && x[imid] < xInsert))
      invariant !ran ==> lo == imin && hi == imax && imid == imidGarbage
      invariant ran ==> imax - imin > 2
      decreases hi - lo
    {
      imid := (lo + hi) / 2;
      if x[imid] < xInsert {
        hi := imid + 1;
      } else {
        lo := imid;
      }
      ran := true;
    }
    if hi - imid == 2 {
      if lo + 1 >= |x| {
        return None;
      }
      if xInsert < x[lo + 1] {
        return Some(lo + 1);
      }
    }
    return Some(lo);
  }

  /** Concrete inputs on which the as-written search goes wrong. Three
      lines, 1.5 between the second and third: with imid holding 5 the
      search answers 0, whose next entry 2.0 is above 1.5, so line_search
      answers 1 where 2 is the insertion point. One line, searched for its
      own frequency: with imid holding -2 the final test reads x[1], past
      the end. */
  lemma BinarySearchGarbageCounterexample()
    ensures var x := [3.0, 2.0, 1.0];
      && Descending(x) && x[2] <= 1.5 <= x[0]
      && FinalChoice(x, 1.5, 0, 2, 5) == Some(0)
      && !IsBoundaryLeft(x, 1.5, 2, 0)
      && IsBoundaryLeft(x, 1.5, 2, 1)
      && !IsInsertionPoint(x, 1.5, 0 + 1)
      && IsInsertionPoint(x, 1.5, 2)
    ensures FinalChoice([5.0], 5.0, 0, 0, -2) == None
  {
    var x := [3.0, 2.0, 1.0];
    assert x[1] > 1.5;
    assert IsInsertionPoint(x, 1.5, 2);
  }

  /** binary_search with the final test on the window imax - imin, which
      is what the loop leaves behind whether or not it ran. */
  method BinarySearch(x: seq<real>, xInsert: real, imin: int, imax: int) returns (r: int)
    requires Descending(x) && 0 <= imin <= imax < |x|
    ensures xInsert > x[imin] || xInsert < x[imax] ==> r == -1
    ensures x[imax] <= xInsert <= x[imin] ==> imin <= r && IsBoundaryLeft(x, xInsert, imax, r)
  {
    if xInsert > x[imin] || xInsert < x[imax] {
      return -1;
    }
    var lo, hi := imin, imax;
    while hi - lo > 2
      invariant imin <= lo <= hi <= imax
      invariant x[lo] >= xInsert && x[hi] <= xInsert
      decreases hi - lo
    {
      var imid := (lo + hi) / 2;
      if x[imid] < xInsert {
        hi := imid + 1;
      } else {
        lo := imid;
      }
    }
    if hi - lo == 2 {
      if xInsert < x[lo + 1] {
        return lo + 1;
      }
    }
    return lo;
  }

  /** The place of nuInsert among the descending line frequencies: every
      line before it is at least nuInsert and every line from it on is at
      most nuInsert. */
  predicate IsInsertionPoint(nu: seq<real>, nuInsert: real, r: int)
  {
    && 0 <= r <= |nu|
    && (forall k :: 0 <= k < r ==> nu[k] >= nuInsert)
    && (forall k :: r <= k < |nu| ==> nu[k] <= nuInsert)
  }

  /** line_search over the corrected binary search: 0 above the first
      line, the number of lines below the last, and otherwise one past the
      boundary the binary search finds. */
  method LineSearch(nu: seq<real>, nuInsert: real, numberOfLines: int) returns (r: int)
    requires Descending(nu) && numberOfLines == |nu| && |nu| >= 1
    ensures IsInsertionPoint(nu, nuInsert, r)
    ensures nuInsert > nu[0] ==> r == 0
    ensures nuInsert <= nu[0] && nuInsert < nu[|nu| - 1] ==> r == |nu|
  {
    var imin, imax := 0, numberOfLines - 1;
    if nuInsert > nu[imin] {
      r := imin;
    } else if nuInsert < nu[imax] {
      r := imax + 1;
    } else {
      var b := BinarySearch(nu, nuInsert, imin, imax);
      r := b + 1;
    }
  }

  /** line_search as written, calling binary_search as written: with at
      most three lines the binary search's loop never runs and its answer
      depends on the uninitialised imid (imidGarbage). None is the read
      past the end of the line list that such an imid can cause. */
  method LineSearchAsWritten(nu: seq<real>, nuInsert: real, numberOfLines: int, imidGarbage: int)
    returns (r: Option<int>)
    requires Descending(nu) && numberOfLines == |nu| && |nu| >= 1
    ensures nuInsert > nu[0] ==> r == Some(0)
    ensures nuInsert <= nu[0] && nuInsert < nu[|nu| - 1] ==> r == Some(|nu|)
    ensures nu[|nu| - 1] <= nuInsert <= nu[0] && |nu| > 3 ==> r.Some? && IsInsertionPoint(nu, nuInsert, r.value)
    ensures nu[|nu| - 1] <= nuInsert <= nu[0] && |nu| <= 3 ==>
              r == match FinalChoice(nu, nuInsert, 0, |nu| - 1, imidGarbage)
                   case None => None
                   case Some(b) => Some(b + 1)
  {
    var imin, imax := 0, numberOfLines - 1;
    if nuInsert > nu[imin] {
      r := Some(imin);
    } else if nuInsert < nu[imax] {
      r := Some(imax + 1);
    } else {
      var b := BinarySearchAsWritten(nu, nuInsert, imin, imax, imidGarbage);
      r := if b.Some? then Some(b.value + 1) else None;
    }
  }

  /** The result of compute_distance2line: a distance and whether the
      runtime error was raised. */
  datatype LineDistance = LineDistance(distance: real, error: bool)

  /** The comoving frequency of a packet at radius r moving with direction
      cosine mu, in homologous flow at time 1 / inverseTExp. */
  function ComovingNu(r: real, mu: real, nu: real, inverseTExp: real, inverseC: real): real
  {
    nu * (1.0 - mu * r * inverseTExp * inverseC)
  }

  /** compute_distance2line: an error and distance 0 when the comoving
      frequency is already below the line; otherwise the distance after
      which the packet's comoving frequency has redshifted onto the line. */
  function Distance2Line(r: real, mu: real, nu: real, nuLine: real, tExp: real, inverseTExp: real,
                         c: real, inverseC: real): (res: LineDistance)
    requires nu != 0.0
    ensures res.error <==> ComovingNu(r, mu, nu, inverseTExp, inverseC) < nuLine
    ensures res.error ==> res.distance == 0.0
    ensures !res.error && nu > 0.0 && c >= 0.0 && tExp >= 0.0 ==> res.distance >= 0.0
  {
    var comovNu := ComovingNu(r, mu, nu, inverseTExp, inverseC);
    if comovNu < nuLine then
      LineDistance(0.0, true)
    else
      var d := ((comovNu - nuLine) / nu) * c * tExp;
      assert nu > 0.0 && c >= 0.0 && tExp >= 0.0 ==> d >= 0.0 by {
        if nu > 0.0 && c >= 0.0 && tExp >= 0.0 {
          assert (comovNu - nuLine) / nu >= 0.0;
          assert ((comovNu - nuLine) / nu) * c >= 0.0;
        }
      }
      LineDistance(d, false)
  }

  /** Travelling the line distance along the direction of flight (the
      product mu * r grows by the distance) brings the comoving frequency
      exactly to the line, when the inverses are the true inverses. */
  lemma Distance2LineReachesLine(r: real, mu: real, nu: real, nuLine: real, tExp: real, c: real)
    requires nu != 0.0 && tExp != 0.0 && c != 0.0
    requires !Distance2Line(r, mu, nu, nuLine, tExp, 1.0 / tExp, c, 1.0 / c).error
    ensures var d := Distance2Line(r, mu, nu, nuLine, tExp, 1.0 / tExp, c, 1.0 / c).distance;
            nu * (1.0 - (mu * r + d) * (1.0 / tExp) * (1.0 / c)) == nuLine
  {
    var it, ic := 1.0 / tExp, 1.0 / c;
    var comov := ComovingNu(r, mu, nu, it, ic);
    var d := Distance2Line(r, mu, nu, nuLine, tExp, it, c, ic).distance;
    var q := (comov - nuLine) / nu;
    assert d == q * c * tExp;
    DivMul(comov - nuLine, nu);
    assert q * nu == comov - nuLine;
    assert c * ic == 1.0 && tExp * it == 1.0;
    var back := d * it * ic;
    assert back == q * (c * ic) * (tExp * it);
    assert back == q;
    assert (mu * r + d) * it * ic == mu * r * it * ic + back;
    assert nu * (1.0 - (mu * r + d) * it * ic) == comov - nu * back;
  }

  /** compute_distance2electron: the distance at which the optical depth
      tauEvent is reached at inverse electron density inverseNe. */
  function Distance2Electron(r: real, mu: real, tauEvent: real, inverseNe: real): (d: real)
    ensures tauEvent >= 0.0 && inverseNe >= 0.0 ==> d >= 0.0
    ensures inverseNe != 0.0 ==> d / inverseNe == tauEvent
  {
    tauEvent * inverseNe
  }

  /** compute_distance2inner: the miss distance when the line of flight
      does not meet the inner sphere or points outward; otherwise the
      nearer intersection, -r mu minus the root of the discriminant. */
  function Distance2Inner(r: real, mu: real, rInner: real, missDistance: real,
                          sqrt: real -> real): (d: real)
    ensures rInner * rInner + r * r * (mu * mu - 1.0) < 0.0 || mu >= 0.0 ==> d == missDistance
  {
    var check := rInner * rInner + (r * r * (mu * mu - 1.0));
    if check < 0.0 then missDistance
    else if mu < 0.0 then -r * mu - sqrt(check) else missDistance
  }

  /** compute_distance2outer: -r mu plus the root of the discriminant. */
  function Distance2Outer(r: real, mu: real, rOuter: real, sqrt: real -> real): real
  {
    sqrt(rOuter * rOuter + ((mu * mu - 1.0) * r * r)) - (r * mu)
  }

  /** s is the non-negative square root of v. */
  predicate IsRoot(s: real, v: real)
  {
    s >= 0.0 && s * s == v
  }

  /** With a true square root, a packet inside the shell that moves inward
      and meets the inner sphere travels a non-negative distance to a
      point of radius rInner: d solves d^2 + 2 r mu d + r^2 = rInner^2. */
  lemma Distance2InnerHits(r: real, mu: real, rInner: real, missDistance: real, sqrt: real -> real)
    requires 0.0 <= rInner <= r && mu < 0.0
    requires rInner * rInner + r * r * (mu * mu - 1.0) >= 0.0
    requires IsRoot(sqrt(rInner * rInner + r * r * (mu * mu - 1.0)), rInner * rInner + r * r * (mu * mu - 1.0))
    ensures var d := Distance2Inner(r, mu, rInner, missDistance, sqrt);
            d >= 0.0 && d * d + 2.0 * r * mu * d + r * r == rInner * rInner
  {
    var check := rInner * rInner + r * r * (mu * mu - 1.0);
    var s := sqrt(check);
    var d := -r * mu - s;
    assert d == Distance2Inner(r, mu, rInner, missDistance, sqrt);
    assert -r * mu >= 0.0;
    assert check <= r * r * mu * mu by {
      assert rInner * rInner <= r * r;
    }
    assert (-r * mu) * (-r * mu) == r * r * mu * mu;
    SquareLe(s, -r * mu);
    assert d * d == r * r * mu * mu + 2.0 * r * mu * s + s * s;
  }

  /** With a true square root, a packet inside the outer sphere travels a
      non-negative distance to a point of radius rOuter. */
  lemma Distance2OuterHits(r: real, mu: real, rOuter: real, sqrt: real -> real)
    requires 0.0 <= r <= rOuter && -1.0 <= mu <= 1.0
    requires IsRoot(sqrt(rOuter * rOuter + ((mu * mu - 1.0) * r * r)), rOuter * rOuter + ((mu * mu - 1.0) * r * r))
    ensures var d := Distance2Outer(r, mu, rOuter, sqrt);
            d >= 0.0 && d * d + 2.0 * r * mu * d + r * r == rOuter * rOuter
  {
    var check := rOuter * rOuter + ((mu * mu - 1.0) * r * r);
    var s := sqrt(check);
    var d := s - r * mu;
    assert check >= r * r * mu * mu by {
      assert rOuter * rOuter >= r * r;
    }
    if r * mu > 0.0 {
      assert (r * mu) * (r * mu) == r * r * mu * mu;
      SquareLe(r * mu, s);
    }
    assert d * d == s * s - 2.0 * r * mu * s + r * r * mu * mu;
  }

  /** The macro-atom tables of the model: per zone a row of nd transition
      probabilities, and per transition its type, target level and target
      line; unrollReference gives each level's first transition. */
  datatype MacroAtomTables = MacroAtomTables(pTransition: seq<real>, nd: nat, typeTransition: seq<int>,
                                             targetLevelId: seq<int>, targetLineId: seq<int>,
                                             unrollReference: seq<int>)
  {
    predicate Valid(zone: nat)
    {
      && |typeTransition| == nd && |targetLevelId| == nd && |targetLineId| == nd
      && (zone + 1) * nd <= |pTransition|
    }

    function Row(zone: nat): (row: seq<real>)
      requires Valid(zone)
      ensures |row| == nd
    {
      pTransition[zone * nd .. zone * nd + nd]
    }
  }

  /** The cumulative probability of a block from its start through j. */
  function Cumulative(row: seq<real>, start: nat, j: nat): real
    requires start <= j < |row|
  {
    Sum(row[start..j + 1])
  }

  /** The first transition i >= from whose cumulative probability, counted
      from the block start, exceeds the draw; None when the row ends
      first. */
  function FirstExceeding(row: seq<real>, start: nat, from: nat, draw: real): (k: Option<nat>)
    requires start <= from <= |row|
    decreases |row| - from
    ensures k.Some? ==> from <= k.value < |row| && Cumulative(row, start, k.value) > draw
    ensures k.Some? ==> forall j :: from <= j < k.value ==> Cumulative(row, start, j) <= draw
    ensures k.None? ==> forall j :: from <= j < |row| ==> Cumulative(row, start, j) <= draw
  {
    if from == |row| then None
    else if Cumulative(row, start, from) > draw then Some(from)
    else FirstExceeding(row, start, from + 1, draw)
  }

  /** The transition the macro atom takes from a level on one draw. */
  function Transition(t: MacroAtomTables, zone: nat, level: int, draw: real): Option<nat>
    requires t.Valid(zone)
  {
    if 0 <= level < |t.unrollReference| && 0 <= t.unrollReference[level] <= t.nd then
      FirstExceeding(t.Row(zone), t.unrollReference[level], t.unrollReference[level], draw)
    else None
  }

  /** The macro atom's walk over the draws: from the active level take the
      transition the draw selects; an emission (type -1) ends the walk with
      its line, any other transition activates its target level. None when
      the draws run out or a transition is not found. */
  function MacroAtomWalk(t: MacroAtomTables, zone: nat, level: int, draws: seq<real>): Option<int>
    requires t.Valid(zone)
    decreases |draws|
  {
    if |draws| == 0 then None
    else match Transition(t, zone, level, draws[0])
      case None => None
      case Some(i) =>
        if t.typeTransition[i] == -1 then Some(t.targetLineId[i])
        else MacroAtomWalk(t, zone, t.targetLevelId[i], draws[1..])
  }

  /** A walk that ends ends on an emission: its line is the target line of
      a type -1 transition, selected by some draw from some level. */
  lemma {:induction false} MacroAtomWalkEmits(t: MacroAtomTables, zone: nat, level: int, draws: seq<real>)
    requires t.Valid(zone)
    requires MacroAtomWalk(t, zone, level, draws).Some?
    decreases |draws|
    ensures exists i :: 0 <= i < t.nd && t.typeTransition[i] == -1
                        && t.targetLineId[i] == MacroAtomWalk(t, zone, level, draws).value
  {
    var i := Transition(t, zone, level, draws[0]).value;
    if t.typeTransition[i] != -1 {
      MacroAtomWalkEmits(t, zone, t.targetLevelId[i], draws[1..]);
    }
  }

  /** A first draw that selects an emission decides the line whatever the
      later draws are. */
  lemma MacroAtomWalkFirstEmission(t: MacroAtomTables, zone: nat, level: int, draws: seq<real>, i: nat)
    requires t.Valid(zone) && |draws| > 0
    requires Transition(t, zone, level, draws[0]) == Some(i) && t.typeTransition[i] == -1
    ensures forall more :: MacroAtomWalk(t, zone, level, [draws[0]] + more) == Some(t.targetLineId[i])
  {
  }

  /** The inner loop of macro_atom: from the level's first transition,
      add probabilities until they exceed the draw. None where the source
      would read past the zone's row. */
  method SelectTransition(t: MacroAtomTables, curZoneId: nat, start: nat, eventRandom: real)
    returns (k: Option<nat>)
    requires t.Valid(curZoneId) && start <= t.nd
    ensures k == FirstExceeding(t.Row(curZoneId), start, start, eventRandom)
  {
    ghost var row := t.Row(curZoneId);
    var i := start;
    var p := 0.0;
    while i < t.nd
      invariant start <= i <= t.nd
      invariant p == Sum(row[start..i])
      invariant FirstExceeding(row, start, i, eventRandom) == FirstExceeding(row, start, start, eventRandom)
      decreases t.nd - i
    {
      assert row[i] == t.pTransition[curZoneId * t.nd + i];
      assert p + row[i] == Cumulative(row, start, i) by {
        assert row[start..i + 1] == row[start..i] + [row[i]];
        SumAppend(row[start..i], [row[i]]);
      }
      p := p + t.pTransition[curZoneId * t.nd + i];
      if p > eventRandom {
        return Some(i);
      }
      i := i + 1;
    }
    return None;
  }

  /** macro_atom: for each draw, select the active level's transition,
      jump to its target level and return its line on an emission. */
  method MacroAtom(activateLevel: int, t: MacroAtomTables, curZoneId: nat, draws: seq<real>)
    returns (line: Option<int>)
    requires t.Valid(curZoneId)
    ensures line == MacroAtomWalk(t, curZoneId, activateLevel, draws)
  {
    var level := activateLevel;
    var d := 0;
    while d < |draws|
      invariant 0 <= d <= |draws|
      invariant MacroAtomWalk(t, curZoneId, level, draws[d..]) == MacroAtomWalk(t, curZoneId, activateLevel, draws)
      decreases |draws| - d
    {
      var eventRandom := draws[d];
      assert draws[d..][0] == eventRandom && draws[d..][1..] == draws[d + 1..];
      if !(0 <= level < |t.unrollReference| && 0 <= t.unrollReference[level] <= t.nd) {
        return None;
      }
      var k := SelectTransition(t, curZoneId, t.unrollReference[level], eventRandom);
      if k.None? {
        return None;
      }
      var i := k.value;
      var emit := t.typeTransition[i];
      level := t.targetLevelId[i];
      if emit == -1 {
        return Some(t.targetLineId[i]);
      }
      d := d + 1;
    }
    return None;
  }
}
