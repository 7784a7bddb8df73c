/**
 * The decision logic of the rendezvous autopilot module: the window mode and sync-mode
 * selectors, re-validation of the selected target vessel, the nearest-rendezvous search over
 * predicted apsis times, the auto-align plane-change burn, the six-step auto-phaser, the
 * relative-velocity killer and the offset homing rule, and the heading PID that flies the ship.
 *
 * Orbit predictions (times to apsides and nodes, orbital speeds) and vector geometry come in as
 * inputs; vector magnitudes are compared through their squares.
 */
module RendezvousAutopilot {
  import opened Common

  datatype UIMode = Off | Vessels | Selected | Rendezvous | Align | Sync

  datatype SynchronizationType = TargetPeriapsis | TargetApoapsis | ShipPeriapsis | ShipApoapsis

  datatype AutoPhaserState =
    | Step1WaitForTargetApsis
    | Step2BurnToMatchNextApsis
    | Step3WaitForTargetApsis
    | Step4BurnToRendezvous
    | Step5WaitForRendezvous
    | Step6BurnToMatchVelocity

  datatype Orient =
    | Off | RelativeVelocity | RelativeVelocityAway | Target | TargetAway | Normal | AntiNormal
    | MatchTarget | MatchTargetAway | Prograde | Retrograde

  /** The number of predicted orbits the sync display and the search look at. */
  const NumberOfPredictedSyncPoints: nat := 4

  function SyncIndex(m: SynchronizationType): (i: nat)
    ensures i < NumberOfPredictedSyncPoints
  {
    match m
    case TargetPeriapsis => 0
    case TargetApoapsis => 1
    case ShipPeriapsis => 2
    case ShipApoapsis => 3
  }

  /** The sync-mode button: the next type in declaration order, wrapping from the last to the first. */
  function NextSyncMode(m: SynchronizationType): (r: SynchronizationType)
    ensures SyncIndex(r) == (SyncIndex(m) + 1) % NumberOfPredictedSyncPoints
    ensures r != m
  {
    match m
    case TargetPeriapsis => TargetApoapsis
    case TargetApoapsis => ShipPeriapsis
    case ShipPeriapsis => ShipApoapsis
    case ShipApoapsis => TargetPeriapsis
  }

  /** Four presses of the sync-mode button come back to the same type. */
  lemma SyncModeCycle(m: SynchronizationType)
    ensures NextSyncMode(NextSyncMode(NextSyncMode(NextSyncMode(m)))) == m
  {
  }

  function StepIndex(s: AutoPhaserState): (i: nat)
    ensures 1 <= i <= 6
  {
    match s
    case Step1WaitForTargetApsis => 1
    case Step2BurnToMatchNextApsis => 2
    case Step3WaitForTargetApsis => 3
    case Step4BurnToRendezvous => 4
    case Step5WaitForRendezvous => 5
    case Step6BurnToMatchVelocity => 6
  }

  /** double.MaxValue, written out exactly. */
  const DoubleMax: real :=
    179769313486231570814527423731704356798070567525844996598917476803157260780028538760589558632766878171540458953514382464234321326889464182768467546703537516986049910576551282076245490090389328944075868508455133942304583236903222948165808559332123348274797826204144723168738177180919299881250404026184124858368.0

  // ---------------------------------------------------------------------------------------------
  // Vessel re-validation
  // ---------------------------------------------------------------------------------------------

  /** The first position holding `id`, if any. */
  function IndexOf(ids: seq<int>, id: int): (r: Option<nat>)
    ensures r.None? <==> id !in ids
    ensures r.Some? ==> r.value < |ids| && ids[r.value] == id && forall k :: 0 <= k < r.value ==> ids[k] != id
  {
    if |ids| == 0 then None
    else if ids[0] == id then Some(0)
    else
      match IndexOf(ids[1..], id)
      case None => None
      case Some(k) => Some(k + 1)
  }

  // ---------------------------------------------------------------------------------------------
  // Nearest rendezvous over predicted apsis times
  // ---------------------------------------------------------------------------------------------

  /**
   * Apsis times of four consecutive orbits, interleaved: entry 2*i is the i-th apoapsis-side time,
   * entry 2*i+1 the i-th periapsis-side time. The 16 ship/target orbit pairs of one group are
   * numbered k = 4*i + j, ship orbit i outer and target orbit j inner, as the search visits them.
   */
  predicate ApsisTables(s: seq<real>, t: seq<real>) {
    |s| == 2 * NumberOfPredictedSyncPoints && |t| == 2 * NumberOfPredictedSyncPoints
  }

  /** The time between the ship's and the target's apsis of pair `k` in group `p` (0 apoapsis, 1 periapsis). */
  function PairDelta(s: seq<real>, t: seq<real>, p: nat, k: nat): real
    requires ApsisTables(s, t) && p < 2 && k < 16
  {
    Abs(s[2 * (k / 4) + p] - t[2 * (k % 4) + p])
  }

  /** The running minimum of one group: its delta and the ship and target orbits of the pair, -1 before any. */
  datatype Closest = Closest(delta: real, ship: int, target: int)

  predicate WellFormed(c: Closest) {
    (c.ship == -1 && c.target == -1) || (0 <= c.ship < 4 && 0 <= c.target < 4)
  }

  /**
   * `c` is what a strict-`<` scan of the first `n` pairs from double.MaxValue leaves: no pair at all
   * when every delta so far is at least double.MaxValue; otherwise the first pair attaining the
   * smallest delta so far.
   */
  ghost predicate FirstMinimumUpTo(s: seq<real>, t: seq<real>, p: nat, n: nat, c: Closest)
    requires ApsisTables(s, t) && p < 2 && n <= 16
  {
    && WellFormed(c)
    && (c.ship == -1 ==> c.delta == DoubleMax && forall k :: 0 <= k < n ==> PairDelta(s, t, p, k) >= DoubleMax)
    && (c.ship != -1 ==>
          && 4 * c.ship + c.target < n
          && c.delta == PairDelta(s, t, p, 4 * c.ship + c.target)
          && c.delta < DoubleMax
          && (forall k :: 0 <= k < n ==> c.delta <= PairDelta(s, t, p, k))
          && (forall k :: 0 <= k < 4 * c.ship + c.target ==> c.delta < PairDelta(s, t, p, k)))
  }

  /** One step of the inner loop: pair `n` replaces the running minimum only when strictly closer. */
  function Consider(s: seq<real>, t: seq<real>, p: nat, n: nat, acc: Closest): (c: Closest)
    requires ApsisTables(s, t) && p < 2 && n < 16
    ensures WellFormed(acc) ==> WellFormed(c)
  {
    var d := PairDelta(s, t, p, n);
    if d < acc.delta then Closest(d, n / 4, n % 4) else acc
  }

  /** The running minimum after the first `n` pairs, starting from double.MaxValue and no pair. */
  function ScanPrefix(s: seq<real>, t: seq<real>, p: nat, n: nat): (c: Closest)
    requires ApsisTables(s, t) && p < 2 && n <= 16
    ensures WellFormed(c)
  {
    if n == 0 then Closest(DoubleMax, -1, -1) else Consider(s, t, p, n - 1, ScanPrefix(s, t, p, n - 1))
  }

  /**
   * Pair `4 * i + j` compares ship orbit `i` with target orbit `j`: given the running minimum `acc`
   * before it and its delta `d`, one scan step keeps `acc` or replaces it by that pair.
   */
  lemma ScanStep(s: seq<real>, t: seq<real>, p: nat, i: nat, j: nat, acc: Closest, d: real)
    requires ApsisTables(s, t) && p < 2 && i < 4 && j < 4
    requires acc == ScanPrefix(s, t, p, 4 * i + j) && d == Abs(s[2 * i + p] - t[2 * j + p])
    ensures ScanPrefix(s, t, p, 4 * i + j + 1) == if d < acc.delta then Closest(d, i, j) else acc
  {
    var n := 4 * i + j;
    assert n / 4 == i && n % 4 == j;
  }

  lemma ConsiderExtends(s: seq<real>, t: seq<real>, p: nat, n: nat, acc: Closest)
    requires ApsisTables(s, t) && p < 2 && n < 16
    requires FirstMinimumUpTo(s, t, p, n, acc)
    ensures FirstMinimumUpTo(s, t, p, n + 1, Consider(s, t, p, n, acc))
  {
    var c := Consider(s, t, p, n, acc);
    if c != acc {
      assert 4 * (n / 4) + n % 4 == n;
    }
  }

  /** Every prefix of the scan holds the first minimum of the pairs it has seen. */
  lemma {:induction false} ScanFindsFirstMinimum(s: seq<real>, t: seq<real>, p: nat, n: nat)
    requires ApsisTables(s, t) && p < 2 && n <= 16
    ensures FirstMinimumUpTo(s, t, p, n, ScanPrefix(s, t, p, n))
  {
    if n > 0 {
      ScanFindsFirstMinimum(s, t, p, n - 1);
      ConsiderExtends(s, t, p, n - 1, ScanPrefix(s, t, p, n - 1));
    }
  }

  /** The whole scan of one group: all 2 * |s| = 16 pairs. */
  function ClosestInGroup(s: seq<real>, t: seq<real>, p: nat): (c: Closest)
    requires ApsisTables(s, t) && p < 2
    ensures WellFormed(c)
  {
    ScanPrefix(s, t, p, 2 * |s|)
  }

  /** The scan of a group finds the first pair, in visiting order, with the smallest delta. */
  lemma ClosestInGroupIsFirstMinimum(s: seq<real>, t: seq<real>, p: nat)
    requires ApsisTables(s, t) && p < 2
    ensures FirstMinimumUpTo(s, t, p, 16, ClosestInGroup(s, t, p))
  {
    ScanFindsFirstMinimum(s, t, p, 2 * |s|);
  }

  /** The scan's result is determined by the tables: two first minima are the same. */
  lemma FirstMinimumUnique(s: seq<real>, t: seq<real>, p: nat, c1: Closest, c2: Closest)
    requires ApsisTables(s, t) && p < 2
    requires FirstMinimumUpTo(s, t, p, 16, c1) && FirstMinimumUpTo(s, t, p, 16, c2)
    ensures c1 == c2
  {
    if c2.ship != -1 {
      assert PairDelta(s, t, p, 4 * c2.ship + c2.target) < DoubleMax;
    }
    if c1.ship != -1 {
      var k1 := 4 * c1.ship + c1.target;
      assert PairDelta(s, t, p, k1) < DoubleMax;
      if c2.ship != -1 {
        var k2 := 4 * c2.ship + c2.target;
        assert c1.delta <= PairDelta(s, t, p, k2) && c2.delta <= PairDelta(s, t, p, k1);
      }
    }
  }

  /** The time until the chosen rendezvous and the time between the two vessels' apsides there. */
  datatype Approach = Approach(timeToRendezvous: real, minDeltaTime: real)

  /**
   * The final choice of `CalculateNearestRendezvousInSeconds` as written: the apoapsis group only
   * when strictly closer, and the ship time read at the TARGET orbit of the winning pair. No pair
   * at all means index -1, an out-of-range read: None.
   */
  function ApproachAsWritten(s: seq<real>, apo: Closest, peri: Closest): (r: Option<Approach>)
    requires |s| == 8 && WellFormed(apo) && WellFormed(peri)
    ensures apo.delta < peri.delta && apo.target != -1 ==> r == Some(Approach(s[2 * apo.target], apo.delta))
    ensures apo.delta >= peri.delta && peri.target != -1 ==> r == Some(Approach(s[2 * peri.target + 1], peri.delta))
    ensures r.None? <==> (if apo.delta < peri.delta then apo.target == -1 else peri.target == -1)
    ensures r.Some? ==> r.value.minDeltaTime == Min(apo.delta, peri.delta)
  {
    if apo.delta < peri.delta then
      if apo.target == -1 then None else Some(Approach(s[2 * apo.target], apo.delta))
    else
      if peri.target == -1 then None else Some(Approach(s[2 * peri.target + 1], peri.delta))
  }

  /** The same choice reading the ship time at the SHIP orbit of the winning pair. */
  function ApproachAtShipOrbit(s: seq<real>, apo: Closest, peri: Closest): (r: Option<Approach>)
    requires |s| == 8 && WellFormed(apo) && WellFormed(peri)
    ensures apo.delta < peri.delta && apo.ship != -1 ==> r == Some(Approach(s[2 * apo.ship], apo.delta))
    ensures apo.delta >= peri.delta && peri.ship != -1 ==> r == Some(Approach(s[2 * peri.ship + 1], peri.delta))
    ensures r.None? <==> (if apo.delta < peri.delta then apo.ship == -1 else peri.ship == -1)
    ensures r.Some? ==> r.value.minDeltaTime == Min(apo.delta, peri.delta)
  {
    if apo.delta < peri.delta then
      if apo.ship == -1 then None else Some(Approach(s[2 * apo.ship], apo.delta))
    else
      if peri.ship == -1 then None else Some(Approach(s[2 * peri.ship + 1], peri.delta))
  }

  /** `CalculateNearestRendezvousInSeconds` as written. */
  function NearestApproachAsWritten(s: seq<real>, t: seq<real>): Option<Approach>
    requires ApsisTables(s, t)
  {
    ApproachAsWritten(s, ClosestInGroup(s, t, 0), ClosestInGroup(s, t, 1))
  }

  /** `CalculateNearestRendezvousInSeconds`, reading the ship time at the ship orbit of the winning pair. */
  function NearestApproach(s: seq<real>, t: seq<real>): Option<Approach>
    requires ApsisTables(s, t)
  {
    ApproachAtShipOrbit(s, ClosestInGroup(s, t, 0), ClosestInGroup(s, t, 1))
  }

  /** The smaller of the two group minima is at most every delta of both groups. */
  lemma {:induction false} GroupMinimaBound(s: seq<real>, t: seq<real>)
    requires ApsisTables(s, t)
    ensures forall p, k :: 0 <= p < 2 && 0 <= k < 16 ==>
              Min(ClosestInGroup(s, t, 0).delta, ClosestInGroup(s, t, 1).delta) <= PairDelta(s, t, p, k)
  {
    ClosestInGroupIsFirstMinimum(s, t, 0);
    ClosestInGroupIsFirstMinimum(s, t, 1);
  }

  /** A group finds no pair exactly when none of its deltas is below double.MaxValue. */
  lemma {:induction false} GroupEmptyIffNoneBelowMax(s: seq<real>, t: seq<real>, p: nat)
    requires ApsisTables(s, t) && p < 2
    ensures ClosestInGroup(s, t, p).ship == -1 <==> forall k :: 0 <= k < 16 ==> PairDelta(s, t, p, k) >= DoubleMax
    ensures ClosestInGroup(s, t, p).ship == -1 <==> ClosestInGroup(s, t, p).target == -1
    ensures ClosestInGroup(s, t, p).ship == -1 ==> ClosestInGroup(s, t, p).delta == DoubleMax
    ensures ClosestInGroup(s, t, p).ship != -1 ==> ClosestInGroup(s, t, p).delta < DoubleMax
  {
    ClosestInGroupIsFirstMinimum(s, t, p);
    var c := ClosestInGroup(s, t, p);
    if c.ship != -1 {
      assert PairDelta(s, t, p, 4 * c.ship + c.target) < DoubleMax;
    }
  }

  /** The pair a non-empty group reports attains its delta, with the ship orbit as pair number / 4. */
  lemma {:induction false} GroupWitness(s: seq<real>, t: seq<real>, p: nat) returns (k: nat)
    requires ApsisTables(s, t) && p < 2
    requires ClosestInGroup(s, t, p).ship != -1
    ensures k < 16 && k / 4 == ClosestInGroup(s, t, p).ship
    ensures ClosestInGroup(s, t, p).delta == PairDelta(s, t, p, k)
  {
    ClosestInGroupIsFirstMinimum(s, t, p);
    var c := ClosestInGroup(s, t, p);
    k := 4 * c.ship + c.target;
  }

  /**
   * The nearest rendezvous: None exactly when no delta of either group is below double.MaxValue;
   * otherwise the smallest delta over both groups, reported with the ship's apsis time of a pair
   * attaining it, from the apoapsis group only when it beats every periapsis delta.
   */
  lemma {:induction false} NearestApproachIsNearest(s: seq<real>, t: seq<real>)
    requires ApsisTables(s, t)
    ensures var r := NearestApproach(s, t);
            && (r.None? <==> forall p, k :: 0 <= p < 2 && 0 <= k < 16 ==> PairDelta(s, t, p, k) >= DoubleMax)
            && (r.Some? ==> forall p, k :: 0 <= p < 2 && 0 <= k < 16 ==> r.value.minDeltaTime <= PairDelta(s, t, p, k))
            && (r.Some? ==>
                  (exists k :: 0 <= k < 16 && r.value == Approach(s[2 * (k / 4) + 1], PairDelta(s, t, 1, k)))
                  || (exists k :: 0 <= k < 16 && r.value == Approach(s[2 * (k / 4)], PairDelta(s, t, 0, k))
                                   && forall k' :: 0 <= k' < 16 ==> r.value.minDeltaTime < PairDelta(s, t, 1, k')))
  {
    GroupMinimaBound(s, t);
    GroupEmptyIffNoneBelowMax(s, t, 0);
    GroupEmptyIffNoneBelowMax(s, t, 1);
    ClosestInGroupIsFirstMinimum(s, t, 1);
    var apo, peri := ClosestInGroup(s, t, 0), ClosestInGroup(s, t, 1);
    var r := NearestApproach(s, t);
    if apo.delta < peri.delta && apo.ship != -1 {
      var k := GroupWitness(s, t, 0);
      assert r.value == Approach(s[2 * (k / 4)], PairDelta(s, t, 0, k));
    } else if apo.delta >= peri.delta && peri.ship != -1 {
      var k := GroupWitness(s, t, 1);
      assert r.value == Approach(s[2 * (k / 4) + 1], PairDelta(s, t, 1, k));
    }
  }

  /** As written, the reported gap is still the smallest over both groups; only the reported time is off. */
  lemma {:induction false} AsWrittenGapIsSmallest(s: seq<real>, t: seq<real>)
    requires ApsisTables(s, t)
    ensures var r := NearestApproachAsWritten(s, t);
            r.Some? ==> forall p, k :: 0 <= p < 2 && 0 <= k < 16 ==> r.value.minDeltaTime <= PairDelta(s, t, p, k)
  {
    GroupMinimaBound(s, t);
  }

  /**
   * Apsis tables of the shape the source fills: a ship with a 1000 s period reaching the target's
   * apoapsis point after 100 s and its periapsis point after 600 s, and a target with a 2000 s
   * period whose two entries per orbit are both its time to true anomaly 0, 2100 s.
   */
  const WitnessShip: seq<real> := [100.0, 600.0, 1100.0, 1600.0, 2100.0, 2600.0, 3100.0, 3600.0]
  const WitnessTarget: seq<real> := [2100.0, 2100.0, 4100.0, 4100.0, 6100.0, 6100.0, 8100.0, 8100.0]

  /** On the witness tables the apoapsis group's first minimum is the zero gap of ship orbit 2, target orbit 0. */
  lemma {:induction false} WitnessApoapsisGroup(s: seq<real>, t: seq<real>)
    requires s == WitnessShip && t == WitnessTarget
    ensures ClosestInGroup(s, t, 0) == Closest(0.0, 2, 0)
  {
    forall k | 0 <= k < 16
      ensures PairDelta(s, t, 0, k) >= 0.0
      ensures k < 8 ==> PairDelta(s, t, 0, k) > 0.0
    {
      assert 0 <= k / 4 < 4 && 0 <= k % 4 < 4;
      assert k < 8 ==> k / 4 < 2;
    }
    assert PairDelta(s, t, 0, 8) == 0.0;
    ClosestInGroupIsFirstMinimum(s, t, 0);
    FirstMinimumUnique(s, t, 0, ClosestInGroup(s, t, 0), Closest(0.0, 2, 0));
  }

  /** On the witness tables the periapsis group's first minimum is a 500 s gap, ship orbit 1, target orbit 0. */
  lemma {:induction false} WitnessPeriapsisGroup(s: seq<real>, t: seq<real>)
    requires s == WitnessShip && t == WitnessTarget
    ensures ClosestInGroup(s, t, 1) == Closest(500.0, 1, 0)
  {
    forall k | 0 <= k < 16
      ensures PairDelta(s, t, 1, k) >= 500.0
      ensures k < 4 ==> PairDelta(s, t, 1, k) > 500.0
    {
      assert 0 <= k / 4 < 4 && 0 <= k % 4 < 4;
      assert k < 4 ==> k / 4 == 0;
    }
    assert PairDelta(s, t, 1, 4) == 500.0;
    ClosestInGroupIsFirstMinimum(s, t, 1);
    FirstMinimumUnique(s, t, 1, ClosestInGroup(s, t, 1), Closest(500.0, 1, 0));
  }

  /**
   * As written, the search reports the rendezvous at 100 s with a zero gap, although the ship's
   * apsis at 100 s is at least 2000 s from every target apsis; the zero gap belongs to the ship's
   * apsis at 2100 s, which the corrected choice reports.
   */
  lemma {:induction false} AsWrittenReportsWrongShipApsis(s: seq<real>, t: seq<real>)
    requires s == WitnessShip && t == WitnessTarget
    ensures NearestApproachAsWritten(s, t) == Some(Approach(100.0, 0.0))
    ensures forall k :: 0 <= k < 4 ==> PairDelta(s, t, 0, k) >= 2000.0
    ensures NearestApproach(s, t) == Some(Approach(2100.0, 0.0))
  {
    assert s[0] == 100.0 && t[0] == 2100.0 && t[2] == 4100.0 && t[4] == 6100.0 && t[6] == 8100.0;
    forall k | 0 <= k < 4 ensures PairDelta(s, t, 0, k) >= 2000.0 {
      assert k / 4 == 0 && k % 4 == k;
    }
    WitnessApoapsisGroup(s, t);
    WitnessPeriapsisGroup(s, t);
  }

  // ---------------------------------------------------------------------------------------------
  // Apsis timing
  // ---------------------------------------------------------------------------------------------

  /** `CalculateTimeTillNextTargetApsis`: the sooner of the ship's times to the target's two apsides. */
  function TimeTillNextTargetApsis(shipToTargetApoapsis: real, shipToTargetPeriapsis: real): (r: real)
    ensures r <= shipToTargetApoapsis && r <= shipToTargetPeriapsis
    ensures r == shipToTargetApoapsis || r == shipToTargetPeriapsis
  {
    Min(shipToTargetApoapsis, shipToTargetPeriapsis)
  }

  /** `CalculateTimeTillFurtherTargetApsis`: the later of the two. */
  function TimeTillFurtherTargetApsis(shipToTargetApoapsis: real, shipToTargetPeriapsis: real): (r: real)
    ensures r >= shipToTargetApoapsis && r >= shipToTargetPeriapsis
    ensures r == shipToTargetApoapsis || r == shipToTargetPeriapsis
  {
    Max(shipToTargetApoapsis, shipToTargetPeriapsis)
  }

  /** The next apsis never comes after the further one, and together they are the two apsides. */
  lemma NextNotAfterFurther(a: real, b: real)
    ensures TimeTillNextTargetApsis(a, b) <= TimeTillFurtherTargetApsis(a, b)
    ensures TimeTillNextTargetApsis(a, b) + TimeTillFurtherTargetApsis(a, b) == a + b
  {
  }

  // ---------------------------------------------------------------------------------------------
  // Auto-align
  // ---------------------------------------------------------------------------------------------

  /** The plane-change burn direction: normal when the sign of the inclination matches the node. */
  function AlignPointing(relativeInclination: real, ascendingSoonest: bool): (o: Orient)
    ensures o == Normal || o == AntiNormal
    ensures o == Normal <==> (relativeInclination < 0.0) == ascendingSoonest
  {
    if relativeInclination < 0.0 then (if ascendingSoonest then Normal else AntiNormal)
    else (if ascendingSoonest then AntiNormal else Normal)
  }

  /**
   * Burn when the node is under 10 s away or a burn is under way, the aim test passes, and the
   * planes still differ. The driver always passes the aim test (ScaledHeadingIsAimed).
   */
  predicate AlignBurning(nodeTime: real, triggered: bool, aimed: bool, relativeInclination: real) {
    (nodeTime < 10.0 || triggered) && aimed && Abs(relativeInclination) > 0.01
  }

  /** The auto-align throttle: full above 0.1 degrees of inclination, a quarter below, none when not burning. */
  function AlignThrottle(nodeTime: real, triggered: bool, aimed: bool, relativeInclination: real): (r: real)
    ensures r == 0.0 || r == 0.25 || r == 1.0
    ensures r > 0.0 <==> AlignBurning(nodeTime, triggered, aimed, relativeInclination)
    ensures r == 1.0 <==> AlignBurning(nodeTime, triggered, aimed, relativeInclination) && Abs(relativeInclination) > 0.1
  {
    if AlignBurning(nodeTime, triggered, aimed, relativeInclination) then
      if Abs(relativeInclination) > 0.1 then 1.0 else 0.25
    else 0.0
  }

  // ---------------------------------------------------------------------------------------------
  // Auto-phaser
  // ---------------------------------------------------------------------------------------------

  /** What the phaser reads in one tick; speeds are orbital speeds predicted at the given moments. */
  datatype PhaserReadings = PhaserReadings(
    shipToTargetApoapsis: real, shipToTargetPeriapsis: real,
    shipSpeedAtNext: real, targetSpeedAtNext: real,
    shipSpeedAtFurther: real, targetSpeedAtFurther: real,
    aimed: bool,                    // the aim test: heading error magnitude below 5, always true in range
    relativeSpeedSquared: real)

  datatype PhaserMemory = PhaserMemory(active: bool, state: AutoPhaserState, velocityGoal: real, burnComplete: bool)

  /** The module's steering request: whether it flies the ship, and where it points. */
  datatype Steering = Steering(flyByWire: bool, pointAt: Orient)

  datatype PhaserOutput = PhaserOutput(memory: PhaserMemory, steering: Steering, throttle: real)

  /**
   * One tick of the auto-phaser. It never skips a step: each tick stays put or moves to the next
   * step. Step 2 advances only once the burn is complete and the next apsis is over 10 s away;
   * step 6 ends by switching the phaser off at zero throttle. Steps 4 and 5 need the nearest
   * rendezvous; when the search has none (its out-of-range read) the tick fails: None.
   */
  function PhaserStep(m: PhaserMemory, st: Steering, r: PhaserReadings, approach: Option<Approach>, throttle: real)
    : (o: Option<PhaserOutput>)
    requires m.active
    ensures o.None? <==> (m.state.Step4BurnToRendezvous? || m.state.Step5WaitForRendezvous?) && approach.None?
    ensures o.Some? ==> StepIndex(o.value.memory.state) == StepIndex(m.state)
                        || StepIndex(o.value.memory.state) == StepIndex(m.state) + 1
    ensures o.Some? && m.state.Step2BurnToMatchNextApsis? && o.value.memory.state.Step3WaitForTargetApsis? ==>
              o.value.memory.burnComplete
              && TimeTillNextTargetApsis(r.shipToTargetApoapsis, r.shipToTargetPeriapsis) > 10.0
    ensures o.Some? && !o.value.memory.active ==>
              m.state.Step6BurnToMatchVelocity? && o.value.throttle == 0.0 && r.relativeSpeedSquared <= 25.0
    ensures o.Some? && m.state.Step1WaitForTargetApsis? && o.value.memory.state.Step2BurnToMatchNextApsis? ==>
              o.value.memory.velocityGoal == r.targetSpeedAtFurther && !o.value.memory.burnComplete
    ensures o.Some? && (m.state.Step1WaitForTargetApsis? || m.state.Step3WaitForTargetApsis? || m.state.Step5WaitForRendezvous?) ==>
              o.value.throttle == throttle
    ensures o.Some? && m.state.Step2BurnToMatchNextApsis? ==>
              && (o.value.throttle == 1.0 || o.value.throttle == 0.0)
              && (o.value.throttle == 1.0 <==> r.aimed && !m.burnComplete && Abs(r.shipSpeedAtFurther - m.velocityGoal) >= 10.0)
    ensures o.Some? && m.state.Step4BurnToRendezvous? ==>
              && (approach.value.minDeltaTime > 5.0 ==> o.value.throttle == 0.25 && o.value.memory == m)
              && (approach.value.minDeltaTime <= 5.0 ==> o.value.throttle == 0.0 && o.value.memory.state.Step5WaitForRendezvous?)
    ensures o.Some? && m.state.Step6BurnToMatchVelocity? ==>
              && (!o.value.memory.active <==> r.relativeSpeedSquared <= 25.0)
              && (r.relativeSpeedSquared > 25.0 ==>
                    o.value.throttle == if r.aimed then (if r.relativeSpeedSquared > 225.0 then 1.0 else 0.2) else throttle)
  {
    var next := TimeTillNextTargetApsis(r.shipToTargetApoapsis, r.shipToTargetPeriapsis);
    match m.state
    case Step1WaitForTargetApsis =>
      var steer := Steering(true, if r.shipSpeedAtNext > r.targetSpeedAtNext then Retrograde else Prograde);
      if next < 5.0 then
        Some(PhaserOutput(m.(state := Step2BurnToMatchNextApsis, velocityGoal := r.targetSpeedAtFurther, burnComplete := false), steer, throttle))
      else Some(PhaserOutput(m, steer, throttle))
    case Step2BurnToMatchNextApsis =>
      var burn := if r.aimed && !m.burnComplete then 1.0 else 0.0;
      var reached := Abs(r.shipSpeedAtFurther - m.velocityGoal) < 10.0;
      var complete := m.burnComplete || reached;
      var state := if complete && next > 10.0 then Step3WaitForTargetApsis else Step2BurnToMatchNextApsis;
      Some(PhaserOutput(m.(state := state, burnComplete := complete), st, if reached then 0.0 else burn))
    case Step3WaitForTargetApsis =>
      var steer := Steering(true, Prograde);
      Some(PhaserOutput(m.(state := if next < 5.0 then Step4BurnToRendezvous else Step3WaitForTargetApsis), steer, throttle))
    case Step4BurnToRendezvous =>
      if approach.None? then None
      else if approach.value.minDeltaTime > 5.0 then Some(PhaserOutput(m, st, 0.25))
      else Some(PhaserOutput(m.(state := Step5WaitForRendezvous), st, 0.0))
    case Step5WaitForRendezvous =>
      if approach.None? then None
      else Some(PhaserOutput(m.(state := if approach.value.timeToRendezvous < 2.0 then Step6BurnToMatchVelocity else Step5WaitForRendezvous), st, throttle))
    case Step6BurnToMatchVelocity =>
      if r.relativeSpeedSquared > 25.0 then
        var burn := if r.aimed then (if r.relativeSpeedSquared > 225.0 then 1.0 else 0.2) else throttle;
        Some(PhaserOutput(m, Steering(true, RelativeVelocityAway), burn))
      else Some(PhaserOutput(m.(active := false), st, 0.0))
  }

  // ---------------------------------------------------------------------------------------------
  // Translation rules
  // ---------------------------------------------------------------------------------------------

  /** Translation thrust along the ship's X, Y and Z control axes. */
  datatype Thrust = Thrust(x: real, y: real, z: real)

  /**
   * Kill relative velocity: each control axis pushes against the local relative velocity on the
   * axis it drives (X against x, Y against z, Z against y), eight times over, saturating at 1.
   */
  function KillThrust(v: Vec3): (c: Thrust)
    ensures -1.0 <= c.x <= 1.0 && -1.0 <= c.y <= 1.0 && -1.0 <= c.z <= 1.0
    ensures c.x * v.x <= 0.0 && c.y * v.z <= 0.0 && c.z * v.y <= 0.0
    ensures (v.x == 0.0 <==> c.x == 0.0) && (v.z == 0.0 <==> c.y == 0.0) && (v.y == 0.0 <==> c.z == 0.0)
    ensures Abs(v.x) >= 0.125 ==> Abs(c.x) == 1.0
    ensures Abs(v.z) >= 0.125 ==> Abs(c.y) == 1.0
    ensures Abs(v.y) >= 0.125 ==> Abs(c.z) == 1.0
    ensures Abs(v.x) <= 0.125 ==> c.x == -8.0 * v.x
    ensures Abs(v.z) <= 0.125 ==> c.y == -8.0 * v.z
    ensures Abs(v.y) <= 0.125 ==> c.z == -8.0 * v.y
  {
    Thrust(Clamp(-v.x * 8.0, -1.0, 1.0), Clamp(-v.z * 8.0, -1.0, 1.0), Clamp(-v.y * 8.0, -1.0, 1.0))
  }

  /** The homing speed as written: the first band of the else-if chain shadows every later one. */
  function VelocityGoalAsWritten(distance: real): (r: real)
    ensures r == 0.1 || r == 0.3
    ensures r == 0.3 <==> distance > 2.0
  {
    if distance > 2.0 then 0.3
    else if distance > 10.0 then 0.5
    else if distance > 50.0 then 1.0
    else if distance > 150.0 then 3.0
    else 0.1
  }

  /** The homing speed by distance band: 0.1 m/s up to 2 m, then 0.3, 0.5, 1 and 3 m/s past 10, 50 and 150 m. */
  function VelocityGoal(distance: real): (r: real)
    ensures 0.1 <= r <= 3.0
    ensures distance <= 2.0 ==> r == 0.1
    ensures distance > 150.0 ==> r == 3.0
    ensures 2.0 < distance <= 10.0 ==> r == 0.3
    ensures 10.0 < distance <= 50.0 ==> r == 0.5
    ensures 50.0 < distance <= 150.0 ==> r == 1.0
  {
    if distance > 150.0 then 3.0
    else if distance > 50.0 then 1.0
    else if distance > 10.0 then 0.5
    else if distance > 2.0 then 0.3
    else 0.1
  }

  /** Homing speeds up with distance. */
  lemma VelocityGoalMonotone(d1: real, d2: real)
    requires d1 <= d2
    ensures VelocityGoal(d1) <= VelocityGoal(d2)
  {
  }

  /** At 200 m the chain as written still asks for 0.3 m/s, where the 150 m band means 3 m/s. */
  lemma VelocityGoalShadowed()
    ensures VelocityGoalAsWritten(200.0) == 0.3 && VelocityGoal(200.0) == 3.0
  {
  }

  /** Mathf.Sign: 1 for zero and positive values, -1 for negative ones. */
  function Sign(v: real): (r: real)
    ensures r == 1.0 || r == -1.0
    ensures r == 1.0 <==> v >= 0.0
  {
    if v >= 0.0 then 1.0 else -1.0
  }

  /** Head towards the offset point at `speed` on every axis that is more than 1 cm off. */
  function GoalVelocityComponent(offset: real, speed: real): (g: real)
    ensures Abs(offset) <= 0.01 ==> g == 0.0
    ensures offset > 0.01 ==> g == -speed
    ensures offset < -0.01 ==> g == speed
  {
    if Abs(offset) > 0.01 then -Sign(offset) * speed else 0.0
  }

  function GoalVelocity(goalPoint: Vec3, speed: real): Vec3 {
    Vec3(GoalVelocityComponent(goalPoint.x, speed),
         GoalVelocityComponent(goalPoint.y, speed),
         GoalVelocityComponent(goalPoint.z, speed))
  }

  /**
   * Home on the offset point: each control axis closes the gap between the goal velocity and the
   * local relative velocity on the axis it drives, eight times over, saturating at 1; a ship
   * already moving at the goal velocity gets no thrust.
   */
  function HomeThrust(relativePosition: Vec3, v: Vec3, speed: real): (c: Thrust)
    ensures -1.0 <= c.x <= 1.0 && -1.0 <= c.y <= 1.0 && -1.0 <= c.z <= 1.0
    ensures var g := GoalVelocity(relativePosition, speed);
            (c.x == 0.0 <==> v.x == g.x) && (c.y == 0.0 <==> v.z == g.z) && (c.z == 0.0 <==> v.y == g.y)
    ensures var g := GoalVelocity(relativePosition, speed);
            && (v.x < g.x ==> c.x > 0.0) && (v.x > g.x ==> c.x < 0.0)
            && (v.z < g.z ==> c.y > 0.0) && (v.z > g.z ==> c.y < 0.0)
            && (v.y < g.y ==> c.z > 0.0) && (v.y > g.y ==> c.z < 0.0)
    ensures var g := GoalVelocity(relativePosition, speed);
            && (Abs(g.x - v.x) <= 0.125 ==> c.x == 8.0 * (g.x - v.x))
            && (Abs(g.z - v.z) <= 0.125 ==> c.y == 8.0 * (g.z - v.z))
            && (Abs(g.y - v.y) <= 0.125 ==> c.z == 8.0 * (g.y - v.y))
    ensures var g := GoalVelocity(relativePosition, speed);
            && (Abs(g.x - v.x) >= 0.125 ==> Abs(c.x) == 1.0)
            && (Abs(g.z - v.z) >= 0.125 ==> Abs(c.y) == 1.0)
            && (Abs(g.y - v.y) >= 0.125 ==> Abs(c.z) == 1.0)
  {
    var g := GoalVelocity(relativePosition, speed);
    Thrust(Clamp((g.x - v.x) * 8.0, -1.0, 1.0), Clamp((g.z - v.z) * 8.0, -1.0, 1.0), Clamp((g.y - v.y) * 8.0, -1.0, 1.0))
  }

  // ---------------------------------------------------------------------------------------------
  // The module
  // ---------------------------------------------------------------------------------------------

  /**
   * The range of the heading error as the fly-by-wire PID computes it: each Euler angle of the
   * rotation still to go, shifted into (-180, 180] and divided by 180.
   */
  predicate HeadingErrorScaled(e: Vec3) {
    -1.0 < e.x <= 1.0 && -1.0 < e.y <= 1.0 && -1.0 < e.z <= 1.0
  }

  /** A square of a value in (-1, 1] is at most 1. */
  lemma ScaledSquareAtMostOne(a: real)
    requires -1.0 < a <= 1.0
    ensures a * a <= 1.0
  {
    if a >= 0.0 {
      assert a * a <= a * 1.0;
    } else {
      assert a * a == (-a) * (-a) <= (-a) * 1.0;
    }
  }

  /**
   * A scaled heading error is at most sqrt 3 long, so the burns' test "magnitude under 5" always
   * passes: the ship always counts as aimed.
   */
  lemma ScaledHeadingIsAimed(e: Vec3)
    requires HeadingErrorScaled(e)
    ensures SquaredLength(e) <= 3.0
    ensures SquaredLength(e) < 25.0
  {
    ScaledSquareAtMostOne(e.x);
    ScaledSquareAtMostOne(e.y);
    ScaledSquareAtMostOne(e.z);
  }

  /** What `DriveShip` reads in one tick besides the apsis tables. */
  datatype ShipReadings = ShipReadings(
    timeToAscendingNode: real, timeToDescendingNode: real,
    relativeInclination: real,
    phaser: PhaserReadings,
    localRelativeVelocity: Vec3,
    goalPointLocal: Vec3,          // the target's goal point (0, 2, 0) carried into ship-local coordinates
    targetDistance: real,
    headingError: Vec3,            // this tick's heading error, scaled by 1/180 into (-1, 1]
    fixedDeltaTime: real)

  /** The controls `DriveShip` writes (FlightCtrlState): throttle, translation and rotation. */
  datatype ShipControls = ShipControls(mainThrottle: real, translation: Thrust, pitch: real, yaw: real, roll: real)

  class RendezvousModule {
    var mode: UIMode
    var modeChanged: bool
    var selectedVesselIndex: nat
    var selectedVesselInstanceId: int
    var syncMode: SynchronizationType
    var autoAlign: bool
    var autoAlignBurnTriggered: bool
    var autoPhaser: bool
    var autoPhaserState: AutoPhaserState
    var autoPhaserVelocityGoal: real
    var autoPhaseBurnComplete: bool
    var killRelativeVelocity: bool
    var homeOnRelativePosition: bool
    var pointAt: Orient
    var flyByWire: bool
    /** The heading error of the last fly-by-wire tick, kept within HeadingErrorScaled. */
    var headingError: Vec3
    var integral: Vec3
    var prevErr: Vec3
    var act: Vec3
    var kp: real
    var ki: real
    var kd: real

    constructor ()
      ensures mode == Vessels && !modeChanged && syncMode == TargetPeriapsis && pointAt == Orient.Off && !flyByWire
      ensures !autoAlign && !autoAlignBurnTriggered && !autoPhaser && !autoPhaseBurnComplete
      ensures !killRelativeVelocity && !homeOnRelativePosition
      ensures kp == 20.0 && ki == 0.0 && kd == 40.0
      ensures HeadingInRange()
    {
      mode, modeChanged := Vessels, false;
      selectedVesselIndex, selectedVesselInstanceId := 0, 0;
      syncMode := TargetPeriapsis;
      autoAlign, autoAlignBurnTriggered := false, false;
      autoPhaser, autoPhaserState, autoPhaserVelocityGoal, autoPhaseBurnComplete := false, Step1WaitForTargetApsis, 0.0, false;
      killRelativeVelocity, homeOnRelativePosition := false, false;
      pointAt, flyByWire := Orient.Off, false;
      headingError, integral, prevErr, act := ZeroVec, ZeroVec, ZeroVec, ZeroVec;
      kp, ki, kd := 20.0, 0.0, 40.0;
    }

    ghost function PhaserView(): PhaserMemory
      reads this`autoPhaser, this`autoPhaserState, this`autoPhaserVelocityGoal, this`autoPhaseBurnComplete
    {
      PhaserMemory(autoPhaser, autoPhaserState, autoPhaserVelocityGoal, autoPhaseBurnComplete)
    }

    ghost function SteeringView(): Steering
      reads this`flyByWire, this`pointAt
    {
      Steering(flyByWire, pointAt)
    }

    /** The stored heading error lies in the range the fly-by-wire PID computes it in. */
    predicate HeadingInRange()
      reads this`headingError
    {
      HeadingErrorScaled(headingError)
    }

    /**
     * The burns' aim test: the last heading error is within 5 (compared as squares). On a
     * heading error in range it always holds (ScaledHeadingIsAimed).
     */
    predicate Aimed()
      reads this`headingError
    {
      SquaredLength(headingError) < 25.0
    }

    // ------------------------------------------------------------------ selectors

    /** The `Mode` setter: only a different mode raises the redraw flag. */
    method SetMode(v: UIMode)
      modifies this`mode, this`modeChanged
      ensures mode == v
      ensures modeChanged == (old(modeChanged) || old(mode) != v)
    {
      if mode == v {
        return;
      }
      mode := v;
      modeChanged := true;
    }

    /** The sync-mode button. */
    method CycleSyncMode()
      modifies this`syncMode
      ensures syncMode == NextSyncMode(old(syncMode))
    {
      if SyncIndex(syncMode) == NumberOfPredictedSyncPoints - 1 {
        syncMode := TargetPeriapsis;
      } else {
        syncMode := match syncMode
          case TargetPeriapsis => TargetApoapsis
          case TargetApoapsis => ShipPeriapsis
          case _ => ShipApoapsis;
      }
    }

    /** The auto-align button: toggles the mode and forgets any burn under way. */
    method ToggleAutoAlign()
      modifies this`autoAlign, this`autoAlignBurnTriggered
      ensures autoAlign == !old(autoAlign) && !autoAlignBurnTriggered
    {
      autoAlignBurnTriggered := false;
      autoAlign := !autoAlign;
    }

    /** The auto-sync button: toggles the phaser and restarts it at step 1. */
    method ToggleAutoPhaser()
      modifies this`autoPhaser, this`autoPhaserState
      ensures autoPhaser == !old(autoPhaser) && autoPhaserState == Step1WaitForTargetApsis
    {
      autoPhaser := !autoPhaser;
      autoPhaserState := Step1WaitForTargetApsis;
    }

    method ToggleKillRelativeVelocity()
      modifies this`killRelativeVelocity
      ensures killRelativeVelocity == !old(killRelativeVelocity)
    {
      killRelativeVelocity := !killRelativeVelocity;
    }

    method ToggleHomeOnRelativePosition()
      modifies this`homeOnRelativePosition
      ensures homeOnRelativePosition == !old(homeOnRelativePosition)
    {
      homeOnRelativePosition := !homeOnRelativePosition;
    }

    /**
     * `CheckVessel` over the instance IDs of the vessel list: a stored index past the end fails
     * without a search; a stored index still holding the selected ID succeeds untouched; otherwise
     * the index moves to the first position holding the ID, and the check fails if there is none.
     */
    method CheckVessel(ids: seq<int>) returns (found: bool)
      modifies this`selectedVesselIndex
      ensures |ids| - 1 < old(selectedVesselIndex) ==> !found
      ensures old(selectedVesselIndex) < |ids| ==> (found <==> selectedVesselInstanceId in ids)
      ensures found ==> selectedVesselIndex < |ids| && ids[selectedVesselIndex] == selectedVesselInstanceId
      ensures found && ids[old(selectedVesselIndex)] != selectedVesselInstanceId ==>
                IndexOf(ids, selectedVesselInstanceId) == Some(selectedVesselIndex)
      ensures !found || ids[old(selectedVesselIndex)] == selectedVesselInstanceId ==>
                selectedVesselIndex == old(selectedVesselIndex)
    {
      if |ids| - 1 < selectedVesselIndex {
        return false;
      }
      if ids[selectedVesselIndex] == selectedVesselInstanceId {
        return true;
      }
      var i := 0;
      while i < |ids|
        invariant 0 <= i <= |ids|
        invariant forall k :: 0 <= k < i ==> ids[k] != selectedVesselInstanceId
        invariant selectedVesselIndex == old(selectedVesselIndex)
      {
        if ids[i] == selectedVesselInstanceId {
          selectedVesselIndex := i;
          return true;
        }
        i := i + 1;
      }
      return false;
    }

    // ------------------------------------------------------------------ nearest rendezvous

    /**
     * The nested search of `CalculateNearestRendezvousInSeconds`: for each group the running
     * minimum over the 16 pairs, replaced only by a strictly smaller delta.
     */
    static method FindClosestPairs(ship: array<real>, target: array<real>) returns (apo: Closest, peri: Closest)
      requires ApsisTables(ship[..], target[..])
      ensures apo == ClosestInGroup(ship[..], target[..], 0)
      ensures peri == ClosestInGroup(ship[..], target[..], 1)
    {
      ghost var s, t := ship[..], target[..];
      apo := Closest(DoubleMax, -1, -1);
      peri := Closest(DoubleMax, -1, -1);
      var i := 0;
      while i < 4
        invariant 0 <= i <= 4
        invariant apo == ScanPrefix(s, t, 0, 4 * i)
        invariant peri == ScanPrefix(s, t, 1, 4 * i)
      {
        var shipApo := ship[i * 2];
        var shipPeri := ship[i * 2 + 1];
        var j := 0;
        while j < 4
          invariant 0 <= j <= 4
          invariant apo == ScanPrefix(s, t, 0, 4 * i + j)
          invariant peri == ScanPrefix(s, t, 1, 4 * i + j)
        {
          var deltaApo := Abs(shipApo - target[j * 2]);
          var deltaPeri := Abs(shipPeri - target[j * 2 + 1]);
          ScanStep(s, t, 0, i, j, apo, deltaApo);
          ScanStep(s, t, 1, i, j, peri, deltaPeri);
          if deltaApo < apo.delta {
            apo := Closest(deltaApo, i, j);
          }
          if deltaPeri < peri.delta {
            peri := Closest(deltaPeri, i, j);
          }
          j := j + 1;
        }
        i := i + 1;
      }
    }

    /** `CalculateNearestRendezvousInSeconds` with the ship time read at the ship orbit of the winning pair. */
    static method NearestRendezvous(ship: array<real>, target: array<real>) returns (r: Option<Approach>)
      requires ApsisTables(ship[..], target[..])
      ensures r == NearestApproach(ship[..], target[..])
    {
      var apo, peri := FindClosestPairs(ship, target);
      if apo.delta < peri.delta {
        if apo.ship == -1 {
          return None;
        }
        return Some(Approach(ship[apo.ship * 2], apo.delta));
      }
      if peri.ship == -1 {
        return None;
      }
      return Some(Approach(ship[peri.ship * 2 + 1], peri.delta));
    }

    /** `CalculateNearestRendezvousInSeconds` as written, reading the ship time at the target orbit. */
    static method NearestRendezvousAsWritten(ship: array<real>, target: array<real>) returns (r: Option<Approach>)
      requires ApsisTables(ship[..], target[..])
      ensures r == NearestApproachAsWritten(ship[..], target[..])
    {
      var apo, peri := FindClosestPairs(ship, target);
      if apo.delta < peri.delta {
        if apo.target == -1 {
          return None;
        }
        return Some(Approach(ship[apo.target * 2], apo.delta));
      }
      if peri.target == -1 {
        return None;
      }
      return Some(Approach(ship[peri.target * 2 + 1], peri.delta));
    }

    // ------------------------------------------------------------------ DriveShip branches

    /**
     * The auto-align branch: fly by wire, point for the plane change while no burn is under way,
     * burn by the throttle rule, and disengage once the planes agree within 0.02 degrees.
     */
    method AutoAlignStep(timeToAN: real, timeToDN: real, relativeInclination: real, throttle: real) returns (out: real)
      requires HeadingInRange()
      modifies this`autoAlign, this`autoAlignBurnTriggered, this`flyByWire, this`pointAt
      ensures !old(autoAlign) ==>
                out == throttle && !autoAlign && autoAlignBurnTriggered == old(autoAlignBurnTriggered)
                && SteeringView() == old(SteeringView())
      ensures old(autoAlign) ==>
                var ascending := timeToAN < timeToDN;
                var node := if ascending then timeToAN else timeToDN;
                && flyByWire
                && pointAt == (if old(autoAlignBurnTriggered) then old(pointAt) else AlignPointing(relativeInclination, ascending))
                && out == AlignThrottle(node, old(autoAlignBurnTriggered), true, relativeInclination)
                && autoAlign == !(Abs(relativeInclination) < 0.02)
                && autoAlignBurnTriggered == (autoAlign && (old(autoAlignBurnTriggered) || out > 0.0))
    {
      out := throttle;
      if !autoAlign {
        return;
      }
      ScaledHeadingIsAimed(headingError);
      var ascendingSoonest := timeToAN < timeToDN;
      var timeToBurnNode := if ascendingSoonest then timeToAN else timeToDN;
      flyByWire := true;
      if !autoAlignBurnTriggered {
        if relativeInclination < 0.0 {
          pointAt := if ascendingSoonest then Normal else AntiNormal;
        } else {
          pointAt := if ascendingSoonest then AntiNormal else Normal;
        }
      }
      if (timeToBurnNode < 10.0 || autoAlignBurnTriggered) && Aimed() && Abs(relativeInclination) > 0.01 {
        autoAlignBurnTriggered := true;
        if Abs(relativeInclination) > 0.1 {
          out := 1.0;
        } else {
          out := 0.25;
        }
      } else {
        out := 0.0;
      }
      if Abs(relativeInclination) < 0.02 {
        autoAlignBurnTriggered := false;
        autoAlign := false;
      }
    }

    /**
     * Steps 4 and 5 of the auto-phaser, the two that look up the nearest rendezvous: burn at a
     * quarter throttle until the gap is within 5 s, then wait until the rendezvous is under 2 s
     * away. `fault` reports the search's out-of-range read.
     */
    method RendezvousPhaseStep(r: PhaserReadings, ship: array<real>, target: array<real>, throttle: real)
      returns (out: real, fault: bool)
      requires ApsisTables(ship[..], target[..])
      requires autoPhaser && (autoPhaserState.Step4BurnToRendezvous? || autoPhaserState.Step5WaitForRendezvous?)
      modifies this`autoPhaserState
      ensures var o := PhaserStep(old(PhaserView()), SteeringView(), r, NearestApproach(ship[..], target[..]), throttle);
              (fault <==> o.None?)
              && (o.Some? ==> PhaserView() == o.value.memory && SteeringView() == o.value.steering && out == o.value.throttle)
              && (o.None? ==> PhaserView() == old(PhaserView()) && out == throttle)
    {
      out, fault := throttle, false;
      var approach := NearestRendezvous(ship, target);
      if approach.None? {
        return out, true;
      }
      if autoPhaserState.Step4BurnToRendezvous? {
        if approach.value.minDeltaTime > 5.0 {
          out := 0.25;
        } else {
          out := 0.0;
          autoPhaserState := Step5WaitForRendezvous;
        }
      } else if approach.value.timeToRendezvous < 2.0 {
        autoPhaserState := Step6BurnToMatchVelocity;
      }
    }

    /**
     * The auto-phaser branch. `fault` reports the search's out-of-range read, which aborts the
     * rest of the tick.
     */
    method AutoPhaserStep(r: PhaserReadings, ship: array<real>, target: array<real>, throttle: real)
      returns (out: real, fault: bool)
      requires ApsisTables(ship[..], target[..])
      requires r.aimed == Aimed()
      modifies this`autoPhaser, this`autoPhaserState, this`autoPhaserVelocityGoal, this`autoPhaseBurnComplete,
               this`flyByWire, this`pointAt
      ensures !old(autoPhaser) ==>
                out == throttle && !fault && PhaserView() == old(PhaserView()) && SteeringView() == old(SteeringView())
      ensures old(autoPhaser) ==>
                var o := PhaserStep(old(PhaserView()), old(SteeringView()), r, NearestApproach(ship[..], target[..]), throttle);
                (fault <==> o.None?)
                && (o.Some? ==> PhaserView() == o.value.memory && SteeringView() == o.value.steering && out == o.value.throttle)
                && (o.None? ==> PhaserView() == old(PhaserView()) && SteeringView() == old(SteeringView()) && out == throttle)
      ensures old(autoPhaser) ==>
                StepIndex(autoPhaserState) == StepIndex(old(autoPhaserState))
                || StepIndex(autoPhaserState) == StepIndex(old(autoPhaserState)) + 1
      ensures old(autoPhaser) && !autoPhaser ==> old(autoPhaserState).Step6BurnToMatchVelocity? && out == 0.0
    {
      out, fault := throttle, false;
      if !autoPhaser {
        return;
      }
      var next := TimeTillNextTargetApsis(r.shipToTargetApoapsis, r.shipToTargetPeriapsis);
      match autoPhaserState {
        case Step1WaitForTargetApsis =>
          flyByWire := true;
          if r.shipSpeedAtNext > r.targetSpeedAtNext {
            pointAt := Retrograde;
          } else {
            pointAt := Prograde;
          }
          if next < 5.0 {
            autoPhaserState := Step2BurnToMatchNextApsis;
            autoPhaserVelocityGoal := r.targetSpeedAtFurther;
            autoPhaseBurnComplete := false;
          }
        case Step2BurnToMatchNextApsis =>
          if Aimed() && !autoPhaseBurnComplete {
            out := 1.0;
          } else {
            out := 0.0;
          }
          if Abs(r.shipSpeedAtFurther - autoPhaserVelocityGoal) < 10.0 {
            autoPhaseBurnComplete := true;
            out := 0.0;
          }
          if autoPhaseBurnComplete && next > 10.0 {
            autoPhaserState := Step3WaitForTargetApsis;
          }
        case Step3WaitForTargetApsis =>
          flyByWire := true;
          pointAt := Prograde;
          if next < 5.0 {
            autoPhaserState := Step4BurnToRendezvous;
          }
        case Step4BurnToRendezvous =>
          out, fault := RendezvousPhaseStep(r, ship, target, out);
        case Step5WaitForRendezvous =>
          out, fault := RendezvousPhaseStep(r, ship, target, out);
        case Step6BurnToMatchVelocity =>
          if r.relativeSpeedSquared > 25.0 {
            flyByWire := true;
            pointAt := RelativeVelocityAway;
            if Aimed() {
              if r.relativeSpeedSquared > 225.0 {
                out := 1.0;
              } else {
                out := 0.2;
              }
            }
          } else {
            out := 0.0;
            autoPhaser := false;
          }
      }
    }

    /**
     * The kill/home branch: killing relative velocity takes precedence and switches itself off
     * below 0.1 m/s; otherwise homing steers towards the offset point at the distance band's speed.
     */
    method RelativeMotionStep(v: Vec3, relativePosition: Vec3, targetDistance: real, translation: Thrust)
      returns (out: Thrust)
      modifies this`killRelativeVelocity
      ensures old(killRelativeVelocity) ==>
                out == KillThrust(v) && killRelativeVelocity == !(SquaredLength(v) < 0.01)
      ensures !old(killRelativeVelocity) ==> !killRelativeVelocity
      ensures !old(killRelativeVelocity) && homeOnRelativePosition ==>
                out == HomeThrust(relativePosition, v, VelocityGoal(targetDistance))
      ensures !old(killRelativeVelocity) && !homeOnRelativePosition ==> out == translation
    {
      out := translation;
      if killRelativeVelocity {
        out := KillThrust(v);
        if SquaredLength(v) < 0.01 {
          killRelativeVelocity := false;
        }
      } else if homeOnRelativePosition {
        out := HomeThrust(relativePosition, v, VelocityGoal(targetDistance));
      }
    }

    /**
     * The heading PID that flies the ship while fly-by-wire is on: pitch and roll get the action
     * added, yaw gets it subtracted, each clamped to [-1, 1]; the error becomes the one the burns
     * check next tick.
     */
    method FlyByWireStep(err: Vec3, dt: real, c: ShipControls) returns (out: ShipControls)
      requires HeadingErrorScaled(err) && dt > 0.0
      modifies this`headingError, this`integral, this`prevErr, this`act
      ensures headingError == err && prevErr == err && HeadingInRange()
      ensures integral == Add(old(integral), Scale(dt, err))
      ensures act == Add(Add(Scale(kp, err), Scale(ki, integral)), Scale(kd, Scale(1.0 / dt, Sub(err, old(prevErr)))))
      ensures out == c.(pitch := Clamp(c.pitch + act.x, -1.0, 1.0), yaw := Clamp(c.yaw - act.y, -1.0, 1.0),
                        roll := Clamp(c.roll + act.z, -1.0, 1.0))
    {
      headingError := err;
      integral := Add(integral, Scale(dt, headingError));
      var deriv := Scale(1.0 / dt, Sub(headingError, prevErr));
      act := Add(Add(Scale(kp, headingError), Scale(ki, integral)), Scale(kd, deriv));
      prevErr := headingError;
      out := c.(pitch := Clamp(c.pitch + act.x, -1.0, 1.0), yaw := Clamp(c.yaw - act.y, -1.0, 1.0),
                roll := Clamp(c.roll + act.z, -1.0, 1.0));
    }

    /**
     * `DriveShip`: nothing unless the selected vessel checks out; then auto-align, auto-phaser,
     * kill/home and, when flying by wire, the heading PID. A failed search ends the tick with
     * the controls written so far.
     */
    method DriveShip(ids: seq<int>, r: ShipReadings, ship: array<real>, target: array<real>, controls: ShipControls)
      returns (out: ShipControls)
      requires ApsisTables(ship[..], target[..])
      requires r.fixedDeltaTime > 0.0
      requires HeadingInRange() && HeadingErrorScaled(r.headingError)
      modifies this
      ensures HeadingInRange() && Aimed()
      ensures selectedVesselInstanceId == old(selectedVesselInstanceId)
      ensures (old(selectedVesselIndex) >= |ids| || selectedVesselInstanceId !in ids) ==>
                out == controls && autoPhaser == old(autoPhaser) && autoAlign == old(autoAlign)
                && killRelativeVelocity == old(killRelativeVelocity)
      ensures PilotIntact(old(flyByWire), flyByWire, controls, out)
      ensures StepIndex(autoPhaserState) == StepIndex(old(autoPhaserState))
              || StepIndex(autoPhaserState) == StepIndex(old(autoPhaserState)) + 1
              || (!old(autoPhaser) && !autoPhaser)
      ensures old(autoPhaser) && !autoPhaser ==> old(autoPhaserState).Step6BurnToMatchVelocity? && out.mainThrottle == 0.0
    {
      out := controls;
      var found := CheckVessel(ids);
      if !found {
        ScaledHeadingIsAimed(headingError);
        return;
      }
      out := DriveSelectedVessel(r, ship, target, controls);
    }

    /**
     * The part of `DriveShip` past the vessel check: auto-align, auto-phaser, kill/home and, when
     * flying by wire, the heading PID. A failed search ends the tick with the controls written so far.
     */
    method DriveSelectedVessel(r: ShipReadings, ship: array<real>, target: array<real>, controls: ShipControls)
      returns (out: ShipControls)
      requires ApsisTables(ship[..], target[..])
      requires r.fixedDeltaTime > 0.0
      requires HeadingInRange() && HeadingErrorScaled(r.headingError)
      modifies this`autoAlign, this`autoAlignBurnTriggered, this`flyByWire, this`pointAt,
               this`autoPhaser, this`autoPhaserState, this`autoPhaserVelocityGoal, this`autoPhaseBurnComplete,
               this`killRelativeVelocity, this`headingError, this`integral, this`prevErr, this`act
      ensures HeadingInRange() && Aimed()
      ensures PilotIntact(old(flyByWire), flyByWire, controls, out)
      ensures StepIndex(autoPhaserState) == StepIndex(old(autoPhaserState))
              || StepIndex(autoPhaserState) == StepIndex(old(autoPhaserState)) + 1
              || (!old(autoPhaser) && !autoPhaser)
      ensures old(autoPhaser) && !autoPhaser ==> old(autoPhaserState).Step6BurnToMatchVelocity? && out.mainThrottle == 0.0
    {
      out := controls;
      var throttle := AutoAlignStep(r.timeToAscendingNode, r.timeToDescendingNode, r.relativeInclination, out.mainThrottle);
      out := out.(mainThrottle := throttle);
      // The phaser's aim test reads the same stored error as auto-align's, and passes as well.
      ScaledHeadingIsAimed(headingError);
      var fault;
      throttle, fault := AutoPhaserStep(r.phaser.(aimed := Aimed()), ship, target, out.mainThrottle);
      out := out.(mainThrottle := throttle);
      if fault {
        return;
      }
      var translation := RelativeMotionStep(r.localRelativeVelocity, r.goalPointLocal, r.targetDistance, out.translation);
      out := out.(translation := translation);
      if !flyByWire {
        return;
      }
      out := FlyByWireStep(r.headingError, r.fixedDeltaTime, out);
      ScaledHeadingIsAimed(headingError);
    }
  }

  /** Without fly-by-wire the ship's rotation controls are left as the pilot set them. */
  predicate PilotIntact(wasFlying: bool, flying: bool, before: ShipControls, after: ShipControls) {
    (!wasFlying && !flying) ==> after.pitch == before.pitch && after.yaw == before.yaw && after.roll == before.roll
  }
}
