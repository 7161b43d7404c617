/** src/data_processor.cpp: the evaluation side's target intelligence
    lists (sorting, deleting, filtering located points) and the distance,
    time and accuracy statistics computed over them. */
module DataProcessor {
  import opened Common

  /** LocationResult: one located point of a target. */
  datatype LocationResult = LocationResult(
    position: Coord3, power: real, directionError: real, parameterError: real, time: real)

  /** TargetIntelligence as a value, as the statistics read it through a
      const reference. */
  datatype Target = Target(
    id: int, name: string, locations: seq<LocationResult>, referencePosition: Coord3,
    isSelected: bool, isHighlighted: bool)

  /** TargetIntelligence as the object the editing operations change in place. */
  class TargetIntelligence {
    var id: int
    var name: string
    var locations: seq<LocationResult>
    var referencePosition: Coord3
    var isSelected: bool
    var isHighlighted: bool

    function Snapshot(): Target
      reads this
    {
      Target(id, name, locations, referencePosition, isSelected, isHighlighted)
    }

    constructor FromValue(t: Target)
      ensures Snapshot() == t
    {
      id, name, locations := t.id, t.name, t.locations;
      referencePosition, isSelected, isHighlighted := t.referencePosition, t.isSelected, t.isHighlighted;
    }
  }

  /** Distance of a located point from the target's reference position. */
  function ErrorOf(m: Math, reference: Coord3, l: LocationResult): real
  {
    Distance(m, reference, l.position)
  }

  // ---------------------------------------------------------------------
  // Sorting by time (organizeData)

  predicate SortedByTime(xs: seq<LocationResult>)
  {
    forall i, j :: 0 <= i < j < |xs| ==> xs[i].time <= xs[j].time
  }

  function InsertByTime(x: LocationResult, xs: seq<LocationResult>): seq<LocationResult>
  {
    if |xs| == 0 || x.time <= xs[0].time then [x] + xs else [xs[0]] + InsertByTime(x, xs[1..])
  }

  /** An insertion sort; any ordering of equal times is acceptable, as
      std::sort promises none. */
  function SortByTime(xs: seq<LocationResult>): seq<LocationResult>
  {
    if |xs| == 0 then [] else InsertByTime(xs[0], SortByTime(xs[1..]))
  }

  lemma {:induction false} InsertByTimeCorrect(x: LocationResult, xs: seq<LocationResult>)
    requires SortedByTime(xs)
    ensures SortedByTime(InsertByTime(x, xs))
    ensures multiset(InsertByTime(x, xs)) == multiset(xs) + multiset{x}
  {
    if |xs| > 0 && x.time > xs[0].time {
      var rest := xs[1..];
      InsertByTimeCorrect(x, rest);
      InsertKeepsLowerBound(x, rest, xs[0].time);
      assert xs == [xs[0]] + rest;
    }
  }

  /** Inserting into a list whose times are all at least `b` an element whose
      time is at least `b` keeps every time at least `b`. */
  lemma {:induction false} InsertKeepsLowerBound(x: LocationResult, xs: seq<LocationResult>, b: real)
    requires b <= x.time && forall k :: 0 <= k < |xs| ==> b <= xs[k].time
    ensures forall k :: 0 <= k < |InsertByTime(x, xs)| ==> b <= InsertByTime(x, xs)[k].time
  {
    if |xs| > 0 && x.time > xs[0].time {
      InsertKeepsLowerBound(x, xs[1..], b);
    }
  }

  /** The sort yields the same points in ascending time order. */
  lemma {:induction false} SortByTimeCorrect(xs: seq<LocationResult>)
    ensures SortedByTime(SortByTime(xs))
    ensures multiset(SortByTime(xs)) == multiset(xs)
  {
    if |xs| > 0 {
      SortByTimeCorrect(xs[1..]);
      InsertByTimeCorrect(xs[0], SortByTime(xs[1..]));
      assert xs == [xs[0]] + xs[1..];
    }
  }

  // ---------------------------------------------------------------------
  // Filtering by distance (removeAnomalies)

  /** The points within `threshold` of the reference, in their order. */
  function KeepNear(m: Math, reference: Coord3, xs: seq<LocationResult>, threshold: real): seq<LocationResult>
  {
    if |xs| == 0 then []
    else
      var init := KeepNear(m, reference, xs[..|xs| - 1], threshold);
      if ErrorOf(m, reference, xs[|xs| - 1]) > threshold then init else init + [xs[|xs| - 1]]
  }

  /** Exactly the points within the threshold survive, no point is
      duplicated, and survivors keep their relative order. */
  lemma {:induction false} KeepNearMeaning(m: Math, reference: Coord3, xs: seq<LocationResult>, threshold: real)
    ensures forall y :: y in KeepNear(m, reference, xs, threshold) <==>
                          y in xs && ErrorOf(m, reference, y) <= threshold
    ensures multiset(KeepNear(m, reference, xs, threshold)) <= multiset(xs)
    ensures IsSubsequence(KeepNear(m, reference, xs, threshold), xs)
  {
    if |xs| > 0 {
      var init := xs[..|xs| - 1];
      KeepNearMeaning(m, reference, init, threshold);
      assert xs == init + [xs[|xs| - 1]];
      SubsequenceExtend(KeepNear(m, reference, init, threshold), init, xs[|xs| - 1]);
    }
  }

  /** `ys` is `xs` with some elements left out. */
  ghost predicate IsSubsequence(ys: seq<LocationResult>, xs: seq<LocationResult>)
  {
    exists f: seq<nat> :: |f| == |ys| && (forall k :: 0 <= k < |f| ==> f[k] < |xs| && xs[f[k]] == ys[k]) &&
                          forall k, l :: 0 <= k < l < |f| ==> f[k] < f[l]
  }

  lemma SubsequenceExtend(ys: seq<LocationResult>, xs: seq<LocationResult>, x: LocationResult)
    requires IsSubsequence(ys, xs)
    ensures IsSubsequence(ys, xs + [x])
    ensures IsSubsequence(ys + [x], xs + [x])
  {
    var f: seq<nat> :| |f| == |ys| && (forall k :: 0 <= k < |f| ==> f[k] < |xs| && xs[f[k]] == ys[k]) &&
                       forall k, l :: 0 <= k < l < |f| ==> f[k] < f[l];
    var xs' := xs + [x];
    assert forall k :: 0 <= k < |f| ==> f[k] < |xs'| && xs'[f[k]] == ys[k];
    var g := f + [|xs|];
    assert forall k :: 0 <= k < |g| ==> g[k] < |xs'| && xs'[g[k]] == (ys + [x])[k];
  }

  // ---------------------------------------------------------------------
  // Statistics, each folded left to right as the loops do

  function MaxError(m: Math, reference: Coord3, xs: seq<LocationResult>): real
  {
    if |xs| == 0 then 0.0 else Max(MaxError(m, reference, xs[..|xs| - 1]), ErrorOf(m, reference, xs[|xs| - 1]))
  }

  function SumTime(xs: seq<LocationResult>): real
  {
    if |xs| == 0 then 0.0 else SumTime(xs[..|xs| - 1]) + xs[|xs| - 1].time
  }

  function SumError(m: Math, reference: Coord3, xs: seq<LocationResult>): real
  {
    if |xs| == 0 then 0.0 else SumError(m, reference, xs[..|xs| - 1]) + ErrorOf(m, reference, xs[|xs| - 1])
  }

  function SumDirectionError(xs: seq<LocationResult>): real
  {
    if |xs| == 0 then 0.0 else SumDirectionError(xs[..|xs| - 1]) + xs[|xs| - 1].directionError
  }

  /** `total / n`, or 0 for no elements. */
  function Mean(total: real, n: nat): real
  {
    if n == 0 then 0.0 else total / (n as real)
  }

  /** The largest distance starts from 0, so it is at least 0 and at least
      every point's distance, and is either 0 or one of those distances. */
  lemma {:induction false} MaxErrorMeaning(m: Math, reference: Coord3, xs: seq<LocationResult>)
    ensures MaxError(m, reference, xs) >= 0.0
    ensures forall i :: 0 <= i < |xs| ==> ErrorOf(m, reference, xs[i]) <= MaxError(m, reference, xs)
    ensures MaxError(m, reference, xs) == 0.0 ||
            exists i :: 0 <= i < |xs| && MaxError(m, reference, xs) == ErrorOf(m, reference, xs[i])
  {
    if |xs| > 0 {
      var init := xs[..|xs| - 1];
      MaxErrorMeaning(m, reference, init);
      assert forall i :: 0 <= i < |init| ==> init[i] == xs[i];
    }
  }

  /** The mean of values that all lie in [lo, hi] lies in [lo, hi]. */
  lemma {:induction false} SumTimeBounds(xs: seq<LocationResult>, lo: real, hi: real)
    requires forall i :: 0 <= i < |xs| ==> lo <= xs[i].time <= hi
    ensures (|xs| as real) * lo <= SumTime(xs) <= (|xs| as real) * hi
  {
    if |xs| > 0 {
      var init := xs[..|xs| - 1];
      assert forall i :: 0 <= i < |init| ==> init[i] == xs[i];
      SumTimeBounds(init, lo, hi);
      assert (|xs| as real) * lo == (|init| as real) * lo + lo;
      assert (|xs| as real) * hi == (|init| as real) * hi + hi;
    }
  }

  lemma MeanBounds(total: real, n: nat, lo: real, hi: real)
    requires n > 0 && (n as real) * lo <= total <= (n as real) * hi
    ensures lo <= Mean(total, n) <= hi
  {
    var r := total / (n as real);
    assert r * (n as real) == total;
    if r < lo {
      assert r * (n as real) < lo * (n as real);
    }
    if r > hi {
      assert r * (n as real) > hi * (n as real);
    }
  }

  lemma AverageTimeBounds(xs: seq<LocationResult>, lo: real, hi: real)
    requires |xs| > 0
    requires forall i :: 0 <= i < |xs| ==> lo <= xs[i].time <= hi
    ensures lo <= Mean(SumTime(xs), |xs|) <= hi
  {
    SumTimeBounds(xs, lo, hi);
    MeanBounds(SumTime(xs), |xs|, lo, hi);
  }

  /** Over all targets: the total number of located points, their total
      time and their total distance from each target's reference. */
  function CountAll(ts: seq<Target>): nat
  {
    if |ts| == 0 then 0 else CountAll(ts[..|ts| - 1]) + |ts[|ts| - 1].locations|
  }

  function SumTimeAll(ts: seq<Target>): real
  {
    if |ts| == 0 then 0.0 else SumTimeAll(ts[..|ts| - 1]) + SumTime(ts[|ts| - 1].locations)
  }

  function SumErrorAll(m: Math, ts: seq<Target>): real
  {
    if |ts| == 0 then 0.0
    else SumErrorAll(m, ts[..|ts| - 1]) + SumError(m, ts[|ts| - 1].referencePosition, ts[|ts| - 1].locations)
  }

  function MaxErrorAll(m: Math, ts: seq<Target>): real
  {
    if |ts| == 0 then 0.0
    else Max(MaxErrorAll(m, ts[..|ts| - 1]), MaxError(m, ts[|ts| - 1].referencePosition, ts[|ts| - 1].locations))
  }

  /** Re-weighting a mean by its count gives back the total. */
  lemma MeanTimesCount(total: real, n: nat)
    ensures Mean(total, n) * (n as real) == (if n == 0 then 0.0 else total)
  {
  }

  /** The multi-target largest distance bounds every point of every target. */
  lemma {:induction false} MaxErrorAllBound(m: Math, ts: seq<Target>)
    ensures MaxErrorAll(m, ts) >= 0.0
    ensures forall t, i :: t in ts && 0 <= i < |t.locations| ==>
              ErrorOf(m, t.referencePosition, t.locations[i]) <= MaxErrorAll(m, ts)
  {
    if |ts| > 0 {
      var init := ts[..|ts| - 1];
      var last := ts[|ts| - 1];
      MaxErrorAllBound(m, init);
      MaxErrorMeaning(m, last.referencePosition, last.locations);
      assert forall t :: t in ts ==> t in init || t == last;
    }
  }

  class DataProcessor {
    /** m_referencePoints. */
    var referencePoints: map<string, Coord3>

    constructor ()
      ensures referencePoints == map[]
    {
      referencePoints := map[];
    }

    /** loadReferenceData: the file is not read; three fixed points are
        stored and the call succeeds. */
    method LoadReferenceData(filename: string) returns (ok: bool)
      modifies this
      ensures referencePoints == old(referencePoints)["Point1" := Coord3(100.0, 100.0, 0.0)]
                                                    ["Point2" := Coord3(200.0, 200.0, 0.0)]
                                                    ["Point3" := Coord3(300.0, 300.0, 0.0)]
      ensures ok
    {
      referencePoints := referencePoints["Point1" := Coord3(100.0, 100.0, 0.0)];
      referencePoints := referencePoints["Point2" := Coord3(200.0, 200.0, 0.0)];
      referencePoints := referencePoints["Point3" := Coord3(300.0, 300.0, 0.0)];
      ok := true;
    }

    /** addReferencePoint: insert or overwrite the named point. */
    method AddReferencePoint(name: string, position: Coord3)
      modifies this
      ensures referencePoints == old(referencePoints)[name := position]
      ensures name in referencePoints && referencePoints[name] == position
      ensures forall k :: k in old(referencePoints) && k != name ==> k in referencePoints && referencePoints[k] == old(referencePoints)[k]
    {
      referencePoints := referencePoints[name := position];
    }

    /** selectData: all the given points become target 1, selected. */
    method SelectData(data: seq<LocationResult>, referencePosition: Coord3) returns (target: Target)
      ensures target == Target(1, "Target1", data, referencePosition, true, false)
    {
      target := Target(1, "Target1", data, referencePosition, true, false);
    }

    /** organizeData: std::sort by ascending time. */
    method OrganizeData(target: TargetIntelligence)
      modifies target
      ensures SortedByTime(target.locations)
      ensures multiset(target.locations) == multiset(old(target.locations))
      ensures target.Snapshot() == old(target.Snapshot()).(locations := target.locations)
    {
      SortByTimeCorrect(target.locations);
      target.locations := SortByTime(target.locations);
    }

    /** deleteDataPoint: erase the point at a valid index; any other index
        is ignored. */
    method DeleteDataPoint(target: TargetIntelligence, index: int)
      modifies target
      ensures 0 <= index < |old(target.locations)| ==>
                target.locations == old(target.locations)[..index] + old(target.locations)[index + 1..]
      ensures !(0 <= index < |old(target.locations)|) ==> target.locations == old(target.locations)
      ensures target.Snapshot() == old(target.Snapshot()).(locations := target.locations)
    {
      if index >= 0 && index < |target.locations| {
        target.locations := target.locations[..index] + target.locations[index + 1..];
      }
    }

    /** highlightDataPoint: the index is ignored and the whole target is
        marked highlighted. */
    method HighlightDataPoint(target: TargetIntelligence, index: int)
      modifies target
      ensures target.Snapshot() == old(target.Snapshot()).(isHighlighted := true)
    {
      target.isHighlighted := true;
    }

    /** removeAnomalies: std::remove_if of every point farther than
        `threshold` from the reference position, then erase. */
    method RemoveAnomalies(m: Math, target: TargetIntelligence, threshold: real)
      modifies target
      ensures target.locations == KeepNear(m, old(target.referencePosition), old(target.locations), threshold)
      ensures target.Snapshot() == old(target.Snapshot()).(locations := target.locations)
    {
      var kept: seq<LocationResult> := [];
      var i := 0;
      while i < |target.locations|
        invariant 0 <= i <= |target.locations|
        invariant kept == KeepNear(m, target.referencePosition, target.locations[..i], threshold)
      {
        var location := target.locations[i];
        assert target.locations[..i + 1][..i] == target.locations[..i];
        if ErrorOf(m, target.referencePosition, location) <= threshold {
          kept := kept + [location];
        }
        i := i + 1;
      }
      assert target.locations[..i] == target.locations;
      target.locations := kept;
    }

    /** calculateSinglePlatformMetrics: the largest distance and the mean time. */
    method CalculateSinglePlatformMetrics(m: Math, target: Target) returns (maxDistance: real, avgTime: real)
      ensures maxDistance == MaxError(m, target.referencePosition, target.locations)
      ensures avgTime == Mean(SumTime(target.locations), |target.locations|)
    {
      var locations := target.locations;
      maxDistance := 0.0;
      var totalTime := 0.0;
      var i := 0;
      while i < |locations|
        invariant 0 <= i <= |locations|
        invariant maxDistance == MaxError(m, target.referencePosition, locations[..i])
        invariant totalTime == SumTime(locations[..i])
      {
        assert locations[..i + 1][..i] == locations[..i];
        maxDistance := Max(maxDistance, ErrorOf(m, target.referencePosition, locations[i]));
        totalTime := totalTime + locations[i].time;
        i := i + 1;
      }
      assert locations[..i] == locations;
      avgTime := if |locations| == 0 then 0.0 else totalTime / (|locations| as real);
    }

    /** calculateMultiPlatformMetrics: the largest distance over all
        targets and the mean time weighted by each target's point count. */
    method CalculateMultiPlatformMetrics(m: Math, targets: seq<Target>) returns (maxDistance: real, avgTime: real)
      ensures maxDistance == MaxErrorAll(m, targets)
      ensures avgTime == Mean(SumTimeAll(targets), CountAll(targets))
    {
      maxDistance := 0.0;
      var totalTime := 0.0;
      var totalLocations := 0;
      var i := 0;
      while i < |targets|
        invariant 0 <= i <= |targets|
        invariant maxDistance == MaxErrorAll(m, targets[..i])
        invariant totalTime == SumTimeAll(targets[..i])
        invariant totalLocations == CountAll(targets[..i])
      {
        assert targets[..i + 1][..i] == targets[..i];
        var first, second := CalculateSinglePlatformMetrics(m, targets[i]);
        maxDistance := Max(maxDistance, first);
        MeanTimesCount(SumTime(targets[i].locations), |targets[i].locations|);
        totalTime := totalTime + second * (|targets[i].locations| as real);
        totalLocations := totalLocations + |targets[i].locations|;
        i := i + 1;
      }
      assert targets[..i] == targets;
      avgTime := if totalLocations > 0 then totalTime / (totalLocations as real) else 0.0;
    }

    /** calculateSinglePlatformAccuracy: the mean distance and the mean
        direction-finding error, (0, 0) for a target without points. */
    method CalculateSinglePlatformAccuracy(m: Math, target: Target) returns (avgPositionError: real, avgDirectionError: real)
      ensures avgPositionError == Mean(SumError(m, target.referencePosition, target.locations), |target.locations|)
      ensures avgDirectionError == Mean(SumDirectionError(target.locations), |target.locations|)
    {
      var locations := target.locations;
      var positionError := 0.0;
      var directionError := 0.0;
      var i := 0;
      while i < |locations|
        invariant 0 <= i <= |locations|
        invariant positionError == SumError(m, target.referencePosition, locations[..i])
        invariant directionError == SumDirectionError(locations[..i])
      {
        assert locations[..i + 1][..i] == locations[..i];
        positionError := positionError + ErrorOf(m, target.referencePosition, locations[i]);
        directionError := directionError + locations[i].directionError;
        i := i + 1;
      }
      assert locations[..i] == locations;
      avgPositionError := if |locations| == 0 then 0.0 else positionError / (|locations| as real);
      avgDirectionError := if |locations| == 0 then 0.0 else directionError / (|locations| as real);
    }

    /** calculateMultiPlatformAccuracy: each target's mean distance weighted
        by its point count, which is the mean distance over all points. */
    method CalculateMultiPlatformAccuracy(m: Math, targets: seq<Target>) returns (avgError: real)
      ensures avgError == Mean(SumErrorAll(m, targets), CountAll(targets))
    {
      var totalError := 0.0;
      var totalLocations := 0;
      var i := 0;
      while i < |targets|
        invariant 0 <= i <= |targets|
        invariant totalError == SumErrorAll(m, targets[..i])
        invariant totalLocations == CountAll(targets[..i])
      {
        assert targets[..i + 1][..i] == targets[..i];
        var first, second := CalculateSinglePlatformAccuracy(m, targets[i]);
        MeanTimesCount(SumError(m, targets[i].referencePosition, targets[i].locations), |targets[i].locations|);
        totalError := totalError + first * (|targets[i].locations| as real);
        totalLocations := totalLocations + |targets[i].locations|;
        i := i + 1;
      }
      assert targets[..i] == targets;
      avgError := if totalLocations > 0 then totalError / (totalLocations as real) else 0.0;
    }

    /** getAccuracyOverTime: each point's distance keyed by its time. */
    method GetAccuracyOverTime(m: Math, target: Target) returns (accuracyOverTime: map<real, real>)
      ensures accuracyOverTime == AccuracyMap(m, target.referencePosition, target.locations)
    {
      var locations := target.locations;
      accuracyOverTime := map[];
      var i := 0;
      while i < |locations|
        invariant 0 <= i <= |locations|
        invariant accuracyOverTime == AccuracyMap(m, target.referencePosition, locations[..i])
      {
        assert locations[..i + 1][..i] == locations[..i];
        accuracyOverTime := accuracyOverTime[locations[i].time := ErrorOf(m, target.referencePosition, locations[i])];
        i := i + 1;
      }
      assert locations[..i] == locations;
    }
  }

  /** The map after assigning every point in order. */
  function AccuracyMap(m: Math, reference: Coord3, xs: seq<LocationResult>): map<real, real>
  {
    if |xs| == 0 then map[]
    else AccuracyMap(m, reference, xs[..|xs| - 1])[xs[|xs| - 1].time := ErrorOf(m, reference, xs[|xs| - 1])]
  }

  /** The keys are exactly the points' times, and each time maps to the
      distance of the last point carrying it. */
  lemma {:induction false} AccuracyMapKeys(m: Math, reference: Coord3, xs: seq<LocationResult>)
    ensures forall t :: t in AccuracyMap(m, reference, xs) <==> exists i :: 0 <= i < |xs| && xs[i].time == t
  {
    if |xs| > 0 {
      var init := xs[..|xs| - 1];
      AccuracyMapKeys(m, reference, init);
      assert forall i :: 0 <= i < |init| ==> init[i] == xs[i];
    }
  }

  lemma {:induction false} AccuracyMapLastWins(m: Math, reference: Coord3, xs: seq<LocationResult>, i: nat)
    requires i < |xs| && forall j :: i < j < |xs| ==> xs[j].time != xs[i].time
    ensures xs[i].time in AccuracyMap(m, reference, xs)
    ensures AccuracyMap(m, reference, xs)[xs[i].time] == ErrorOf(m, reference, xs[i])
  {
    if i < |xs| - 1 {
      var init := xs[..|xs| - 1];
      assert init[i] == xs[i];
      assert forall j :: i < j < |init| ==> init[j] == xs[j];
      AccuracyMapLastWins(m, reference, init, i);
    }
  }

  /** The weighted mean time over several targets is the mean over all
      their points together. */
  lemma {:induction false} SumTimeAllIsConcatenation(ts: seq<Target>)
    ensures SumTimeAll(ts) == SumTime(Flatten(ts))
    ensures CountAll(ts) == |Flatten(ts)|
  {
    if |ts| > 0 {
      SumTimeAllIsConcatenation(ts[..|ts| - 1]);
      SumTimeAppend(Flatten(ts[..|ts| - 1]), ts[|ts| - 1].locations);
    }
  }

  /** All targets' points, target after target. */
  function Flatten(ts: seq<Target>): seq<LocationResult>
  {
    if |ts| == 0 then [] else Flatten(ts[..|ts| - 1]) + ts[|ts| - 1].locations
  }

  lemma {:induction false} SumTimeAppend(xs: seq<LocationResult>, ys: seq<LocationResult>)
    ensures SumTime(xs + ys) == SumTime(xs) + SumTime(ys)
  {
    if |ys| > 0 {
      var ys' := ys[..|ys| - 1];
      SumTimeAppend(xs, ys');
      assert (xs + ys)[..|xs + ys| - 1] == xs + ys';
      assert (xs + ys)[|xs + ys| - 1] == ys[|ys| - 1];
    } else {
      assert xs + ys == xs;
    }
  }
}
