/** calculateTDOAErrorCircle in utils/HyperbolaLines.cpp: the error
    circle of TDOA positioning. The true time differences of the slave
    stations against station 0 are computed from the geometry; in each of a
    hundred iterations every one of them gets a truncated-Gaussian error,
    the noisy differences give one linear equation per slave (a simplified
    Chan linearisation), and the least-squares fix of those equations is
    kept unless the normal matrix is nearly singular. The horizontal
    deviations of the kept fixes from the target give the CEP radius as in
    ErrorCircle.

    The random generator is an input: `normals(i, j)` lists the standard
    normal values drawn, in order, for slave j's error in iteration i. */
module TdoaErrorCircle {
  import opened Common
  import ReconnaissanceDeviceModel
  import RadiationSourceModel
  import ErrorCircle
  import HyperbolaLines
  import L = Linear3

  /** Number of iterations. */
  const PointCount: nat := 100
  /** Iterations whose normal matrix has |det| below this are skipped (1e-10). */
  const SingularTolerance: real := 0.0000000001
  /** The drawn error is kept within this many sigmas of the mean. */
  const TruncationSigmas: real := 3.0
  /** TDOA positioning needs at least three stations. */
  const MinStations: nat := 3

  /** TDOAResult: the estimated points, the CEP radius and the target's
      Cartesian position; a default result has none of them. */
  datatype TdoaResult = TdoaResult(estimatedPoints: seq<Coord3>, cepRadius: real, targetPosition: Coord3)

  const DefaultTdoaResult: TdoaResult := TdoaResult([], 0.0, Coord3(0.0, 0.0, 0.0))

  // ---------------------------------------------------------------------
  // Loading and geometry

  /** The static loadDeviceInfo of HyperbolaLines.cpp: the same selection
      as ErrorCircle's (first row per name, unknown names skipped), but it
      succeeds only with at least three devices. */
  method LoadDeviceInfo(allDevices: seq<ReconnaissanceDeviceModel.Device>, deviceNames: seq<string>)
    returns (ok: bool, selectedDevices: seq<ReconnaissanceDeviceModel.Device>)
    ensures selectedDevices == ReconnaissanceDeviceModel.MatchKnownNames(allDevices, deviceNames)
    ensures ok <==> |selectedDevices| >= MinStations
  {
    var atLeastTwo, selected := ErrorCircle.LoadDeviceInfo(allDevices, deviceNames);
    selectedDevices := selected;
    ok := |selectedDevices| >= MinStations;
  }

  function StationPosition(m: Math, d: ReconnaissanceDeviceModel.Device): Coord3
  {
    ErrorCircle.Position(m, d.longitude, d.latitude, d.altitude)
  }

  /** The Cartesian positions of the devices, in order. */
  function Stations(m: Math, devices: seq<ReconnaissanceDeviceModel.Device>): (r: seq<Coord3>)
    ensures |r| == |devices|
  {
    seq(|devices|, k requires 0 <= k < |devices| => StationPosition(m, devices[k]))
  }

  /** The loop converting every selected device to Cartesian coordinates. */
  method StationPositions(m: Math, devices: seq<ReconnaissanceDeviceModel.Device>) returns (positions: seq<Coord3>)
    ensures positions == Stations(m, devices)
  {
    positions := [];
    for k := 0 to |devices|
      invariant |positions| == k
      invariant forall k' :: 0 <= k' < k ==> positions[k'] == StationPosition(m, devices[k'])
    {
      positions := positions + [StationPosition(m, devices[k])];
    }
  }

  /** The true TDOA of station i against station 0, in seconds: c times it
      is how much farther from the target station i is than station 0. */
  function TrueTdoa(m: Math, stations: seq<Coord3>, target: Coord3, i: nat): (t: real)
    requires 1 <= i < |stations|
    ensures C * t == HyperbolaLines.CalculateDistance(m, stations[i], target) -
                     HyperbolaLines.CalculateDistance(m, stations[0], target)
    ensures t > 0.0 <==> HyperbolaLines.CalculateDistance(m, stations[i], target) >
                         HyperbolaLines.CalculateDistance(m, stations[0], target)
    ensures t == 0.0 <==> HyperbolaLines.CalculateDistance(m, stations[i], target) ==
                          HyperbolaLines.CalculateDistance(m, stations[0], target)
  {
    (HyperbolaLines.CalculateDistance(m, stations[i], target) -
     HyperbolaLines.CalculateDistance(m, stations[0], target)) / C
  }

  /** One true TDOA per slave station: none without stations, N - 1 with N. */
  function TrueTdoas(m: Math, stations: seq<Coord3>, target: Coord3): (r: seq<real>)
    ensures |stations| == 0 ==> r == []
    ensures |stations| > 0 ==> |r| == |stations| - 1
  {
    if |stations| == 0 then []
    else seq(|stations| - 1, j requires 0 <= j < |stations| - 1 => TrueTdoa(m, stations, target, j + 1))
  }

  /** The loop over the slave stations computing their true TDOAs. */
  method ComputeTrueTdoas(m: Math, stations: seq<Coord3>, target: Coord3) returns (trueTdoas: seq<real>)
    ensures trueTdoas == TrueTdoas(m, stations, target)
  {
    trueTdoas := [];
    var i := 1;
    while i < |stations|
      invariant 1 <= i && (|stations| > 0 ==> i <= |stations|) && (|stations| == 0 ==> i == 1)
      invariant |trueTdoas| == i - 1
      invariant forall j :: 0 <= j < i - 1 ==> trueTdoas[j] == TrueTdoa(m, stations, target, j + 1)
    {
      var dist1 := HyperbolaLines.CalculateDistance(m, stations[0], target);
      var dist2 := HyperbolaLines.CalculateDistance(m, stations[i], target);
      trueTdoas := trueTdoas + [(dist2 - dist1) / C];
      i := i + 1;
    }
  }

  // ---------------------------------------------------------------------
  // The truncated-Gaussian error

  /** The error drawn from the standard normal value z. */
  function Drawn(mean: real, sigma: real, z: real): real
  {
    mean + sigma * z
  }

  /** The do-while loop keeps an error at most three sigma from the mean. */
  predicate Accepted(mean: real, sigma: real, error: real)
  {
    Abs(error - mean) <= TruncationSigmas * sigma
  }

  /** The error the rejection loop settles on when the normal values it
      draws are `normals`, in order; None when it would draw past them. */
  function FirstAccepted(mean: real, sigma: real, normals: seq<real>): (r: Option<real>)
    ensures r.Some? ==> Accepted(mean, sigma, r.value) &&
                        mean - TruncationSigmas * sigma <= r.value <= mean + TruncationSigmas * sigma
  {
    if |normals| == 0 then None
    else if Accepted(mean, sigma, Drawn(mean, sigma, normals[0])) then Some(Drawn(mean, sigma, normals[0]))
    else FirstAccepted(mean, sigma, normals[1..])
  }

  /** The loop ends with the first acceptable draw: it stops exactly when
      some draw is accepted, and then on the error of the first such draw. */
  lemma {:induction false} FirstAcceptedIsFirst(mean: real, sigma: real, normals: seq<real>)
    ensures FirstAccepted(mean, sigma, normals).None? <==>
              forall k :: 0 <= k < |normals| ==> !Accepted(mean, sigma, Drawn(mean, sigma, normals[k]))
    ensures FirstAccepted(mean, sigma, normals).Some? ==>
              exists k :: 0 <= k < |normals| && FirstAccepted(mean, sigma, normals).value == Drawn(mean, sigma, normals[k]) &&
                          forall k' :: 0 <= k' < k ==> !Accepted(mean, sigma, Drawn(mean, sigma, normals[k']))
  {
    if |normals| > 0 && !Accepted(mean, sigma, Drawn(mean, sigma, normals[0])) {
      var rest := normals[1..];
      FirstAcceptedIsFirst(mean, sigma, rest);
      assert forall k :: 1 <= k < |normals| ==> normals[k] == rest[k - 1];
      if FirstAccepted(mean, sigma, rest).Some? {
        var k :| 0 <= k < |rest| && FirstAccepted(mean, sigma, rest).value == Drawn(mean, sigma, rest[k]) &&
                 forall k' :: 0 <= k' < k ==> !Accepted(mean, sigma, Drawn(mean, sigma, rest[k']));
        assert forall k' :: 0 <= k' < k + 1 ==> !Accepted(mean, sigma, Drawn(mean, sigma, normals[k'])) by {
          forall k' | 0 <= k' < k + 1
            ensures !Accepted(mean, sigma, Drawn(mean, sigma, normals[k']))
          {
            if k' > 0 {
              assert normals[k'] == rest[k' - 1];
            }
          }
        }
      }
    }
  }

  /** With a negative sigma the bound 3 * sigma is negative, so no draw is
      ever accepted: the do-while loop never ends, whatever the normals. */
  lemma {:induction false} NegativeSigmaNeverAccepts(mean: real, sigma: real, normals: seq<real>)
    requires sigma < 0.0
    ensures FirstAccepted(mean, sigma, normals).None?
  {
    if |normals| > 0 {
      NegativeSigmaNeverAccepts(mean, sigma, normals[1..]);
    }
  }

  /** The do-while loop drawing one TDOA error. */
  method TruncatedError(mean: real, sigma: real, normals: seq<real>) returns (error: real)
    requires FirstAccepted(mean, sigma, normals).Some?
    ensures error == FirstAccepted(mean, sigma, normals).value
  {
    var k := 0;
    error := Drawn(mean, sigma, normals[0]);
    while !Accepted(mean, sigma, error)
      invariant 0 <= k < |normals| && error == Drawn(mean, sigma, normals[k])
      invariant FirstAccepted(mean, sigma, normals[k..]) == FirstAccepted(mean, sigma, normals)
      decreases |normals| - k
    {
      assert normals[k..][1..] == normals[k + 1..];
      k := k + 1;
      error := Drawn(mean, sigma, normals[k]);
    }
  }

  /** The error parameters, in seconds, and the normal values drawn. */
  datatype TdoaNoise = TdoaNoise(mean: real, sigma: real, normals: (nat, nat) -> seq<real>)

  /** Every error of iteration i is eventually accepted. */
  predicate IterationTerminates(noise: TdoaNoise, i: nat, slaves: nat)
  {
    forall j :: 0 <= j < slaves ==> FirstAccepted(noise.mean, noise.sigma, noise.normals(i, j)).Some?
  }

  /** Every error of the first n iterations is eventually accepted. */
  predicate Terminates(noise: TdoaNoise, n: nat, slaves: nat)
  {
    forall i :: 0 <= i < n ==> IterationTerminates(noise, i, slaves)
  }

  /** The error added to slave j's TDOA in iteration i. */
  function TdoaError(noise: TdoaNoise, i: nat, j: nat): (e: real)
    requires FirstAccepted(noise.mean, noise.sigma, noise.normals(i, j)).Some?
    ensures noise.mean - TruncationSigmas * noise.sigma <= e <= noise.mean + TruncationSigmas * noise.sigma
  {
    FirstAccepted(noise.mean, noise.sigma, noise.normals(i, j)).value
  }

  /** The TDOAs of iteration i: every true TDOA plus its drawn error. */
  function Noisy(trueTdoas: seq<real>, noise: TdoaNoise, i: nat): (r: seq<real>)
    requires IterationTerminates(noise, i, |trueTdoas|)
    ensures |r| == |trueTdoas|
  {
    seq(|trueTdoas|, j requires 0 <= j < |trueTdoas| && IterationTerminates(noise, i, |trueTdoas|) =>
          trueTdoas[j] + TdoaError(noise, i, j))
  }

  /** Every noisy TDOA is within three sigma of its true TDOA shifted by the mean. */
  lemma NoisyBounds(trueTdoas: seq<real>, noise: TdoaNoise, i: nat)
    requires IterationTerminates(noise, i, |trueTdoas|)
    ensures forall j :: 0 <= j < |trueTdoas| ==>
              Abs(Noisy(trueTdoas, noise, i)[j] - (trueTdoas[j] + noise.mean)) <= TruncationSigmas * noise.sigma
  {
    forall j | 0 <= j < |trueTdoas|
      ensures Abs(Noisy(trueTdoas, noise, i)[j] - (trueTdoas[j] + noise.mean)) <= TruncationSigmas * noise.sigma
    {
      var e := TdoaError(noise, i, j);
      assert Noisy(trueTdoas, noise, i)[j] == trueTdoas[j] + e;
    }
  }

  /** The copy of the true TDOAs to which each error is added in place. */
  method AddNoise(trueTdoas: seq<real>, noise: TdoaNoise, i: nat) returns (noisyTdoas: seq<real>)
    requires IterationTerminates(noise, i, |trueTdoas|)
    ensures noisyTdoas == Noisy(trueTdoas, noise, i)
  {
    noisyTdoas := trueTdoas;
    for j := 0 to |trueTdoas|
      invariant |noisyTdoas| == |trueTdoas|
      invariant forall j' :: 0 <= j' < j ==> noisyTdoas[j'] == trueTdoas[j'] + TdoaError(noise, i, j')
      invariant forall j' :: j <= j' < |trueTdoas| ==> noisyTdoas[j'] == trueTdoas[j']
    {
      var error := TruncatedError(noise.mean, noise.sigma, noise.normals(i, j));
      noisyTdoas := noisyTdoas[j := noisyTdoas[j] + error];
    }
  }

  // ---------------------------------------------------------------------
  // The linear equations of one iteration

  /** The equation slave station sj contributes with TDOA tdoa against the
      reference s0: d = c * tdoa, L = |s0 sj|, the row of A
      2 * (s0 - sj + d * (sj - s0) / L) and the entry of b
      |s0|^2 - |sj|^2 + d * (L - 2 * s0 . (s0 - sj) / L). */
  function Row(m: Math, s0: Coord3, sj: Coord3, tdoa: real): L.Equation
  {
    var d := C * tdoa;
    var l := HyperbolaLines.CalculateDistance(m, s0, sj);
    L.Equation(Coefficient(m, s0.p1, sj.p1, d, l), Coefficient(m, s0.p2, sj.p2, d, l),
               Coefficient(m, s0.p3, sj.p3, d, l), Constant(m, s0, sj, d, l))
  }

  /** One entry of a row of A, for reference coordinate x1 and slave coordinate x2. */
  function Coefficient(m: Math, x1: real, x2: real, d: real, l: real): real
  {
    2.0 * (x1 - x2 + m.div(d * (x2 - x1), l))
  }

  /** The entry of b. */
  function Constant(m: Math, s0: Coord3, sj: Coord3, d: real, l: real): real
  {
    s0.p1 * s0.p1 - sj.p1 * sj.p1 + s0.p2 * s0.p2 - sj.p2 * sj.p2 + s0.p3 * s0.p3 - sj.p3 * sj.p3 +
    d * (l - 2.0 * m.div(s0.p1 * (s0.p1 - sj.p1) + s0.p2 * (s0.p2 - sj.p2) + s0.p3 * (s0.p3 - sj.p3), l))
  }

  function SquaredDistance(a: Coord3, b: Coord3): real
  {
    SumSquares(a.p1 - b.p1, a.p2 - b.p2, a.p3 - b.p3)
  }

  /** (p - s0) . (sj - s0): how far along the baseline p lies, times L. */
  function Along(s0: Coord3, sj: Coord3, p: Coord3): real
  {
    (sj.p1 - s0.p1) * (p.p1 - s0.p1) + (sj.p2 - s0.p2) * (p.p2 - s0.p2) + (sj.p3 - s0.p3) * (p.p3 - s0.p3)
  }

  /** An entry of A with the division by L written as the factor k = d / L. */
  function ScaledCoefficient(x1: real, x2: real, k: real): real
  {
    2.0 * (x1 - x2 + k * (x2 - x1))
  }

  /** The entry of b with the division by L written as the factor k = d / L. */
  function ScaledConstant(s0: Coord3, sj: Coord3, d: real, l: real, k: real): real
  {
    s0.p1 * s0.p1 - sj.p1 * sj.p1 + s0.p2 * s0.p2 - sj.p2 * sj.p2 + s0.p3 * s0.p3 - sj.p3 * sj.p3 +
    (d * l - 2.0 * k * (s0.p1 * (s0.p1 - sj.p1) + s0.p2 * (s0.p2 - sj.p2) + s0.p3 * (s0.p3 - sj.p3)))
  }

  lemma DivFactor(d: real, a: real, l: real)
    requires l != 0.0
    ensures d * a / l == (d / l) * a
    ensures d * (a / l) == (d / l) * a
  {}

  /** Under exact division an entry of A is its scaled form. */
  lemma CoefficientScaled(m: Math, x1: real, x2: real, d: real, l: real)
    requires DivLawful(m) && l != 0.0
    ensures Coefficient(m, x1, x2, d, l) == ScaledCoefficient(x1, x2, d / l)
  {
    DivFactor(d, x2 - x1, l);
  }

  /** Under exact division the entry of b is its scaled form. */
  lemma ConstantScaled(m: Math, s0: Coord3, sj: Coord3, d: real, l: real)
    requires DivLawful(m) && l != 0.0
    ensures Constant(m, s0, sj, d, l) == ScaledConstant(s0, sj, d, l, d / l)
  {
    DivFactor(d, s0.p1 * (s0.p1 - sj.p1) + s0.p2 * (s0.p2 - sj.p2) + s0.p3 * (s0.p3 - sj.p3), l);
  }

  /** The part of an entry of A times a coordinate that does not carry k. */
  function Lin(x1: real, x2: real, px: real): real
  {
    2.0 * (x1 - x2) * px
  }

  /** The part of an entry of A times a coordinate that k multiplies. */
  function Proj(x1: real, x2: real, px: real): real
  {
    (x2 - x1) * px
  }

  /** The squared norms of the two stations, subtracted. */
  function Squares(s0: Coord3, sj: Coord3): real
  {
    s0.p1 * s0.p1 - sj.p1 * sj.p1 + s0.p2 * s0.p2 - sj.p2 * sj.p2 + s0.p3 * s0.p3 - sj.p3 * sj.p3
  }

  /** s0 . (s0 - sj), the sum k multiplies in the entry of b. */
  function Own(s0: Coord3, sj: Coord3): real
  {
    s0.p1 * (s0.p1 - sj.p1) + s0.p2 * (s0.p2 - sj.p2) + s0.p3 * (s0.p3 - sj.p3)
  }

  /** An entry of A times a coordinate, split into its part without k and
      its part in k. */
  lemma CoefficientSplit(x1: real, x2: real, px: real, k: real)
    ensures ScaledCoefficient(x1, x2, k) * px == Lin(x1, x2, px) + 2.0 * k * Proj(x1, x2, px)
  {}

  /** The entry of b split the same way. */
  lemma ConstantSplit(s0: Coord3, sj: Coord3, d: real, l: real, k: real)
    ensures ScaledConstant(s0, sj, d, l, k) == Squares(s0, sj) + d * l - 2.0 * k * Own(s0, sj)
  {}

  /** The part without k: the difference of the squared distances. */
  lemma SquaresPart(s0: Coord3, sj: Coord3, p: Coord3)
    ensures Lin(s0.p1, sj.p1, p.p1) + Lin(s0.p2, sj.p2, p.p2) + Lin(s0.p3, sj.p3, p.p3) - Squares(s0, sj) ==
            SquaredDistance(p, sj) - SquaredDistance(p, s0)
  {}

  /** The part in k: the projection of p - s0 on the baseline. */
  lemma AlongPart(s0: Coord3, sj: Coord3, p: Coord3)
    ensures Proj(s0.p1, sj.p1, p.p1) + Proj(s0.p2, sj.p2, p.p2) + Proj(s0.p3, sj.p3, p.p3) + Own(s0, sj) ==
            Along(s0, sj, p)
  {}

  /** The three entries of A times the coordinates of p, split into their
      parts without k and in k. */
  lemma CoefficientsSplit(s0: Coord3, sj: Coord3, p: Coord3, k: real)
    ensures ScaledCoefficient(s0.p1, sj.p1, k) * p.p1 + ScaledCoefficient(s0.p2, sj.p2, k) * p.p2 +
            ScaledCoefficient(s0.p3, sj.p3, k) * p.p3 ==
            (Lin(s0.p1, sj.p1, p.p1) + Lin(s0.p2, sj.p2, p.p2) + Lin(s0.p3, sj.p3, p.p3)) +
            2.0 * k * (Proj(s0.p1, sj.p1, p.p1) + Proj(s0.p2, sj.p2, p.p2) + Proj(s0.p3, sj.p3, p.p3))
  {
    CoefficientSplit(s0.p1, sj.p1, p.p1, k);
    CoefficientSplit(s0.p2, sj.p2, p.p2, k);
    CoefficientSplit(s0.p3, sj.p3, p.p3, k);
    SumScaled(Proj(s0.p1, sj.p1, p.p1), Proj(s0.p2, sj.p2, p.p2), Proj(s0.p3, sj.p3, p.p3), 2.0 * k);
  }

  /** A factor distributes over a sum of three. */
  lemma SumScaled(q1: real, q2: real, q3: real, f: real)
    ensures f * q1 + f * q2 + f * q3 == f * (q1 + q2 + q3)
  {}

  /** The row identity over plain reals, once every part is named. */
  lemma Glue(c: real, cb: real, lin: real, q: real, sq: real, own: real, diff: real, along: real, dl: real, k: real)
    requires c == lin + 2.0 * k * q
    requires cb == sq + dl - 2.0 * k * own
    requires lin - sq == diff
    requires q + own == along
    ensures c - cb == diff - (dl - 2.0 * k * along)
  {
    assert 2.0 * k * q + 2.0 * k * own == 2.0 * k * along;
  }

  /** The row identity for the scaled row. */
  lemma RowAlgebra(s0: Coord3, sj: Coord3, p: Coord3, d: real, l: real, k: real)
    ensures ScaledCoefficient(s0.p1, sj.p1, k) * p.p1 + ScaledCoefficient(s0.p2, sj.p2, k) * p.p2 +
            ScaledCoefficient(s0.p3, sj.p3, k) * p.p3 - ScaledConstant(s0, sj, d, l, k) ==
            (SquaredDistance(p, sj) - SquaredDistance(p, s0)) - (d * l - 2.0 * k * Along(s0, sj, p))
  {
    CoefficientsSplit(s0, sj, p, k);
    ConstantSplit(s0, sj, d, l, k);
    SquaresPart(s0, sj, p);
    AlongPart(s0, sj, p);
    Glue(ScaledCoefficient(s0.p1, sj.p1, k) * p.p1 + ScaledCoefficient(s0.p2, sj.p2, k) * p.p2 +
         ScaledCoefficient(s0.p3, sj.p3, k) * p.p3, ScaledConstant(s0, sj, d, l, k),
         Lin(s0.p1, sj.p1, p.p1) + Lin(s0.p2, sj.p2, p.p2) + Lin(s0.p3, sj.p3, p.p3),
         Proj(s0.p1, sj.p1, p.p1) + Proj(s0.p2, sj.p2, p.p2) + Proj(s0.p3, sj.p3, p.p3),
         Squares(s0, sj), Own(s0, sj), SquaredDistance(p, sj) - SquaredDistance(p, s0), Along(s0, sj, p), d * l, k);
  }

  /** The correction term of a row, with the division written as a factor. */
  lemma CorrectionScaled(d: real, l: real, a: real)
    requires l != 0.0
    ensures d * (l - 2.0 * a / l) == d * l - 2.0 * (d / l) * a
  {
    DivFactor(d, a, l);
  }

  /** What a row says about a point p: its residual is the difference of
      the squared distances from p to the two stations, less d times
      L - 2 (p - s0) . (sj - s0) / L. With d = 0 the row is exactly the
      perpendicular bisector of the two stations. */
  lemma RowResidual(m: Math, s0: Coord3, sj: Coord3, tdoa: real, p: Coord3)
    requires Lawful(m) && HyperbolaLines.CalculateDistance(m, s0, sj) != 0.0
    ensures var l := HyperbolaLines.CalculateDistance(m, s0, sj);
            L.Residual(Row(m, s0, sj, tdoa), p) ==
              (SquaredDistance(p, sj) - SquaredDistance(p, s0)) - C * tdoa * (l - 2.0 * Along(s0, sj, p) / l)
  {
    var d := C * tdoa;
    var l := HyperbolaLines.CalculateDistance(m, s0, sj);
    CoefficientScaled(m, s0.p1, sj.p1, d, l);
    CoefficientScaled(m, s0.p2, sj.p2, d, l);
    CoefficientScaled(m, s0.p3, sj.p3, d, l);
    ConstantScaled(m, s0, sj, d, l);
    RowAlgebra(s0, sj, p, d, l, d / l);
    CorrectionScaled(d, l, Along(s0, sj, p));
  }

  /** With a zero TDOA a point satisfies the row exactly when it is as far
      from the slave as from the reference station. */
  lemma RowOnBisector(m: Math, s0: Coord3, sj: Coord3, p: Coord3)
    requires Lawful(m) && HyperbolaLines.CalculateDistance(m, s0, sj) != 0.0
    ensures L.Residual(Row(m, s0, sj, 0.0), p) == 0.0 <==> SquaredDistance(p, sj) == SquaredDistance(p, s0)
  {
    RowResidual(m, s0, sj, 0.0, p);
  }

  /** The rows of one iteration, slave j giving row j. */
  function Rows(m: Math, stations: seq<Coord3>, noisy: seq<real>): (r: seq<L.Equation>)
    requires |noisy| < |stations|
    ensures |r| == |noisy|
  {
    seq(|noisy|, j requires 0 <= j < |noisy| < |stations| => Row(m, stations[0], stations[j + 1], noisy[j]))
  }

  /** The loop filling A and b. */
  method BuildRows(m: Math, stations: seq<Coord3>, noisy: seq<real>) returns (rows: seq<L.Equation>)
    requires |noisy| < |stations|
    ensures rows == Rows(m, stations, noisy)
  {
    rows := [];
    for j := 0 to |noisy|
      invariant |rows| == j
      invariant forall j' :: 0 <= j' < j ==> rows[j'] == Row(m, stations[0], stations[j' + 1], noisy[j'])
    {
      rows := rows + [Row(m, stations[0], stations[j + 1], noisy[j])];
    }
  }

  // ---------------------------------------------------------------------
  // The fix of one iteration

  /** The least-squares fix of the rows, or None when |det(A^T A)| < 1e-10. */
  function Fix(m: Math, stations: seq<Coord3>, noisy: seq<real>): Option<Coord3>
    requires |noisy| < |stations|
  {
    var rows := Rows(m, stations, noisy);
    var n := L.NormalMatrix(rows);
    if Abs(L.Det(n)) < SingularTolerance then None
    else Some(L.Solve(n, L.NormalRhs(rows)))
  }

  /** The iteration is skipped exactly when the normal matrix is nearly
      singular, and otherwise its fix solves the normal equations. */
  lemma FixSolves(m: Math, stations: seq<Coord3>, noisy: seq<real>)
    requires |noisy| < |stations|
    ensures var rows := Rows(m, stations, noisy);
            var r := Fix(m, stations, noisy);
            (r.None? <==> Abs(L.Det(L.NormalMatrix(rows))) < SingularTolerance) &&
            (r.Some? ==> L.Mul(L.NormalMatrix(rows), r.value) == L.NormalRhs(rows))
  {
    var rows := Rows(m, stations, noisy);
    if Abs(L.Det(L.NormalMatrix(rows))) >= SingularTolerance {
      L.SolveSolves(L.NormalMatrix(rows), L.NormalRhs(rows));
    }
  }

  /** A point satisfying every row is the fix whenever the iteration is
      not skipped: the normal matrix is symmetric, so the solve is unique. */
  lemma FixExact(m: Math, stations: seq<Coord3>, noisy: seq<real>, p: Coord3)
    requires |noisy| < |stations|
    requires forall j :: 0 <= j < |noisy| ==> L.Residual(Rows(m, stations, noisy)[j], p) == 0.0
    requires Abs(L.Det(L.NormalMatrix(Rows(m, stations, noisy)))) >= SingularTolerance
    ensures Fix(m, stations, noisy) == Some(p)
  {
    var rows := Rows(m, stations, noisy);
    L.NormalConsistent(rows, p);
    L.NormalMatrixShape(rows);
    L.SolveUnique(L.NormalMatrix(rows), p);
  }

  /** When every noisy TDOA is zero and no station coincides with the
      reference, the fix of a non-skipped iteration is the point as far from
      every station as from the reference. */
  lemma EquidistantFix(m: Math, stations: seq<Coord3>, noisy: seq<real>, p: Coord3)
    requires Lawful(m) && |noisy| < |stations|
    requires forall j :: 0 <= j < |noisy| ==> noisy[j] == 0.0
    requires forall j :: 1 <= j <= |noisy| ==> HyperbolaLines.CalculateDistance(m, stations[0], stations[j]) != 0.0
    requires forall j :: 1 <= j <= |noisy| ==> SquaredDistance(p, stations[j]) == SquaredDistance(p, stations[0])
    requires Abs(L.Det(L.NormalMatrix(Rows(m, stations, noisy)))) >= SingularTolerance
    ensures Fix(m, stations, noisy) == Some(p)
  {
    var rows := Rows(m, stations, noisy);
    forall j | 0 <= j < |noisy|
      ensures L.Residual(rows[j], p) == 0.0
    {
      assert rows[j] == Row(m, stations[0], stations[j + 1], 0.0);
      RowOnBisector(m, stations[0], stations[j + 1], p);
    }
    FixExact(m, stations, noisy, p);
  }

  /** One pass of the loop body: draw the errors, build the equations, form
      the normal equations on the fixed-size arrays and solve them unless
      the determinant is too small. */
  method Iteration(m: Math, stations: seq<Coord3>, trueTdoas: seq<real>, noise: TdoaNoise, i: nat)
    returns (fix: Option<Coord3>)
    requires |trueTdoas| < |stations|
    requires IterationTerminates(noise, i, |trueTdoas|)
    ensures fix == Fix(m, stations, Noisy(trueTdoas, noise, i))
  {
    var noisyTdoas := AddNoise(trueTdoas, noise, i);
    var rows := BuildRows(m, stations, noisyTdoas);
    var ata, atb := L.NormalEquations(rows);
    var n := L.M3(ata[0, 0], ata[0, 1], ata[0, 2], ata[1, 0], ata[1, 1], ata[1, 2], ata[2, 0], ata[2, 1], ata[2, 2]);
    var rhs := Coord3(atb[0], atb[1], atb[2]);
    assert n == L.NormalMatrix(rows);
    var det := L.Det(n);
    if Abs(det) < SingularTolerance {
      return None;
    }
    fix := Some(L.Solve(n, rhs));
  }

  // ---------------------------------------------------------------------
  // The hundred iterations

  /** The fix of iteration i. */
  function IterationFix(m: Math, stations: seq<Coord3>, trueTdoas: seq<real>, noise: TdoaNoise, i: nat): Option<Coord3>
    requires |trueTdoas| < |stations| && IterationTerminates(noise, i, |trueTdoas|)
  {
    Fix(m, stations, Noisy(trueTdoas, noise, i))
  }

  /** The outcomes of the first n iterations, in order. */
  function Fixes(m: Math, stations: seq<Coord3>, trueTdoas: seq<real>, noise: TdoaNoise, n: nat): (r: seq<Option<Coord3>>)
    requires |trueTdoas| < |stations| && Terminates(noise, n, |trueTdoas|)
    ensures |r| == n
  {
    seq(n, i requires 0 <= i < n && |trueTdoas| < |stations| && Terminates(noise, n, |trueTdoas|) =>
          IterationFix(m, stations, trueTdoas, noise, i))
  }

  /** The points pushed by a run of iterations: each fix that was not
      skipped, in iteration order. */
  function Kept(fixes: seq<Option<Coord3>>): seq<Coord3>
  {
    if |fixes| == 0 then []
    else
      match fixes[|fixes| - 1]
      case None => Kept(fixes[..|fixes| - 1])
      case Some(p) => Kept(fixes[..|fixes| - 1]) + [p]
  }

  /** At most one point per iteration, and exactly one when no iteration
      is skipped. */
  lemma {:induction false} KeptCount(fixes: seq<Option<Coord3>>)
    ensures |Kept(fixes)| <= |fixes|
    ensures (forall i :: 0 <= i < |fixes| ==> fixes[i].Some?) ==> |Kept(fixes)| == |fixes|
  {
    if |fixes| > 0 {
      var init := fixes[..|fixes| - 1];
      KeptCount(init);
      assert forall i :: 0 <= i < |init| ==> init[i] == fixes[i];
    }
  }

  /** A point is kept exactly when some iteration's fix is that point. */
  lemma {:induction false} KeptFromFixes(fixes: seq<Option<Coord3>>)
    ensures forall q :: q in Kept(fixes) <==> Some(q) in fixes
  {
    if |fixes| > 0 {
      var init := fixes[..|fixes| - 1];
      KeptFromFixes(init);
      assert fixes == init + [fixes[|fixes| - 1]];
    }
  }

  /** The kept points keep the order of the iterations: the points of an
      earlier run are a prefix of those of a longer one. */
  lemma {:induction false} KeptPrefix(fixes: seq<Option<Coord3>>, n: nat)
    requires n <= |fixes|
    ensures Kept(fixes[..n]) <= Kept(fixes)
  {
    if n < |fixes| {
      var init := fixes[..|fixes| - 1];
      KeptPrefix(init, n);
      assert init[..n] == fixes[..n];
    } else {
      assert fixes[..n] == fixes;
    }
  }

  /** The estimated points of the first n iterations. */
  function Estimates(m: Math, stations: seq<Coord3>, trueTdoas: seq<real>, noise: TdoaNoise, n: nat): seq<Coord3>
    requires |trueTdoas| < |stations| && Terminates(noise, n, |trueTdoas|)
  {
    Kept(Fixes(m, stations, trueTdoas, noise, n))
  }

  /** The horizontal deviation of a fix from the target. */
  function Deviation(p: Coord3, target: Coord3): (d: Coord3)
    ensures d.p3 == 0.0
  {
    Coord3(p.p1 - target.p1, p.p2 - target.p2, 0.0)
  }

  function Deviations(points: seq<Coord3>, target: Coord3): (r: seq<Coord3>)
    ensures |r| == |points|
  {
    seq(|points|, k requires 0 <= k < |points| => Deviation(points[k], target))
  }

  /** The CEP radius of a list of deviations, as ErrorCircle computes it;
      never negative. */
  function Cep(m: Math, deviations: seq<Coord3>): (r: real)
    requires Lawful(m)
    ensures r >= 0.0
  {
    var c := ErrorCircle.Covariance(m, deviations);
    var (eig1, eig2) := ErrorCircle.Eigenvalues(m, c);
    ErrorCircle.CepRadius(m, eig1, eig2)
  }

  /** The iteration loop: the kept fixes and their deviations, pushed in order. */
  method EstimatePoints(m: Math, stations: seq<Coord3>, target: Coord3, trueTdoas: seq<real>, noise: TdoaNoise)
    returns (deviations: seq<Coord3>, estimatedPoints: seq<Coord3>)
    requires |trueTdoas| < |stations| && Terminates(noise, PointCount, |trueTdoas|)
    ensures estimatedPoints == Estimates(m, stations, trueTdoas, noise, PointCount)
    ensures deviations == Deviations(estimatedPoints, target)
  {
    ghost var fixes := Fixes(m, stations, trueTdoas, noise, PointCount);
    deviations := [];
    estimatedPoints := [];
    for i := 0 to PointCount
      invariant estimatedPoints == Kept(fixes[..i])
      invariant |deviations| == |estimatedPoints|
      invariant forall k :: 0 <= k < |deviations| ==> deviations[k] == Deviation(estimatedPoints[k], target)
    {
      var fix := Iteration(m, stations, trueTdoas, noise, i);
      assert fix == fixes[i];
      assert fixes[..i + 1][..i] == fixes[..i];
      if fix.Some? {
        var p := fix.value;
        deviations := deviations + [Coord3(p.p1 - target.p1, p.p2 - target.p2, 0.0)];
        estimatedPoints := estimatedPoints + [p];
      }
    }
    assert fixes[..PointCount] == fixes;
  }

  /** The stations, target and true TDOAs of a successful load. */
  function Geometry(m: Math, selectedDevices: seq<ReconnaissanceDeviceModel.Device>, source: RadiationSourceModel.Source)
    : (Coord3, seq<Coord3>, seq<real>)
  {
    var stations := Stations(m, selectedDevices);
    var target := ErrorCircle.Position(m, source.longitude, source.latitude, source.altitude);
    (target, stations, TrueTdoas(m, stations, target))
  }

  /** calculateTDOAErrorCircle. Fewer than three named devices or no named
      source give the default result. Otherwise the estimated points are
      the fixes of the iterations not skipped, at most one hundred, the
      target is the source's Cartesian position and the CEP radius is that
      of the fixes' deviations, never negative. */
  method CalculateTdoaErrorCircle(m: Math, allDevices: seq<ReconnaissanceDeviceModel.Device>,
                                  allSources: seq<RadiationSourceModel.Source>, deviceNames: seq<string>,
                                  sourceName: string, noise: TdoaNoise)
    returns (result: TdoaResult)
    requires Lawful(m)
    requires |ReconnaissanceDeviceModel.MatchKnownNames(allDevices, deviceNames)| >= MinStations ==>
               Terminates(noise, PointCount, |ReconnaissanceDeviceModel.MatchKnownNames(allDevices, deviceNames)| - 1)
    ensures |ReconnaissanceDeviceModel.MatchKnownNames(allDevices, deviceNames)| < MinStations ||
            RadiationSourceModel.FindByName(allSources, sourceName).None? ==>
              result == DefaultTdoaResult
    ensures |ReconnaissanceDeviceModel.MatchKnownNames(allDevices, deviceNames)| >= MinStations &&
            RadiationSourceModel.FindByName(allSources, sourceName).Some? ==>
              var (target, stations, trueTdoas) :=
                Geometry(m, ReconnaissanceDeviceModel.MatchKnownNames(allDevices, deviceNames),
                         RadiationSourceModel.FindByName(allSources, sourceName).value);
              result.targetPosition == target &&
              result.estimatedPoints == Estimates(m, stations, trueTdoas, noise, PointCount) &&
              |result.estimatedPoints| <= PointCount &&
              result.cepRadius == Cep(m, Deviations(result.estimatedPoints, target)) &&
              result.cepRadius >= 0.0
  {
    var devicesOk, selectedDevices := LoadDeviceInfo(allDevices, deviceNames);
    if !devicesOk {
      return DefaultTdoaResult;
    }
    var (sourceOk, source) := ErrorCircle.LoadSourceInfo(allSources, sourceName, RadiationSourceModel.DefaultSource);
    if !sourceOk {
      return DefaultTdoaResult;
    }
    var stationPositions := StationPositions(m, selectedDevices);
    var targetCart := ErrorCircle.Position(m, source.longitude, source.latitude, source.altitude);
    var trueTdoas := ComputeTrueTdoas(m, stationPositions, targetCart);
    var deviations, estimatedPoints := EstimatePoints(m, stationPositions, targetCart, trueTdoas, noise);
    KeptCount(Fixes(m, stationPositions, trueTdoas, noise, PointCount));
    var cov00, cov01, cov11 := ErrorCircle.ComputeCovariance2x2(m, deviations);
    var (eig1, eig2) := ErrorCircle.Eigenvalues(m, ErrorCircle.Covariance2(cov00, cov01, cov11));
    var cepRadius := ErrorCircle.CepRadius(m, eig1, eig2);
    result := TdoaResult(estimatedPoints, cepRadius, targetCart);
  }
}
