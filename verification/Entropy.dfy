/**
 The entropy score of a repository: severities per component, scaled by their number, weighted,
 rounded and projected.

 Over the reals; ties round to the even digit.  A component's level depends on the number of its
 severities and their sum only, so buckets can be gone through in any order.
 */
module Entropy {
  import opened Options
  import opened Rounding
  import Drift

  datatype Component = Architecture | Maintainability | Knowledge | Testing | Dependency | Operational

  const COMPONENTS := [Architecture, Maintainability, Knowledge, Testing, Dependency, Operational]

  lemma {:induction false} Everywhere(c: Component) returns (at: nat)
    ensures at < |COMPONENTS| && COMPONENTS[at] == c
  {
    at := match c
      case Architecture => 0
      case Maintainability => 1
      case Knowledge => 2
      case Testing => 3
      case Dependency => 4
      case Operational => 5;
  }

  // Which component a bucket of signals counts for.
  function ComponentOf(b: Drift.Bucket): Component {
    match b
    case DependencyCycles => Architecture
    case Hotspots | DeadCode => Maintainability
    case OwnershipRisks => Knowledge
    case TestGaps => Testing
    case DependencyRisks => Dependency
    case CiFailures => Operational
  }

  // Weights in hundredths; they add up to 100.
  function Percent(c: Component): nat {
    match c
    case Architecture | Maintainability => 25
    case Knowledge | Testing => 15
    case Dependency | Operational => 10
  }

  function Weight(c: Component): real {
    Percent(c) as real / 100.0
  }

  // A signal: its severity label in lower case, and the numbers it may carry.
  datatype Signal = Signal(severity: string, lowHealth: bool, score: Option<real>, confidence: Option<real>)

  function Clamp(x: real, low: real, high: real): real {
    var y := if high < x then high else x;
    if y > low then y else low
  }

  function LabelSeverity(name: string): Option<real> {
    if name == "low" || name == "minor" then Some(0.3)
    else if name == "medium" || name == "moderate" then Some(0.5)
    else if name == "high" || name == "major" then Some(0.75)
    else if name == "critical" || name == "blocker" then Some(0.95)
    else None
  }

  function Severity(s: Signal): (r: real)
    ensures 0.0 <= r <= 1.0
  {
    if LabelSeverity(s.severity).Some? then LabelSeverity(s.severity).value
    else if s.lowHealth && s.score.Some? then Clamp((10.0 - s.score.value) / 10.0, 0.0, 1.0)
    else if s.confidence.Some? then Clamp(s.confidence.value, 0.0, 1.0)
    else if s.score.Some? then Clamp(s.score.value / 10.0, 0.0, 1.0)
    else 0.5
  }

  const GRADES := [{"low", "minor"}, {"medium", "moderate"}, {"high", "major"}, {"critical", "blocker"}]

  // The label's place from low to critical.
  ghost predicate Graded(s: Signal, grade: nat) {
    grade < |GRADES| && s.severity in GRADES[grade]
  }

  ghost predicate Ungraded(s: Signal) {
    forall grade: nat :: !Graded(s, grade)
  }

  // A higher grade is worse, and labels of one grade weigh the same whatever numbers come along.
  lemma {:induction false} GradesRise(s: Signal, t: Signal, i: nat, j: nat)
    requires Graded(s, i) && Graded(t, j)
    ensures i < j <==> Severity(s) < Severity(t)
  {
    GradeValue(s, i);
    GradeValue(t, j);
  }

  lemma {:induction false} GradeValue(s: Signal, i: nat)
    requires Graded(s, i)
    ensures Severity(s) == [0.3, 0.5, 0.75, 0.95][i]
  {
  }

  // Without a known label the numbers decide: a low health score is worse the lower it is, then
  // comes the confidence, then any score out of ten, and one half without any.
  lemma {:induction false} NumbersDecide(s: Signal)
    requires Ungraded(s)
    ensures s.lowHealth && s.score.Some? && 0.0 <= s.score.value <= 10.0 ==> 10.0 * Severity(s) == 10.0 - s.score.value
    ensures !(s.lowHealth && s.score.Some?) && s.confidence.Some? && 0.0 <= s.confidence.value <= 1.0 ==>
              Severity(s) == s.confidence.value
    ensures !s.lowHealth && s.confidence.None? && s.score.Some? && 0.0 <= s.score.value <= 10.0 ==>
              10.0 * Severity(s) == s.score.value
    ensures s.confidence.None? && s.score.None? ==> Severity(s) == 0.5
  {
    assert !Graded(s, 0) && !Graded(s, 1) && !Graded(s, 2) && !Graded(s, 3);
    assert LabelSeverity(s.severity).None?;
  }

  type Signals = map<Drift.Bucket, seq<Signal>>

  datatype Constitution = NoConstitution | Constitution(completeness: Option<real>)

  function InBucket(signals: Signals, b: Drift.Bucket): seq<Signal> {
    if b in signals then signals[b] else []
  }

  // How many severities a component has, and their sum.
  datatype Load = Load(count: nat, sum: real)

  function Sum(severities: seq<real>): real {
    if severities == [] then 0.0 else Sum(severities[..|severities| - 1]) + severities[|severities| - 1]
  }

  function Severities(signals: seq<Signal>): (r: seq<real>)
    ensures |r| == |signals|
  {
    if signals == [] then [] else Severities(signals[..|signals| - 1]) + [Severity(signals[|signals| - 1])]
  }

  // The severities of a component in the first `n` buckets.
  function Listed(signals: Signals, c: Component, n: nat): seq<real>
    requires n <= |Drift.BUCKETS|
  {
    if n == 0 then []
    else
      var b := Drift.BUCKETS[n - 1];
      Listed(signals, c, n - 1) + if ComponentOf(b) == c then Severities(InBucket(signals, b)) else []
  }

  function LoadOf(signals: Signals, c: Component): Load {
    var severities := Listed(signals, c, |Drift.BUCKETS|);
    Load(|severities|, Sum(severities))
  }

  function Min(x: real, y: real): real {
    if y < x then y else x
  }

  // Severity sets the level; volume scales it from 0.6 to 1.0.
  function Level(load: Load): real {
    if load.count == 0 then 0.0
    else
      var mean := load.sum / load.count as real;
      var volume := Min(1.0, load.count as real / 25.0);
      Min(100.0, 100.0 * mean * (0.6 + 0.4 * volume))
  }

  function Penalty(constitution: Constitution): real
    requires constitution.Constitution?
  {
    var completeness := if constitution.completeness.Some? then constitution.completeness.value else 1.0;
    (1.0 - Clamp(completeness, 0.0, 1.0)) * 50.0
  }

  function Raw(signals: Signals, constitution: Constitution, c: Component): real {
    var level := Level(LoadOf(signals, c));
    if c == Knowledge && constitution.Constitution? then Min(100.0, level + Penalty(constitution)) else level
  }

  function Scaled(raw: real, weight: real): real {
    Round1(raw * weight)
  }

  function Share(raw: real, c: Component): real {
    Scaled(raw, Weight(c))
  }

  function Contribution(signals: Signals, constitution: Constitution, c: Component): real {
    Share(Raw(signals, constitution, c), c)
  }

  function Overall(signals: Signals, constitution: Constitution): real {
    Round1(Contribution(signals, constitution, Architecture) + Contribution(signals, constitution, Maintainability)
           + Contribution(signals, constitution, Knowledge) + Contribution(signals, constitution, Testing)
           + Contribution(signals, constitution, Dependency) + Contribution(signals, constitution, Operational))
  }

  function Predicted(overall: real): real {
    Round1(Clamp(overall + if overall >= 60.0 then 5.0 else 0.0, 0.0, 100.0))
  }

  // ---- The loops ---------------------------------------------------------------------------------

  method ComponentRaw(signals: Signals, constitution: Constitution) returns (raw: map<Component, real>)
    ensures forall c: Component {:trigger c in raw} :: c in raw && raw[c] == Raw(signals, constitution, c)
  {
    var severities := CollectSeverities(signals);
    raw := map[];
    hide Listed, Sum, Level;
    var i := 0;
    while i < |COMPONENTS|
      invariant 0 <= i <= |COMPONENTS|
      invariant forall j {:trigger COMPONENTS[j]} :: 0 <= j < i ==>
                  COMPONENTS[j] in raw && raw[COMPONENTS[j]] == Level(LoadOf(signals, COMPONENTS[j]))
    {
      var c := COMPONENTS[i];
      assert c in severities;
      var listed := severities[c];
      raw := raw[c := Level(Load(|listed|, Sum(listed)))];
      i := i + 1;
    }
    forall c: Component
      ensures c in raw && raw[c] == Level(LoadOf(signals, c))
    {
      var at := Everywhere(c);
    }
    if constitution.Constitution? { raw := raw[Knowledge := Min(100.0, raw[Knowledge] + Penalty(constitution))]; }
  }

  method CollectSeverities(signals: Signals) returns (severities: map<Component, seq<real>>)
    ensures forall c: Component {:trigger c in severities} :: c in severities
              && severities[c] == Listed(signals, c, |Drift.BUCKETS|)
  {
    severities := map c | c in COMPONENTS :: [];
    var n := 0;
    NoneCollected(signals, severities);
    hide *;
    while n < |Drift.BUCKETS|
      invariant 0 <= n <= |Drift.BUCKETS| && Collected(signals, severities, n)
    {
      var b := Drift.BUCKETS[n];
      var found := SeveritiesOf(InBucket(signals, b));
      OneMoreCollected(signals, severities, n);
      severities := severities[ComponentOf(b) := severities[ComponentOf(b)] + found];
      n := n + 1;
    }
    AllCollected(signals, severities);
  }

  // The severities of the first `n` buckets, by component.
  ghost predicate Collected(signals: Signals, severities: map<Component, seq<real>>, n: nat)
    requires n <= |Drift.BUCKETS|
  {
    forall c: Component {:trigger c in severities} :: c in severities && severities[c] == Listed(signals, c, n)
  }

  lemma {:induction false} NoneCollected(signals: Signals, severities: map<Component, seq<real>>)
    requires severities == map c | c in COMPONENTS :: []
    ensures Collected(signals, severities, 0)
  {
    forall c: Component
      ensures c in severities && severities[c] == []
    {
      var at := Everywhere(c);
    }
  }

  lemma {:induction false} OneMoreCollected(signals: Signals, severities: map<Component, seq<real>>, n: nat)
    requires n < |Drift.BUCKETS| && Collected(signals, severities, n)
    ensures var b := Drift.BUCKETS[n];
            && ComponentOf(b) in severities
            && Collected(signals,
                         severities[ComponentOf(b) := severities[ComponentOf(b)] + Severities(InBucket(signals, b))],
                         n + 1)
  {
    var b := Drift.BUCKETS[n];
    var found := Severities(InBucket(signals, b));
    assert ComponentOf(b) in severities;
    var more := severities[ComponentOf(b) := severities[ComponentOf(b)] + found];
    hide Severities, ComponentOf, InBucket;
    forall c: Component
      ensures c in more && more[c] == Listed(signals, c, n + 1)
    {
      assert c in severities && severities[c] == Listed(signals, c, n);
      assert Listed(signals, c, n) + [] == Listed(signals, c, n);
    }
  }

  lemma {:induction false} AllCollected(signals: Signals, severities: map<Component, seq<real>>)
    requires Collected(signals, severities, |Drift.BUCKETS|)
    ensures forall c: Component {:trigger c in severities} :: c in severities
              && severities[c] == Listed(signals, c, |Drift.BUCKETS|)
  {
    hide Listed;
  }

  method SeveritiesOf(signals: seq<Signal>) returns (found: seq<real>)
    ensures found == Severities(signals)
  {
    found := [];
    var i := 0;
    while i < |signals|
      invariant 0 <= i <= |signals| && found == Severities(signals[..i])
    {
      assert signals[..i + 1][..i] == signals[..i];
      found := found + [Severity(signals[i])];
      i := i + 1;
    }
    assert signals[..i] == signals;
  }

  // ---- Bounds ------------------------------------------------------------------------------------

  // As many severities as counted, each between 0 and 1.
  ghost predicate Fair(load: Load) {
    0.0 <= load.sum <= load.count as real
  }

  lemma {:induction false} SumAppend(a: seq<real>, b: seq<real>)
    ensures Sum(a + b) == Sum(a) + Sum(b)
  {
    if b == [] {
      assert a + b == a;
    } else {
      assert (a + b)[..|a + b| - 1] == a + b[..|b| - 1];
      SumAppend(a, b[..|b| - 1]);
    }
  }

  lemma {:induction false} SeveritiesFair(signals: seq<Signal>)
    ensures 0.0 <= Sum(Severities(signals)) <= |signals| as real
  {
    if signals != [] {
      var init, s := signals[..|signals| - 1], signals[|signals| - 1];
      SeveritiesFair(init);
      SumAppend(Severities(init), [Severity(s)]);
      assert Sum([Severity(s)]) == Severity(s);
      hide Severity, Sum;
    }
  }

  lemma {:induction false} ListedFair(signals: Signals, c: Component, n: nat)
    requires n <= |Drift.BUCKETS|
    ensures 0.0 <= Sum(Listed(signals, c, n)) <= |Listed(signals, c, n)| as real
  {
    if n > 0 {
      ListedFair(signals, c, n - 1);
      var more := Severities(InBucket(signals, Drift.BUCKETS[n - 1]));
      SeveritiesFair(InBucket(signals, Drift.BUCKETS[n - 1]));
      SumAppend(Listed(signals, c, n - 1), more);
      SumAppend(Listed(signals, c, n - 1), []);
      assert Listed(signals, c, n - 1) + [] == Listed(signals, c, n - 1);
      hide Sum, Severities;
    }
  }

  // The mean, for at least one severity.
  function Mean(load: Load): real
    requires load.count > 0
  {
    load.sum / load.count as real
  }

  lemma {:induction false} MeanFair(load: Load)
    requires load.count > 0 && Fair(load)
    ensures 0.0 <= Mean(load) <= 1.0 && Mean(load) * load.count as real == load.sum
  {
    var n, m := load.count as real, Mean(load);
    assert m * n == load.sum;
    if m < 0.0 { Scale(m, 0.0, n); }
    if m > 1.0 { Scale(1.0, m, n); }
  }

  lemma {:induction false} Scale(x: real, y: real, n: real)
    requires n > 0.0
    ensures x < y <==> x * n < y * n
  {
  }

  // What the mean is multiplied with: 60 to 100, growing with the number of severities up to 25.
  function Factor(n: nat): real {
    if n < 25 then 60.0 + 1.6 * n as real else 100.0
  }

  lemma {:induction false} LevelIs(load: Load)
    requires load.count > 0 && Fair(load)
    ensures Level(load) == Mean(load) * Factor(load.count) && 0.0 <= Level(load) <= 100.0
  {
    var n, m := load.count as real, Mean(load);
    MeanFair(load);
    var volume := Min(1.0, n / 25.0);
    var f := 0.6 + 0.4 * volume;
    assert Factor(load.count) == 100.0 * f;
    assert 100.0 * m * f == m * (100.0 * f);
    assert 0.0 <= m * Factor(load.count) <= 100.0 by { Product(m, Factor(load.count)); }
  }

  lemma {:induction false} Product(m: real, f: real)
    requires 0.0 <= m <= 1.0 && 0.0 <= f <= 100.0
    ensures 0.0 <= m * f <= 100.0
  {
    NonNegative(m, f);
    NonNegative(1.0 - m, f);
    assert (1.0 - m) * f == f - m * f;
  }

  lemma {:induction false} NonNegative(x: real, y: real)
    requires x >= 0.0 && y >= 0.0
    ensures x * y >= 0.0
  {
    if x > 0.0 && y > 0.0 { Scale(0.0, x, y); }
  }

  lemma {:induction false} LevelBounds(load: Load)
    requires Fair(load)
    ensures 0.0 <= Level(load) <= 100.0
  {
    if load.count > 0 { LevelIs(load); }
  }

  lemma {:induction false} LoadFair(signals: Signals, c: Component)
    ensures Fair(LoadOf(signals, c))
  {
    ListedFair(signals, c, |Drift.BUCKETS|);
  }

  lemma {:induction false} RawBounds(signals: Signals, constitution: Constitution, c: Component)
    ensures 0.0 <= Raw(signals, constitution, c) <= 100.0
  {
    LoadFair(signals, c);
    LevelBounds(LoadOf(signals, c));
    hide Level, LoadOf;
  }

  // Each contribution is between 0 and the component's weight in percent.
  lemma {:induction false} ContributionBounds(signals: Signals, constitution: Constitution, c: Component)
    ensures 0.0 <= Contribution(signals, constitution, c) <= 100.0 * Weight(c)
  {
    RawBounds(signals, constitution, c);
    hide Raw;
    ShareMonotone(0.0, Raw(signals, constitution, c), c);
    ShareMonotone(Raw(signals, constitution, c), 100.0, c);
    hide Share;
    ShareOfAll(c);
  }

  // The weights are whole percents, so rounding to a decimal leaves full marks as they are.
  lemma {:induction false} ShareOfAll(c: Component)
    ensures Share(0.0, c) == 0.0 && Share(100.0, c) == 100.0 * Weight(c)
  {
    Round1Tenths(0);
    Round1Tenths(10 * Percent(c));
    assert 100.0 * Weight(c) == (10 * Percent(c)) as real / 10.0;
    hide Round1;
  }

  // The score and the projection stay on the scale, and the projection is no better than the score.
  lemma {:induction false} ScoreBounds(signals: Signals, constitution: Constitution)
    ensures 0.0 <= Overall(signals, constitution) <= Predicted(Overall(signals, constitution)) <= 100.0
  {
    ContributionBounds(signals, constitution, Architecture);
    ContributionBounds(signals, constitution, Maintainability);
    ContributionBounds(signals, constitution, Knowledge);
    ContributionBounds(signals, constitution, Testing);
    ContributionBounds(signals, constitution, Dependency);
    ContributionBounds(signals, constitution, Operational);
    hide Contribution, Round1;
    Round1Tenths(0);
    Round1Tenths(1000);
    var total := Total(signals, constitution);
    Round1Monotone(0.0, total);
    Round1Monotone(total, 100.0);
    ProjectionBounds(total);
  }

  ghost function Total(signals: Signals, constitution: Constitution): real {
    Contribution(signals, constitution, Architecture) + Contribution(signals, constitution, Maintainability)
    + Contribution(signals, constitution, Knowledge) + Contribution(signals, constitution, Testing)
    + Contribution(signals, constitution, Dependency) + Contribution(signals, constitution, Operational)
  }

  lemma {:induction false} ProjectionBounds(total: real)
    requires 0.0 <= Round1(total) <= 100.0
    ensures Round1(total) <= Predicted(Round1(total)) <= 100.0
  {
    var overall := Round1(total);
    Round1Tenths(RoundInt(total * 10.0));
    assert Round1(overall) == overall;
    Round1Tenths(1000);
    var raised := Clamp(overall + if overall >= 60.0 then 5.0 else 0.0, 0.0, 100.0);
    Round1Monotone(overall, raised);
    Round1Monotone(raised, 100.0);
    hide RoundInt;
  }

  // From 60 on the projection adds five points, and stops at the end of the scale.
  lemma {:induction false} ProjectionAdds(total: real)
    requires 0.0 <= Round1(total) <= 100.0
    ensures var overall, predicted := Round1(total), Predicted(Round1(total));
            && (overall < 60.0 ==> predicted == overall)
            && (60.0 <= overall <= 95.0 ==> predicted == overall + 5.0)
            && (overall >= 95.0 ==> predicted == 100.0)
  {
    var n := RoundInt(total * 10.0);
    Round1Tenths(n);
    Round1Tenths(n + 50);
    Round1Tenths(1000);
    assert Round1(total) + 5.0 == (n + 50) as real / 10.0;
    assert Round1(total) == n as real / 10.0;
    hide RoundInt, Round1;
  }

  // ---- One more signal ---------------------------------------------------------------------------

  function More(load: Load, severity: real): Load {
    Load(load.count + 1, load.sum + severity)
  }

  // How bad a signal has to be for the component not to look better with it.
  predicate BadEnough(load: Load, severity: real)
    requires load.count > 0
  {
    if load.count < 25 then severity * (load.count as real + 38.5) >= 37.5 * Mean(load) else severity >= Mean(load)
  }

  // A component's level drops with one more signal exactly when the signal is mild: below the mean
  // when there are 25 or more already, and below a share of the mean that shrinks with each signal before that.
  lemma {:induction false} LevelDropsIffMild(load: Load, severity: real)
    requires Fair(load) && load.count > 0 && 0.0 <= severity <= 1.0
    ensures Level(More(load, severity)) >= Level(load) <==> BadEnough(load, severity)
  {
    hide Level, Mean, Factor;
    var n, m, m' := load.count as real, Mean(load), Mean(More(load, severity));
    MeanFair(load);
    MeanFair(More(load, severity));
    assert m' * (n + 1.0) == m * n + severity;
    if load.count < 25 {
      LevelFew(load);
      LevelFew(More(load, severity));
      FewSignals(n, m, m', severity);
    } else {
      LevelMany(load);
      LevelMany(More(load, severity));
      ManySignals(n, m, m', severity);
    }
  }

  lemma {:induction false} LevelFew(load: Load)
    requires Fair(load) && 0 < load.count <= 25
    ensures Level(load) == 1.6 * (Mean(load) * (load.count as real + 37.5))
  {
    LevelIs(load);
    assert Factor(load.count) == 1.6 * (load.count as real + 37.5);
    hide Level, Mean;
  }

  lemma {:induction false} LevelMany(load: Load)
    requires Fair(load) && load.count >= 25
    ensures Level(load) == Mean(load) * 100.0
  {
    LevelIs(load);
    hide Level, Mean;
  }

  lemma {:induction false} FewSignals(n: real, m: real, m': real, s: real)
    requires n > 0.0 && m' * (n + 1.0) == m * n + s
    ensures m' * (n + 38.5) >= m * (n + 37.5) <==> s * (n + 38.5) >= 37.5 * m
  {
    // Both sides times n + 1.
    assert m' * (n + 38.5) * (n + 1.0) == (m * n + s) * (n + 38.5) by {
      assert m' * (n + 38.5) * (n + 1.0) == m' * (n + 1.0) * (n + 38.5);
    }
    assert (m * n + s) * (n + 38.5) == m * n * n + 38.5 * (m * n) + s * (n + 38.5);
    assert m * (n + 37.5) * (n + 1.0) == m * n * n + 38.5 * (m * n) + 37.5 * m;
    Scale(m' * (n + 38.5), m * (n + 37.5), n + 1.0);
  }

  lemma {:induction false} ManySignals(n: real, m: real, m': real, s: real)
    requires n > 0.0 && m' * (n + 1.0) == m * n + s
    ensures m' * 100.0 >= m * 100.0 <==> s >= m
  {
    assert m * (n + 1.0) == m * n + m;
    Scale(m', m, n + 1.0);
  }

  lemma {:induction false} MeanIsBadEnough(load: Load, severity: real)
    requires Fair(load) && load.count > 0 && severity >= Mean(load)
    ensures BadEnough(load, severity)
  {
    var n, m := load.count as real, Mean(load);
    MeanFair(load);
    NonNegative(severity - m, n + 38.5);
    NonNegative(m, n + 1.0);
    assert (severity - m) * (n + 38.5) == severity * (n + 38.5) - m * (n + 38.5);
    assert m * (n + 38.5) == m * (n + 1.0) + 37.5 * m;
  }

  // ---- The whole score -----------------------------------------------------------------------------

  function WithSignal(signals: Signals, b: Drift.Bucket, s: Signal): Signals {
    signals[b := InBucket(signals, b) + [s]]
  }

  lemma {:induction false} SeveritiesAppend(signals: seq<Signal>, s: Signal)
    ensures Severities(signals + [s]) == Severities(signals) + [Severity(s)]
  {
    assert (signals + [s])[..|signals|] == signals;
  }

  function LoadOfBucket(signals: seq<Signal>): Load {
    Load(|signals|, Sum(Severities(signals)))
  }

  // The load of the first `n` buckets, bucket by bucket.
  function LoadUpTo(signals: Signals, c: Component, n: nat): Load
    requires n <= |Drift.BUCKETS|
  {
    if n == 0 then Load(0, 0.0) else AddBucket(LoadUpTo(signals, c, n - 1), signals, c, Drift.BUCKETS[n - 1])
  }

  function AddBucket(rest: Load, signals: Signals, c: Component, b: Drift.Bucket): Load {
    if ComponentOf(b) == c then
      var here := LoadOfBucket(InBucket(signals, b));
      Load(rest.count + here.count, rest.sum + here.sum)
    else rest
  }

  lemma {:induction false} LoadListed(signals: Signals, c: Component, n: nat)
    requires n <= |Drift.BUCKETS|
    ensures LoadUpTo(signals, c, n) == Load(|Listed(signals, c, n)|, Sum(Listed(signals, c, n)))
  {
    if n > 0 {
      LoadListed(signals, c, n - 1);
      SumAppend(Listed(signals, c, n - 1), Severities(InBucket(signals, Drift.BUCKETS[n - 1])));
      assert Listed(signals, c, n - 1) + [] == Listed(signals, c, n - 1);
      hide Sum, Severities;
    }
  }

  lemma {:induction false} LoadWith(signals: Signals, b: Drift.Bucket, s: Signal, c: Component, n: nat, before: Load,
        after: Load)
    requires n <= |Drift.BUCKETS|
    requires before == LoadUpTo(signals, c, n) && after == LoadUpTo(WithSignal(signals, b, s), c, n)
    ensures after == if ComponentOf(b) == c && Drift.InFirst(b, n) then More(before, Severity(s)) else before
    decreases n
  {
    if n == 0 {
      hide Severity, WithSignal, More;
    } else {
      hide *;
      var x, with' := Drift.BUCKETS[n - 1], WithSignal(signals, b, s);
      var rest, more := LoadUpTo(signals, c, n - 1), LoadUpTo(with', c, n - 1);
      InFirstNext(b, n);
      BucketOnce(b, n);
      LoadOneMore(signals, c, n, rest, before);
      LoadOneMore(with', c, n, more, after);
      LoadWith(signals, b, s, c, n - 1, rest, more);
      AddBucketWith(rest, signals, b, s, c, x);
      AddBucketMore(rest, with', c, x, Severity(s));
    }
  }

  lemma {:induction false} InFirstNext(b: Drift.Bucket, n: nat)
    requires 0 < n <= |Drift.BUCKETS|
    ensures Drift.InFirst(b, n) <==> Drift.BUCKETS[n - 1] == b || Drift.InFirst(b, n - 1)
  {
  }

  lemma {:induction false} LoadOneMore(signals: Signals, c: Component, n: nat, rest: Load, load: Load)
    requires 0 < n <= |Drift.BUCKETS|
    requires rest == LoadUpTo(signals, c, n - 1) && load == LoadUpTo(signals, c, n)
    ensures load == AddBucket(rest, signals, c, Drift.BUCKETS[n - 1])
  {
    hide AddBucket;
  }

  lemma {:induction false} AddBucketWith(rest: Load, signals: Signals, b: Drift.Bucket, s: Signal, c: Component,
        x: Drift.Bucket)
    ensures AddBucket(rest, WithSignal(signals, b, s), c, x)
         == if x == b && ComponentOf(b) == c then More(AddBucket(rest, signals, c, x), Severity(s))
             else AddBucket(rest, signals, c, x)
  {
    BucketWith(InBucket(signals, b), s);
    InBucketWith(signals, b, s, x);
    hide LoadOfBucket, WithSignal, InBucket, Severity;
  }

  lemma {:induction false} AddBucketMore(rest: Load, signals: Signals, c: Component, x: Drift.Bucket, severity: real)
    ensures AddBucket(More(rest, severity), signals, c, x) == More(AddBucket(rest, signals, c, x), severity)
  {
    hide LoadOfBucket;
  }

  lemma {:induction false} InBucketWith(signals: Signals, b: Drift.Bucket, s: Signal, x: Drift.Bucket)
    ensures InBucket(WithSignal(signals, b, s), x) == if x == b then InBucket(signals, b) + [s]
              else InBucket(signals, x)
  {
  }

  lemma {:induction false} BucketWith(signals: seq<Signal>, s: Signal)
    ensures LoadOfBucket(signals + [s]) == More(LoadOfBucket(signals), Severity(s))
  {
    SeveritiesAppend(signals, s);
    SumAppend(Severities(signals), [Severity(s)]);
    assert Sum([Severity(s)]) == Severity(s);
    hide Severity, Severities;
  }

  // A bucket is listed once.
  lemma {:induction false} BucketOnce(b: Drift.Bucket, n: nat)
    requires 0 < n <= |Drift.BUCKETS|
    ensures Drift.BUCKETS[n - 1] == b ==> !Drift.InFirst(b, n - 1)
  {
    if Drift.InFirst(b, n - 1) {
      var i := FirstPlace(b, n - 1);
      assert Drift.BUCKETS[i] != Drift.BUCKETS[n - 1];
    }
  }

  lemma {:induction false} FirstPlace(b: Drift.Bucket, n: nat) returns (i: nat)
    requires n <= |Drift.BUCKETS| && Drift.InFirst(b, n)
    ensures i < n && Drift.BUCKETS[i] == b
  {
    i := n - 1;
    if Drift.BUCKETS[i] != b { i := FirstPlace(b, n - 1); }
  }

  // One more signal changes the load of its component, and of no other.
  lemma {:induction false} LoadOfWith(signals: Signals, b: Drift.Bucket, s: Signal, c: Component)
    ensures LoadOf(WithSignal(signals, b, s), c)
         == if ComponentOf(b) == c then More(LoadOf(signals, c), Severity(s)) else LoadOf(signals, c)
  {
    LoadListed(signals, c, |Drift.BUCKETS|);
    LoadListed(WithSignal(signals, b, s), c, |Drift.BUCKETS|);
    Drift.AllBuckets(b);
    var n := |Drift.BUCKETS|;
    LoadWith(signals, b, s, c, n, LoadUpTo(signals, c, n), LoadUpTo(WithSignal(signals, b, s), c, n));
    hide LoadUpTo, Listed, Sum, WithSignal, Severity;
  }

  // The source's table of buckets and components.
  const FEEDS := {
    (Drift.DependencyCycles, Architecture), (Drift.Hotspots, Maintainability), (Drift.DeadCode, Maintainability),
    (Drift.OwnershipRisks, Knowledge), (Drift.TestGaps, Testing), (Drift.DependencyRisks, Dependency),
    (Drift.CiFailures, Operational)}

  // One more signal counts once for the component its bucket feeds, and for no other.
  lemma {:induction false} SignalCountsOnce(signals: Signals, b: Drift.Bucket, s: Signal, c: Component)
    ensures var before, after := LoadOf(signals, c), LoadOf(WithSignal(signals, b, s), c);
            && after.count == before.count + (if (b, c) in FEEDS then 1 else 0)
            && after.sum == before.sum + (if (b, c) in FEEDS then Severity(s) else 0.0)
    ensures (b, c) !in FEEDS ==> forall constitution: Constitution ::
              Contribution(WithSignal(signals, b, s), constitution, c) == Contribution(signals, constitution, c)
  {
    LoadOfWith(signals, b, s, c);
    hide LoadOf, WithSignal, Severity, Level, Share, Penalty;
    FeedsIsTable(b, c);
    hide FEEDS, ComponentOf;
  }

  lemma {:induction false} FeedsIsTable(b: Drift.Bucket, c: Component)
    ensures (b, c) in FEEDS <==> ComponentOf(b) == c
  {
  }

  // A component at its worst: architecture and maintainability make up half of the score.
  lemma {:induction false} WorstShares()
    ensures Share(100.0, Architecture) == 25.0 && Share(100.0, Maintainability) == 25.0
    ensures Share(100.0, Knowledge) == 15.0 && Share(100.0, Testing) == 15.0
    ensures Share(100.0, Dependency) == 10.0 && Share(100.0, Operational) == 10.0
  {
    ShareOfAll(Architecture);
    ShareOfAll(Maintainability);
    ShareOfAll(Knowledge);
    ShareOfAll(Testing);
    ShareOfAll(Dependency);
    ShareOfAll(Operational);
    hide Share;
  }

  lemma {:induction false} RawRises(signals: Signals, constitution: Constitution, b: Drift.Bucket, s: Signal,
        c: Component)
    requires var load := LoadOf(signals, ComponentOf(b)); load.count == 0 || BadEnough(load, Severity(s))
    ensures Raw(WithSignal(signals, b, s), constitution, c) >= Raw(signals, constitution, c)
  {
    LoadOfWith(signals, b, s, c);
    LoadFair(signals, c);
    var load, severity := LoadOf(signals, c), Severity(s);
    hide LoadOf, WithSignal, Severity, Penalty, BadEnough;
    assert Fair(More(load, severity));
    LevelBounds(More(load, severity));
    if c == ComponentOf(b) && load.count > 0 { LevelDropsIffMild(load, severity); }
    hide Level;
  }

  lemma {:induction false} ContributionRises(signals: Signals, constitution: Constitution, b: Drift.Bucket, s: Signal,
        c: Component)
    requires var load := LoadOf(signals, ComponentOf(b)); load.count == 0 || BadEnough(load, Severity(s))
    ensures Contribution(WithSignal(signals, b, s), constitution, c) >= Contribution(signals, constitution, c)
  {
    RawRises(signals, constitution, b, s, c);
    hide Share, Raw, LoadOf, WithSignal, BadEnough, Severity;
    ShareMonotone(Raw(signals, constitution, c), Raw(WithSignal(signals, b, s), constitution, c), c);
  }

  lemma {:induction false} ShareMonotone(x: real, y: real, c: Component)
    requires x <= y
    ensures Share(x, c) <= Share(y, c)
  {
    WeightPositive(c);
    hide Scaled, Weight;
    ScaledMonotone(x, y, Weight(c));
  }

  lemma {:induction false} ScaledMonotone(x: real, y: real, w: real)
    requires x <= y && w >= 0.0
    ensures Scaled(x, w) <= Scaled(y, w)
  {
    Times(x, y, w);
    hide Round1;
    Round1Monotone(x * w, y * w);
  }

  lemma {:induction false} ScaledIsTenths(raw: real, w: real)
    ensures Round1(Scaled(raw, w)) == Scaled(raw, w)
  {
    Round1Tenths(RoundInt(raw * w * 10.0));
    hide RoundInt;
  }

  lemma {:induction false} WeightPositive(c: Component)
    ensures Weight(c) > 0.0
  {
  }

  lemma {:induction false} Times(x: real, y: real, w: real)
    requires x <= y && w >= 0.0
    ensures x * w <= y * w
  {
    NonNegative(y - x, w);
    assert (y - x) * w == y * w - x * w;
  }

  // A contribution is a whole number of tenths.
  ghost predicate IsTenths(x: real) {
    exists n: int {:trigger n as real} :: x == n as real / 10.0
  }

  lemma {:induction false} ContributionIsTenths(signals: Signals, constitution: Constitution, c: Component)
    ensures IsTenths(Contribution(signals, constitution, c))
  {
    hide Raw, RoundInt, Weight;
    var n := RoundInt(Raw(signals, constitution, c) * Weight(c) * 10.0);
    assert Contribution(signals, constitution, c) == n as real / 10.0;
  }

  lemma {:induction false} SumIsTenths(x: real, y: real)
    requires IsTenths(x) && IsTenths(y)
    ensures IsTenths(x + y)
  {
    var m: int :| x == m as real / 10.0;
    var n: int :| y == n as real / 10.0;
    assert x + y == (m + n) as real / 10.0;
  }

  // So the score is the plain sum of the contributions.
  lemma {:induction false} OverallIsTotal(signals: Signals, constitution: Constitution)
    ensures Overall(signals, constitution) == Total(signals, constitution)
  {
    hide Contribution, IsTenths, RoundInt;
    var a := Contribution(signals, constitution, Architecture);
    var b := Contribution(signals, constitution, Maintainability);
    var c := Contribution(signals, constitution, Knowledge);
    var d := Contribution(signals, constitution, Testing);
    var e := Contribution(signals, constitution, Dependency);
    var f := Contribution(signals, constitution, Operational);
    ContributionIsTenths(signals, constitution, Architecture);
    ContributionIsTenths(signals, constitution, Maintainability);
    ContributionIsTenths(signals, constitution, Knowledge);
    ContributionIsTenths(signals, constitution, Testing);
    ContributionIsTenths(signals, constitution, Dependency);
    ContributionIsTenths(signals, constitution, Operational);
    SumIsTenths(a, b);
    SumIsTenths(a + b, c);
    SumIsTenths(a + b + c, d);
    SumIsTenths(a + b + c + d, e);
    SumIsTenths(a + b + c + d + e, f);
    TenthsStay(a + b + c + d + e + f);
  }

  lemma {:induction false} TenthsStay(x: real)
    requires IsTenths(x)
    ensures Round1(x) == x
  {
    var n: int :| x == n as real / 10.0;
    Round1Tenths(n);
  }

  // One more signal lowers the score exactly when it lowers the rounded contribution of its component,
  // and then by just as much.
  lemma {:induction false} ScoreMovesWithShare(signals: Signals, constitution: Constitution, b: Drift.Bucket, s: Signal)
    ensures var c := ComponentOf(b);
            Overall(WithSignal(signals, b, s), constitution) - Overall(signals, constitution)
            == Contribution(WithSignal(signals, b, s), constitution, c) - Contribution(signals, constitution, c)
  {
    OverallIsTotal(signals, constitution);
    OverallIsTotal(WithSignal(signals, b, s), constitution);
    OtherShare(signals, constitution, b, s, Architecture);
    OtherShare(signals, constitution, b, s, Maintainability);
    OtherShare(signals, constitution, b, s, Knowledge);
    OtherShare(signals, constitution, b, s, Testing);
    OtherShare(signals, constitution, b, s, Dependency);
    OtherShare(signals, constitution, b, s, Operational);
    hide Contribution, Overall, WithSignal;
  }

  lemma {:induction false} OtherShare(signals: Signals, constitution: Constitution, b: Drift.Bucket, s: Signal,
        c: Component)
    ensures c != ComponentOf(b) ==>
              Contribution(WithSignal(signals, b, s), constitution, c) == Contribution(signals, constitution, c)
  {
    LoadOfWith(signals, b, s, c);
    hide LoadOf, WithSignal, Level, Share, Severity;
  }

  // A signal that is bad enough for its component, in particular one at least as severe as the
  // component's mean, never lowers the score.
  lemma {:induction false} BadSignalNeverHelps(signals: Signals, constitution: Constitution, b: Drift.Bucket, s: Signal)
    requires var load := LoadOf(signals, ComponentOf(b)); load.count == 0 || BadEnough(load, Severity(s))
    ensures Overall(WithSignal(signals, b, s), constitution) >= Overall(signals, constitution)
  {
    ContributionRises(signals, constitution, b, s, ComponentOf(b));
    ScoreMovesWithShare(signals, constitution, b, s);
    hide *;
  }

  // A more complete constitution never raises the score.
  lemma {:induction false} CompletenessNeverHurts(signals: Signals, low: real, high: real)
    requires low <= high
    ensures Overall(signals, Constitution(Some(high))) <= Overall(signals, Constitution(Some(low)))
  {
    var l, h := Constitution(Some(low)), Constitution(Some(high));
    KnowledgeFalls(signals, low, high);
    SameElsewhere(signals, l, h, Architecture);
    SameElsewhere(signals, l, h, Maintainability);
    SameElsewhere(signals, l, h, Testing);
    SameElsewhere(signals, l, h, Dependency);
    SameElsewhere(signals, l, h, Operational);
    OverallIsTotal(signals, l);
    OverallIsTotal(signals, h);
    hide Contribution, Overall;
  }

  lemma {:induction false} KnowledgeFalls(signals: Signals, low: real, high: real)
    requires low <= high
    ensures Contribution(signals, Constitution(Some(high)), Knowledge)
         <= Contribution(signals, Constitution(Some(low)), Knowledge)
  {
    hide Share, Raw;
    RawFalls(signals, low, high);
    ShareMonotone(Raw(signals, Constitution(Some(high)), Knowledge), Raw(signals, Constitution(Some(low)), Knowledge),
        Knowledge);
  }

  lemma {:induction false} RawFalls(signals: Signals, low: real, high: real)
    requires low <= high
    ensures Raw(signals, Constitution(Some(high)), Knowledge) <= Raw(signals, Constitution(Some(low)), Knowledge)
  {
    hide Level, LoadOf;
  }

  lemma {:induction false} SameElsewhere(signals: Signals, l: Constitution, h: Constitution, c: Component)
    requires c != Knowledge
    ensures Contribution(signals, l, c) == Contribution(signals, h, c)
  {
  }

  // ---- The score can drop when something is found --------------------------------------------------

  lemma {:induction false} NoLoad(c: Component, n: nat)
    requires n <= |Drift.BUCKETS|
    ensures LoadUpTo(map[], c, n) == Load(0, 0.0)
  {
    if n > 0 { NoLoad(c, n - 1); }
  }

  // The score of a repository whose only signals are failing checks.
  lemma {:induction false} OnlyChecks(signals: Signals)
    requires forall c: Component :: c != Operational ==> LoadOf(signals, c).count == 0
    ensures Overall(signals, NoConstitution) == Share(Level(LoadOf(signals, Operational)), Operational)
  {
    hide LoadOf, Level, Share, Contribution;
    ContributionIs(signals, Operational);
    NoShare(signals, Architecture);
    NoShare(signals, Maintainability);
    NoShare(signals, Knowledge);
    NoShare(signals, Testing);
    NoShare(signals, Dependency);
    OnlyOne(signals);
  }

  lemma {:induction false} OnlyOne(signals: Signals)
    requires Contribution(signals, NoConstitution, Architecture)
               == Contribution(signals, NoConstitution, Maintainability)
          == Contribution(signals, NoConstitution, Knowledge) == Contribution(signals, NoConstitution, Testing)
          == Contribution(signals, NoConstitution, Dependency) == 0.0
    ensures Overall(signals, NoConstitution) == Contribution(signals, NoConstitution, Operational)
  {
    ScaledIsTenths(Raw(signals, NoConstitution, Operational), Weight(Operational));
    assert Round1(Contribution(signals, NoConstitution, Operational))
        == Contribution(signals, NoConstitution, Operational) by {
      hide Raw, Scaled, Weight, Round1;
    }
    hide Contribution, Round1;
  }

  lemma {:induction false} ContributionIs(signals: Signals, c: Component)
    ensures Contribution(signals, NoConstitution, c) == Share(Level(LoadOf(signals, c)), c)
  {
    hide LoadOf, Level, Share;
  }

  lemma {:induction false} NoShare(signals: Signals, c: Component)
    requires LoadOf(signals, c).count == 0
    ensures Contribution(signals, NoConstitution, c) == 0.0
  {
    ShareOfAll(c);
    hide LoadOf, Share;
  }

  // Without a single signal an empty constitution costs half of the knowledge component, and one
  // that does not tell its completeness costs nothing.
  lemma {:induction false} EmptyConstitutionCosts()
    ensures Contribution(map[], Constitution(Some(0.0)), Knowledge) == 7.5
    ensures Contribution(map[], Constitution(None), Knowledge) == 0.0
  {
    NoLoad(Knowledge, |Drift.BUCKETS|);
    LoadListed(map[], Knowledge, |Drift.BUCKETS|);
    hide LoadUpTo, Listed, Sum;
    assert LoadOf(map[], Knowledge) == Load(0, 0.0);
    assert Raw(map[], Constitution(Some(0.0)), Knowledge) == 50.0 && Raw(map[], Constitution(None), Knowledge) == 0.0;
    assert 50.0 * Weight(Knowledge) == 7.5;
    Round1Tenths(75);
    ShareOfAll(Knowledge);
    hide Raw, Round1, Weight;
  }

  const CRITICAL := Signal("critical", false, None, None)
  const MEDIUM := Signal("medium", false, None, None)

  function FailingChecks(): Signals {
    WithSignal(map[], Drift.CiFailures, CRITICAL)
  }

  lemma {:induction false} ExampleLoads(c: Component)
    ensures LoadOf(FailingChecks(), c) == if c == Operational then Load(1, 0.95) else Load(0, 0.0)
    ensures LoadOf(WithSignal(FailingChecks(), Drift.CiFailures, MEDIUM), c) == if c == Operational then Load(2, 1.45)
              else Load(0, 0.0)
  {
    NoLoad(c, |Drift.BUCKETS|);
    LoadListed(map[], c, |Drift.BUCKETS|);
    assert Severity(CRITICAL) == 0.95 && Severity(MEDIUM) == 0.5;
    hide Severity, LoadUpTo, Listed, Sum;
    LoadOfWith(map[], Drift.CiFailures, CRITICAL, c);
    LoadOfWith(FailingChecks(), Drift.CiFailures, MEDIUM, c);
  }

  lemma {:induction false} ExampleShares()
    ensures Share(Level(Load(1, 0.95)), Operational) == 5.9 && Share(Level(Load(2, 1.45)), Operational) == 4.6
  {
    assert Level(Load(1, 0.95)) == 58.52 && Level(Load(2, 1.45)) == 45.82;
    assert RoundInt(58.52) == 59 && RoundInt(45.82) == 46;
  }

  // One critical failing check scores 5.9; a second, milder one brings the score down to 4.6.
  lemma {:induction false} MildSignalLowersScore()
    ensures Overall(FailingChecks(), NoConstitution) == 5.9
    ensures Overall(WithSignal(FailingChecks(), Drift.CiFailures, MEDIUM), NoConstitution) == 4.6
  {
    forall c: Component
      ensures LoadOf(FailingChecks(), c) == if c == Operational then Load(1, 0.95) else Load(0, 0.0)
      ensures LoadOf(WithSignal(FailingChecks(), Drift.CiFailures, MEDIUM), c) == if c == Operational then
                Load(2, 1.45) else Load(0, 0.0)
    {
      ExampleLoads(c);
    }
    ExampleShares();
    hide *;
    OnlyChecks(FailingChecks());
    OnlyChecks(WithSignal(FailingChecks(), Drift.CiFailures, MEDIUM));
  }
}
