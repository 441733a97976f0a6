/**
 Comparing the signals of two analysis snapshots.

 Signals are put into a dictionary by bucket, path, kind and summary, so that a later one with the same
 key replaces an earlier one.  What is new, worse or gone is the difference of two such dictionaries, and
 every reported number is rounded to two decimals.
 */
module Drift {
  import opened Options
  import opened Rounding

  datatype Bucket = DependencyCycles | Hotspots | DeadCode | OwnershipRisks | TestGaps | DependencyRisks | CiFailures

  const BUCKETS := [DependencyCycles, Hotspots, DeadCode, OwnershipRisks, TestGaps, DependencyRisks, CiFailures]

  // What two snapshots are compared by.
  datatype Key = Key(bucket: Bucket, path: string, kind: string, summary: string)

  // A signal as the analysis wrote it: its kind and summary text already chosen, its numbers as given.
  datatype Signal = Signal(path: string, kind: string, summary: string,
                           scores: seq<Option<real>>, severity: string, amounts: seq<Option<real>>)

  // The first score that is given.
  function FirstScore(scores: seq<Option<real>>): Option<real> {
    if scores == [] then None
    else if scores[0].Some? then scores[0]
    else FirstScore(scores[1..])
  }

  function Total(amounts: seq<Option<real>>): real {
    if amounts == [] then 0.0
    else Total(amounts[..|amounts| - 1]) + match amounts[|amounts| - 1] { case Some(x) => x case None => 0.0 }
  }

  function Impact(s: Signal): real {
    if FirstScore(s.scores).Some? then FirstScore(s.scores).value
    else if s.severity == "critical" || s.severity == "blocking" then 5.0
    else if s.severity == "high" then 4.0
    else if s.severity == "medium" then 2.0
    else if s.severity == "low" then 1.0
    else if Total(s.amounts) != 0.0 then Total(s.amounts)
    else 1.0
  }

  // A snapshot's signals per bucket; None is the empty snapshot, which is no baseline.
  type Snapshot = Option<map<Bucket, seq<Signal>>>

  function InBucket(snapshot: Snapshot, b: Bucket): seq<Signal> {
    if snapshot.Some? && b in snapshot.value then snapshot.value[b] else []
  }

  // A dictionary: its keys in the order they were first put, and their values.
  datatype Index = Index(keys: seq<Key>, impact: map<Key, real>)

  ghost predicate Valid(x: Index) {
    && (forall k {:trigger k in x.keys} {:trigger k in x.impact} :: k in x.keys <==> k in x.impact)
    && NoRepeat(x.keys)
  }

  ghost predicate NoRepeat(keys: seq<Key>) {
    keys == [] || (keys[|keys| - 1] !in keys[..|keys| - 1] && NoRepeat(keys[..|keys| - 1]))
  }

  const NOTHING := Index([], map[])

  function Put(x: Index, k: Key, impact: real): Index {
    Index(if k in x.impact then x.keys else x.keys + [k], x.impact[k := impact])
  }

  function KeyOf(b: Bucket, s: Signal): Key {
    Key(b, s.path, s.kind, s.summary)
  }

  // Put the first `n` signals of a bucket.
  function PutBucket(x: Index, b: Bucket, signals: seq<Signal>, n: nat): Index
    requires n <= |signals|
  {
    if n == 0 then x else Put(PutBucket(x, b, signals, n - 1), KeyOf(b, signals[n - 1]), Impact(signals[n - 1]))
  }

  // The signals of the first `n` buckets by key.
  function IndexOf(snapshot: Snapshot, n: nat): Index
    requires n <= |BUCKETS|
  {
    if n == 0 then NOTHING
    else
      var b := BUCKETS[n - 1];
      PutBucket(IndexOf(snapshot, n - 1), b, InBucket(snapshot, b), |InBucket(snapshot, b)|)
  }

  function Indexed(snapshot: Snapshot): Index {
    IndexOf(snapshot, |BUCKETS|)
  }

  method SignalsByKey(snapshot: Snapshot) returns (x: Index)
    ensures x == Indexed(snapshot)
  {
    x := NOTHING;
    var n := 0;
    hide Put;
    while n < |BUCKETS|
      invariant 0 <= n <= |BUCKETS| && x == IndexOf(snapshot, n)
    {
      var b, j := BUCKETS[n], 0;
      while j < |InBucket(snapshot, b)|
        invariant 0 <= j <= |InBucket(snapshot, b)| && x == PutBucket(IndexOf(snapshot, n), b, InBucket(snapshot, b), j)
      {
        var s := InBucket(snapshot, b)[j];
        x := Put(x, KeyOf(b, s), Impact(s));
        j := j + 1;
      }
      n := n + 1;
    }
  }

  lemma {:induction false} PutValid(x: Index, k: Key, impact: real)
    requires Valid(x)
    ensures Valid(Put(x, k, impact))
  {
    assert (x.keys + [k])[..|x.keys|] == x.keys;
  }

  lemma {:induction false} PutBucketValid(x: Index, b: Bucket, signals: seq<Signal>, n: nat)
    requires n <= |signals| && Valid(x)
    ensures Valid(PutBucket(x, b, signals, n))
  {
    if n > 0 {
      PutBucketValid(x, b, signals, n - 1);
      PutValid(PutBucket(x, b, signals, n - 1), KeyOf(b, signals[n - 1]), Impact(signals[n - 1]));
      hide Valid, Put, Impact;
    }
  }

  lemma {:induction false} IndexValid(snapshot: Snapshot, n: nat)
    requires n <= |BUCKETS|
    ensures Valid(IndexOf(snapshot, n)) && (snapshot.None? ==> IndexOf(snapshot, n) == NOTHING)
  {
    if n > 0 {
      IndexValid(snapshot, n - 1);
      var b := BUCKETS[n - 1];
      PutBucketValid(IndexOf(snapshot, n - 1), b, InBucket(snapshot, b), |InBucket(snapshot, b)|);
      hide Valid;
    }
  }

  // The snapshot has a signal with this key.
  ghost predicate HasKey(snapshot: Snapshot, k: Key) {
    HasKeyBelow(k, InBucket(snapshot, k.bucket), |InBucket(snapshot, k.bucket)|)
  }

  ghost predicate HasKeyBelow(k: Key, signals: seq<Signal>, n: nat) {
    exists i {:trigger signals[i]} :: 0 <= i < |signals| && i < n && KeyOf(k.bucket, signals[i]) == k
  }

  lemma {:induction false} PutBucketKeys(x: Index, b: Bucket, signals: seq<Signal>, n: nat, k: Key)
    requires n <= |signals|
    ensures k in PutBucket(x, b, signals, n).impact <==> k in x.impact || (k.bucket == b && HasKeyBelow(k, signals, n))
  {
    if n > 0 { PutBucketKeys(x, b, signals, n - 1, k); }
  }

  lemma {:induction false} IndexOfKeys(snapshot: Snapshot, n: nat, k: Key)
    requires n <= |BUCKETS|
    ensures k in IndexOf(snapshot, n).impact <==> HasKey(snapshot, k) && InFirst(k.bucket, n)
  {
    if n > 0 {
      hide PutBucket, HasKeyBelow, InBucket;
      var b := BUCKETS[n - 1];
      IndexOfKeys(snapshot, n - 1, k);
      PutBucketKeys(IndexOf(snapshot, n - 1), b, InBucket(snapshot, b), |InBucket(snapshot, b)|, k);
    }
  }

  predicate InFirst(b: Bucket, n: nat)
    requires n <= |BUCKETS|
  {
    n > 0 && (BUCKETS[n - 1] == b || InFirst(b, n - 1))
  }

  // The index has exactly the keys of the snapshot's signals.
  lemma {:induction false} IndexedKeys(snapshot: Snapshot, k: Key)
    ensures k in Indexed(snapshot).impact <==> HasKey(snapshot, k)
    ensures Valid(Indexed(snapshot))
  {
    IndexOfKeys(snapshot, |BUCKETS|, k);
    IndexValid(snapshot, |BUCKETS|);
    hide IndexOf, HasKey, Valid;
    AllBuckets(k.bucket);
  }

  lemma {:induction false} AllBuckets(b: Bucket)
    ensures InFirst(b, |BUCKETS|)
  {
    InFirstAt(b, |BUCKETS|, match b {
      case DependencyCycles => 0 case Hotspots => 1 case DeadCode => 2 case OwnershipRisks => 3
      case TestGaps => 4 case DependencyRisks => 5 case CiFailures => 6 });
  }

  lemma {:induction false} InFirstAt(b: Bucket, n: nat, i: nat)
    requires i < n <= |BUCKETS| && BUCKETS[i] == b
    ensures InFirst(b, n)
  {
    if i < n - 1 { InFirstAt(b, n - 1, i); }
  }

  // ---- Which impact a key has --------------------------------------------------------------------

  ghost predicate Describes(s: Signal, k: Key) {
    s.path == k.path && s.kind == k.kind && s.summary == k.summary
  }

  // The last signal of the bucket's first `n` with the key's path, kind and summary.
  ghost predicate LastWith(signals: seq<Signal>, k: Key, i: nat, n: nat) {
    && i < n <= |signals| && Describes(signals[i], k)
    && forall j {:trigger signals[j]} :: i < j < n ==> !Describes(signals[j], k)
  }

  ghost predicate FirstGiven(scores: seq<Option<real>>, x: real) {
    exists j: nat {:trigger scores[j]} ::
      j < |scores| && scores[j] == Some(x) && forall i {:trigger scores[i]} :: 0 <= i < j ==> scores[i] == None
  }

  ghost predicate NoneGiven(scores: seq<Option<real>>) {
    forall i {:trigger scores[i]} :: 0 <= i < |scores| ==> scores[i] == None
  }

  // The score that is given first; without one the severity's rank; without a known severity what
  // the amounts add up to, or one when that is nothing.
  ghost predicate HasImpact(s: Signal, x: real) {
    || FirstGiven(s.scores, x)
    || (NoneGiven(s.scores)
        && (s.severity in {"critical", "blocking"} ==> x == 5.0) && (s.severity == "high" ==> x == 4.0)
        && (s.severity == "medium" ==> x == 2.0) && (s.severity == "low" ==> x == 1.0)
        && (s.severity !in {"critical", "blocking", "high", "medium", "low"} ==>
              x != 0.0 && (x == Total(s.amounts) || (Total(s.amounts) == 0.0 && x == 1.0))))
  }

  lemma {:induction false} ScoreIsFirst(scores: seq<Option<real>>)
    ensures FirstScore(scores).Some? ==> FirstGiven(scores, FirstScore(scores).value)
    ensures FirstScore(scores).None? ==> NoneGiven(scores)
  {
    if scores != [] && scores[0].None? {
      var rest := scores[1..];
      ScoreIsFirst(rest);
      assert forall i {:trigger scores[i]} :: 0 < i < |scores| ==> scores[i] == rest[i - 1];
      if FirstScore(rest).Some? {
        var j: nat :| j < |rest| && rest[j] == FirstScore(rest)
                      && forall i {:trigger rest[i]} :: 0 <= i < j ==> rest[i] == None;
        assert scores[j + 1] == FirstScore(scores);
      }
    }
  }

  lemma {:induction false} ImpactIs(s: Signal)
    ensures HasImpact(s, Impact(s))
  {
    ScoreIsFirst(s.scores);
    hide FirstScore, FirstGiven, NoneGiven, Total;
  }

  lemma {:induction false} PutBucketLast(x: Index, b: Bucket, signals: seq<Signal>, n: nat, k: Key) returns (i: nat)
    requires n <= |signals|
    ensures var after := PutBucket(x, b, signals, n).impact;
            if k.bucket == b && HasKeyBelow(k, signals, n) then
              LastWith(signals, k, i, n) && k in after && HasImpact(signals[i], after[k])
            else (k in after <==> k in x.impact) && (k in after ==> after[k] == x.impact[k])
  {
    i := 0;
    if n > 0 {
      var s := signals[n - 1];
      i := PutBucketLast(x, b, signals, n - 1, k);
      ImpactIs(s);
      hide Impact, HasImpact;
      if k.bucket == b && Describes(s, k) { i := n - 1; }
    }
  }

  lemma {:induction false} IndexOfLast(snapshot: Snapshot, n: nat, k: Key) returns (i: nat)
    requires n <= |BUCKETS| && k in IndexOf(snapshot, n).impact
    ensures var signals := InBucket(snapshot, k.bucket);
            LastWith(signals, k, i, |signals|) && HasImpact(signals[i], IndexOf(snapshot, n).impact[k])
  {
    var b := BUCKETS[n - 1];
    var signals := InBucket(snapshot, b);
    i := PutBucketLast(IndexOf(snapshot, n - 1), b, signals, |signals|, k);
    hide PutBucket, HasImpact, LastWith;
    if k.bucket != b || !HasKeyBelow(k, signals, |signals|) { i := IndexOfLast(snapshot, n - 1, k); }
  }

  // A key's impact is that of the last signal in its bucket with its path, kind and summary; and
  // the key is there exactly when such a signal is.
  lemma {:induction false} LastSignalDecides(snapshot: Snapshot, k: Key) returns (i: nat)
    ensures var signals, indexed := InBucket(snapshot, k.bucket), Indexed(snapshot).impact;
            if k in indexed then LastWith(signals, k, i, |signals|) && HasImpact(signals[i], indexed[k])
            else forall j {:trigger signals[j]} :: 0 <= j < |signals| ==> !Describes(signals[j], k)
  {
    i := 0;
    IndexedKeys(snapshot, k);
    if k in Indexed(snapshot).impact {
      i := IndexOfLast(snapshot, |BUCKETS|, k);
    }
    hide IndexOf, HasImpact, LastWith;
  }

  // ---- The report ------------------------------------------------------------------------------

  // A reported signal: its impact rounded to two decimals, with both sides and the difference when it got worse.
  datatype Change =
    | Plain(key: Key, impact: real)
    | Worsened(key: Key, impact: real, baseline: real, delta: real)

  datatype Report = Report(added: seq<Change>, worsened: seq<Change>, resolved: seq<Change>, same: nat)

  function At(x: Index, k: Key): real {
    if k in x.impact then x.impact[k] else 0.0
  }

  predicate Worse(b: Index, c: Index, k: Key) {
    k in b.impact && At(c, k) - At(b, k) > 0.01
  }

  // The listed signals of `x` that `other` does not have.
  function Missing(keys: seq<Key>, x: Index, other: Index): seq<Change> {
    if keys == [] then []
    else
      var rest, k := Missing(keys[..|keys| - 1], x, other), keys[|keys| - 1];
      if k in other.impact then rest else rest + [Plain(k, Round2(At(x, k)))]
  }

  function Grown(keys: seq<Key>, b: Index, c: Index): seq<Change> {
    if keys == [] then []
    else
      var rest, k := Grown(keys[..|keys| - 1], b, c), keys[|keys| - 1];
      if Worse(b, c, k) then
        rest + [Worsened(k, Round2(At(c, k)), Round2(At(b, k)), Round2(At(c, k) - At(b, k)))]
      else rest
  }

  function Same(keys: seq<Key>, b: Index, c: Index): nat {
    if keys == [] then 0
    else
      var k := keys[|keys| - 1];
      Same(keys[..|keys| - 1], b, c) + if k in b.impact && !Worse(b, c, k) then 1 else 0
  }

  function Compare(b: Index, c: Index): Report {
    Report(Missing(c.keys, c, b), Grown(c.keys, b, c), Missing(b.keys, b, c), Same(c.keys, b, c))
  }

  // One more key.
  lemma {:induction false} OneMore(keys: seq<Key>, i: nat, b: Index, c: Index)
    requires i < |keys|
    ensures var k, upTo, done := keys[i], keys[..i + 1], keys[..i];
            && Missing(upTo, c, b) == (if k in b.impact then Missing(done, c, b)
                 else Missing(done, c, b) + [Plain(k, Round2(At(c, k)))])
            && Grown(upTo, b, c) == (if Worse(b, c, k) then Grown(done, b, c)
                 + [Worsened(k, Round2(At(c, k)), Round2(At(b, k)), Round2(At(c, k) - At(b, k)))]
                     else Grown(done, b, c))
            && Same(upTo, b, c) == Same(done, b, c) + if k in b.impact && !Worse(b, c, k) then 1 else 0
    ensures Missing([], c, b) == [] && Grown([], b, c) == [] && Same([], b, c) == 0
  {
    assert keys[..i + 1][..i] == keys[..i];
    hide At, Worse, Round2;
  }

  // The report before sorting; without a baseline every signal is new.
  method BuildReport(baseline: Snapshot, current: Snapshot) returns (r: Report)
    ensures r == Compare(Indexed(baseline), Indexed(current))
  {
    var b := SignalsByKey(baseline);
    var c := SignalsByKey(current);
    IndexValid(baseline, |BUCKETS|);
    IndexValid(current, |BUCKETS|);
    hide Indexed, IndexOf, NoRepeat, Compare;
    if baseline == None {
      var added := AllNew(c);
      r := Report(added, [], [], 0);
    } else {
      r := CompareSignals(b, c);
    }
  }

  method AllNew(c: Index) returns (added: seq<Change>)
    requires Valid(c)
    ensures Compare(NOTHING, c) == Report(added, [], [], 0)
  {
    added := [];
    var i := 0;
    NoKeys(NOTHING, c);
    assert c.keys[..0] == [];
    hide Missing, Grown, Same, NoRepeat, Round2;
    while i < |c.keys|
      invariant 0 <= i <= |c.keys| && added == Missing(c.keys[..i], c, NOTHING)
      invariant Grown(c.keys[..i], NOTHING, c) == [] && Same(c.keys[..i], NOTHING, c) == 0
    {
      OneMore(c.keys, i, NOTHING, c);
      added := added + [Plain(c.keys[i], Round2(c.impact[c.keys[i]]))];
      i := i + 1;
    }
    assert c.keys[..i] == c.keys;
    NoKeys(c, NOTHING);
  }

  lemma {:induction false} NoKeys(b: Index, c: Index)
    ensures Missing([], c, b) == [] && Grown([], b, c) == [] && Same([], b, c) == 0
  {
  }

  method CompareSignals(b: Index, c: Index) returns (r: Report)
    requires Valid(b) && Valid(c)
    ensures r == Compare(b, c)
  {
    var added, worsened, resolved, same, i := [], [], [], 0, 0;
    NoKeys(b, c);
    NoKeys(c, b);
    hide Missing, Grown, Same, NoRepeat, Round2;
    assert c.keys[..0] == [] && b.keys[..0] == [];
    while i < |c.keys|
      invariant 0 <= i <= |c.keys| && added == Missing(c.keys[..i], c, b)
      invariant worsened == Grown(c.keys[..i], b, c) && same == Same(c.keys[..i], b, c)
    {
      var k := c.keys[i];
      OneMore(c.keys, i, b, c);
      i := i + 1;
      if k !in b.impact {
        added := added + [Plain(k, Round2(c.impact[k]))];
        continue;
      }
      var delta := c.impact[k] - b.impact[k];
      if delta > 0.01 {
        worsened := worsened + [Worsened(k, Round2(c.impact[k]), Round2(b.impact[k]), Round2(delta))];
      } else {
        same := same + 1;
      }
    }
    assert c.keys[..i] == c.keys;
    i := 0;
    while i < |b.keys|
      invariant 0 <= i <= |b.keys| && resolved == Missing(b.keys[..i], b, c)
    {
      var k := b.keys[i];
      OneMore(b.keys, i, c, b);
      if k !in c.impact { resolved := resolved + [Plain(k, Round2(b.impact[k]))]; }
      i := i + 1;
    }
    assert b.keys[..i] == b.keys;
    r := Report(added, worsened, resolved, same);
  }

  // ---- What the report says ----------------------------------------------------------------------

  ghost function KeySet(changes: seq<Change>): set<Key> {
    set c | c in changes :: c.key
  }

  ghost function Elements(keys: seq<Key>): set<Key> {
    set k | k in keys
  }

  lemma {:induction false} KeySetAppend(changes: seq<Change>, c: Change)
    ensures KeySet(changes + [c]) == KeySet(changes) + {c.key}
  {
    assert (changes + [c])[|changes|] == c;
    assert forall x {:trigger x in changes} :: x in changes ==> x in changes + [c];
  }

  lemma {:induction false} MissingKeys(keys: seq<Key>, x: Index, other: Index)
    requires NoRepeat(keys)
    ensures KeySet(Missing(keys, x, other)) == Elements(keys) - other.impact.Keys
    ensures |KeySet(Missing(keys, x, other))| == |Missing(keys, x, other)|
  {
    if keys != [] {
      var init, k := keys[..|keys| - 1], keys[|keys| - 1];
      LastKey(keys);
      MissingKeys(init, x, other);
      KeySetAppend(Missing(init, x, other), Plain(k, Round2(At(x, k))));
      hide KeySet, Elements, NoRepeat, Round2, At;
    }
  }

  lemma {:induction false} LastKey(keys: seq<Key>)
    requires keys != [] && NoRepeat(keys)
    ensures var init, k := keys[..|keys| - 1], keys[|keys| - 1];
            NoRepeat(init) && k !in Elements(init) && Elements(keys) == Elements(init) + {k}
  {
    assert keys == keys[..|keys| - 1] + [keys[|keys| - 1]];
    hide NoRepeat;
  }

  ghost function WorseKeys(keys: seq<Key>, b: Index, c: Index): set<Key> {
    set k | k in keys && Worse(b, c, k)
  }

  lemma {:induction false} WorseNext(keys: seq<Key>, b: Index, c: Index)
    requires keys != [] && NoRepeat(keys)
    ensures var init, k := keys[..|keys| - 1], keys[|keys| - 1];
            && k !in WorseKeys(init, b, c)
            && WorseKeys(keys, b, c) == WorseKeys(init, b, c) + if Worse(b, c, k) then {k} else {}
  {
    LastKey(keys);
    assert keys == keys[..|keys| - 1] + [keys[|keys| - 1]];
    hide Worse, NoRepeat;
  }

  lemma {:induction false} GrownNext(keys: seq<Key>, b: Index, c: Index) returns (change: Change)
    requires keys != []
    ensures var init, k := keys[..|keys| - 1], keys[|keys| - 1];
            && change.key == k
            && Grown(keys, b, c) == if Worse(b, c, k) then Grown(init, b, c) + [change] else Grown(init, b, c)
  {
    hide Worse, Round2, At;
    var k := keys[|keys| - 1];
    change := Worsened(k, Round2(At(c, k)), Round2(At(b, k)), Round2(At(c, k) - At(b, k)));
  }

  lemma {:induction false} GrownKeys(keys: seq<Key>, b: Index, c: Index)
    requires NoRepeat(keys)
    ensures KeySet(Grown(keys, b, c)) == WorseKeys(keys, b, c)
    ensures |KeySet(Grown(keys, b, c))| == |Grown(keys, b, c)|
  {
    if keys != [] {
      var init := keys[..|keys| - 1];
      LastKey(keys);
      hide *;
      GrownKeys(init, b, c);
      WorseNext(keys, b, c);
      var change := GrownNext(keys, b, c);
      KeySetAppend(Grown(init, b, c), change);
    } else {
      hide Worse;
    }
  }

  lemma {:induction false} CountsAddUp(keys: seq<Key>, b: Index, c: Index)
    ensures |Missing(keys, c, b)| + |Grown(keys, b, c)| + Same(keys, b, c) == |keys|
  {
    if keys != [] {
      CountsAddUp(keys[..|keys| - 1], b, c);
      hide Round2;
    }
  }

  lemma {:induction false} SizeOfKeys(keys: seq<Key>)
    requires NoRepeat(keys)
    ensures |Elements(keys)| == |keys|
  {
    if keys != [] {
      LastKey(keys);
      SizeOfKeys(keys[..|keys| - 1]);
      hide Elements, NoRepeat;
    }
  }

  // New, worsened and unchanged signals are a partition of the current ones, the resolved ones are
  // the baseline's that are gone, and what both sides have in common is counted the same on each.
  lemma {:induction false} ReportPartitions(b: Index, c: Index)
    requires Valid(b) && Valid(c)
    ensures var r := Compare(b, c);
            && KeySet(r.added) == c.impact.Keys - b.impact.Keys
            && KeySet(r.worsened) == (set k | k in c.impact && k in b.impact && c.impact[k] - b.impact[k] > 0.01)
            && KeySet(r.resolved) == b.impact.Keys - c.impact.Keys
            && |r.added| == |KeySet(r.added)| && |r.worsened| == |KeySet(r.worsened)|
                 && |r.resolved| == |KeySet(r.resolved)|
            && |r.added| + |r.worsened| + r.same == |c.impact|
            && |c.impact| - |r.added| == |b.impact| - |r.resolved|
  {
    MissingKeys(c.keys, c, b);
    MissingKeys(b.keys, b, c);
    GrownKeys(c.keys, b, c);
    CountsAddUp(c.keys, b, c);
    SizeOfKeys(c.keys);
    SizeOfKeys(b.keys);
    KeysAre(b);
    KeysAre(c);
    InCommon(b.impact.Keys, c.impact.Keys);
    hide NoRepeat, KeySet, Elements, Missing, Grown, Same;
  }

  lemma {:induction false} KeysAre(x: Index)
    requires Valid(x)
    ensures Elements(x.keys) == x.impact.Keys && |x.impact| == |x.impact.Keys|
  {
    hide NoRepeat;
  }

  lemma {:induction false} InCommon<T>(a: set<T>, b: set<T>)
    ensures |a| - |a - b| == |b| - |b - a|
  {
    assert a == (a - b) + (a * b) && b == (b - a) + (a * b);
  }

  // A multiple of a hundredth next to the value.
  ghost predicate Rounds(reported: real, value: real) {
    && -0.005 <= reported - value <= 0.005
    && (reported * 100.0).Floor as real == reported * 100.0
  }

  lemma {:induction false} Round2Near(x: real)
    ensures Rounds(Round2(x), x)
  {
    var n := RoundInt(x * 100.0);
    RoundNear(x * 100.0);
    assert Round2(x) * 100.0 == n as real;
    hide RoundInt, Round2;
  }

  ghost predicate Tells(change: Change, b: Index, c: Index) {
    match change
    case Plain(k, impact) => Rounds(impact, At(c, k))
    case Worsened(k, impact, baseline, delta) =>
      Rounds(impact, At(c, k)) && Rounds(baseline, At(b, k)) && Rounds(delta, At(c, k) - At(b, k))
  }

  lemma {:induction false} MissingTell(keys: seq<Key>, x: Index, other: Index, i: nat)
    requires i < |Missing(keys, x, other)|
    ensures Missing(keys, x, other)[i].Plain? && Tells(Missing(keys, x, other)[i], other, x)
  {
    Round2Near(At(x, keys[|keys| - 1]));
    hide Round2, Rounds, At;
    if i < |Missing(keys[..|keys| - 1], x, other)| { MissingTell(keys[..|keys| - 1], x, other, i); }
  }

  lemma {:induction false} GrownTell(keys: seq<Key>, b: Index, c: Index, i: nat)
    requires i < |Grown(keys, b, c)|
    ensures Grown(keys, b, c)[i].Worsened? && Tells(Grown(keys, b, c)[i], b, c)
  {
    var k := keys[|keys| - 1];
    Round2Near(At(c, k));
    Round2Near(At(b, k));
    Round2Near(At(c, k) - At(b, k));
    hide Round2, Rounds, At, Worse;
    if i < |Grown(keys[..|keys| - 1], b, c)| { GrownTell(keys[..|keys| - 1], b, c, i); }
  }

  // Every reported number is the one it stands for, rounded to the nearest hundredth.
  lemma {:induction false} ReportTells(b: Index, c: Index)
    ensures forall i {:trigger Compare(b, c).added[i]} :: 0 <= i < |Compare(b, c).added| ==>
              Compare(b, c).added[i].Plain? && Tells(Compare(b, c).added[i], b, c)
    ensures forall i {:trigger Compare(b, c).worsened[i]} :: 0 <= i < |Compare(b, c).worsened| ==>
              Compare(b, c).worsened[i].Worsened? && Tells(Compare(b, c).worsened[i], b, c)
    ensures forall i {:trigger Compare(b, c).resolved[i]} :: 0 <= i < |Compare(b, c).resolved| ==>
              Compare(b, c).resolved[i].Plain? && Tells(Compare(b, c).resolved[i], c, b)
  {
    hide Tells;
    var r := Compare(b, c);
    forall i | 0 <= i < |r.added|
      ensures r.added[i].Plain? && Tells(r.added[i], b, c)
    {
      MissingTell(c.keys, c, b, i);
    }
    forall i | 0 <= i < |r.worsened|
      ensures r.worsened[i].Worsened? && Tells(r.worsened[i], b, c)
    {
      GrownTell(c.keys, b, c, i);
    }
    forall i | 0 <= i < |r.resolved|
      ensures r.resolved[i].Plain? && Tells(r.resolved[i], c, b)
    {
      MissingTell(b.keys, b, c, i);
    }
  }

  // Swapping the snapshots swaps new and resolved, and no signal is worse both ways.
  lemma {:induction false} SwapMirrors(b: Index, c: Index)
    requires Valid(b) && Valid(c)
    ensures Compare(b, c).added == Compare(c, b).resolved && Compare(b, c).resolved == Compare(c, b).added
    ensures KeySet(Compare(b, c).worsened) !! KeySet(Compare(c, b).worsened)
  {
    ReportPartitions(b, c);
    ReportPartitions(c, b);
    hide KeySet, Missing, Grown, Same, Valid;
  }

  // A worsened signal is reported with a positive difference.
  lemma {:induction false} WorsenedIsPositive(keys: seq<Key>, b: Index, c: Index, i: nat)
    requires i < |Grown(keys, b, c)|
    ensures Grown(keys, b, c)[i].Worsened? && Grown(keys, b, c)[i].delta >= 0.01
  {
    var k := keys[|keys| - 1];
    if i < |Grown(keys[..|keys| - 1], b, c)| {
      WorsenedIsPositive(keys[..|keys| - 1], b, c, i);
    } else {
      RoundMonotone(1.0, (At(c, k) - At(b, k)) * 100.0);
      RoundExact(1);
    }
  }

  // ---- The scores --------------------------------------------------------------------------------

  function ScoreOf(components: map<string, real>, name: string): real {
    if name in components then components[name] else 0.0
  }

  function ScoreDeltas(baseline: map<string, real>, current: map<string, real>): map<string, real> {
    map name | name in baseline.Keys + current.Keys :: Round2(ScoreOf(current, name) - ScoreOf(baseline, name))
  }

  // Swapping the reports negates every difference: rounding has no bias.
  lemma {:induction false} ScoreDeltasMirror(baseline: map<string, real>, current: map<string, real>, name: string)
    requires name in ScoreDeltas(baseline, current)
    ensures name in ScoreDeltas(current, baseline)
    ensures ScoreDeltas(current, baseline)[name] == -ScoreDeltas(baseline, current)[name]
    ensures Rounds(ScoreDeltas(baseline, current)[name], ScoreOf(current, name) - ScoreOf(baseline, name))
  {
    Round2Near(ScoreOf(current, name) - ScoreOf(baseline, name));
    Round2Odd(ScoreOf(current, name) - ScoreOf(baseline, name));
    assert -(ScoreOf(current, name) - ScoreOf(baseline, name)) == ScoreOf(baseline, name) - ScoreOf(current, name);
    hide Round2, ScoreOf;
  }
}
