/** One GitHub webhook delivery. */
module WebhookEvents {
  // Its life: stored once per delivery id, queued, claimed by a worker under a row lock, routed, and
  // marked with how that went.

  import opened Options

  datatype Status = Received | Queued | Processing | Processed | Ignored | Failed

  predicate IsTerminal(s: Status) {
    s == Processed || s == Ignored || s == Failed
  }

  // How routing ended: an enqueue error is retryable, any other exception is not.
  datatype Routing = RoutedOk | RoutedNowhere | Raised | Retryable

  // What the stored result says.
  datatype Outcome = Blank | PayloadInvalid | Routed(how: Routing)

  datatype Row = Row(status: Status, result: Outcome)

  // The broker took the message, refused it, or took it and reported an error all the same.
  datatype Publish = Accepted | Refused | AcceptedWithError

  datatype Response = AcceptedResponse | Requeued | Duplicate | Unavailable | Invalid

  // ---- What each operation does to the row -------------------------------------------------------

  function Enqueue(row: Row, publish: Publish): Row {
    row.(status := if publish == Accepted then Queued else Received)
  }

  // A webhook request for the delivery, as one step.
  function Post(row: Option<Row>, valid: bool, publish: Publish): Option<Row> {
    match row
    case None => Some(if valid then Enqueue(Row(Received, Blank), publish) else Row(Failed, PayloadInvalid))
    case Some(r) => Some(if valid && r.status == Received then Enqueue(r, publish) else r)
  }

  // Does the request hand a message to the broker?
  predicate Publishes(row: Option<Row>, valid: bool, publish: Publish) {
    valid && publish != Refused && (row.None? || row.value.status == Received)
  }

  predicate Claimable(row: Row) {
    row.status == Received || row.status == Queued
  }

  function StatusAfter(how: Routing): Status {
    match how
    case RoutedOk => Processed
    case RoutedNowhere => Ignored
    case Raised => Failed
    case Retryable => Received
  }

  function Finish(how: Routing): Row {
    Row(StatusAfter(how), Routed(how))
  }

  // The stored delivery.
  class WebhookEvent {
    var row: Option<Row>

    constructor ()
      ensures row == None
    {
      row := None;
    }

    // The endpoint: store the delivery unless it is there, and queue it when that has not happened.
    method WebhookDelivery(valid: bool, publish: Publish) returns (response: Response)
      modifies this
      ensures row == Post(old(row), valid, publish)
      ensures valid && response != Duplicate ==>
                row == Some(Row(if publish == Accepted then Queued else Received,
                                if old(row).None? then Blank else old(row).value.result))
      ensures response == Duplicate || (response == Invalid && old(row).Some?) ==> row == old(row)
      ensures response == Invalid && old(row).None? ==> row == Some(Row(Failed, PayloadInvalid))
      ensures response.Invalid? <==> !valid
      ensures response.AcceptedResponse? <==> valid && old(row).None? && publish == Accepted
      ensures response.Requeued?
         <==> valid && old(row).Some? && old(row).value.status == Received && publish == Accepted
      ensures response.Duplicate? <==> valid && old(row).Some? && old(row).value.status != Received
      ensures response.Unavailable?
         <==> valid && (old(row).None? || old(row).value.status == Received) && publish != Accepted
    {
      if !valid {
        if row == None { row := Some(Row(Failed, PayloadInvalid)); }
        return Invalid;
      }
      var created := row == None;
      if created { row := Some(Row(Received, Blank)); }
      if !created && row.value.status != Received { return Duplicate; }
      row := Some(row.value.(status := Queued));
      if publish != Accepted {
        row := Some(row.value.(status := Received));
        return Unavailable;
      }
      response := if created then AcceptedResponse else Requeued;
    }

    method Claim() returns (claimed: bool)
      requires row.Some?
      modifies this
      ensures claimed == Claimable(old(row).value)
      ensures row == if claimed then Some(old(row).value.(status := Processing)) else old(row)
    {
      if row.value.status == Processing || row.value.status == Processed || row.value.status == Ignored
          || row.value.status == Failed {
        return false;
      }
      row := Some(row.value.(status := Processing));
      claimed := true;
    }

    // Claim, route, store. The routing itself is what `how` stands for.
    method ProcessStored(how: Routing) returns (routed: bool)
      requires row.Some?
      modifies this
      ensures routed == Claimable(old(row).value)
      ensures row == if routed then Some(Finish(how)) else old(row)
      ensures routed && how == RoutedOk ==> row == Some(Row(Processed, Routed(how)))
      ensures routed && how == RoutedNowhere ==> row == Some(Row(Ignored, Routed(how)))
      ensures routed && how == Raised ==> row == Some(Row(Failed, Routed(how)))
      ensures routed && how == Retryable ==> row == Some(Row(Received, Routed(how)))
    {
      routed := Claim();
      if !routed { return; }
      match how {
        case Retryable => row := Some(Row(Received, Routed(how)));
        case Raised => row := Some(Row(Failed, Routed(how)));
        case RoutedOk => row := Some(Row(Processed, Routed(how)));
        case RoutedNowhere => row := Some(Row(Ignored, Routed(how)));
      }
    }
  }

  // ---- Runs ------------------------------------------------------------------------------------

  // `published`: the broker has had a message, and may hand it to workers any number of times;
  // `routing`: the workers that claimed the row and have not stored a result;
  // `stores`: how often a terminal result was stored.
  datatype State = State(row: Option<Row>, published: bool, routing: set<nat>, stores: nat)

  const INITIAL := State(None, false, {}, 0)

  datatype Action =
    | Request(valid: bool, publish: Publish)
    | Take(worker: nat)
    | Store(worker: nat, how: Routing)
    | Crash(worker: nat)
    | LateEnqueue(publish: Publish)

  // The enqueueing half of a request that read the row some time ago.
  predicate Stale(a: Action) {
    a.LateEnqueue?
  }

  function Step(s: State, a: Action): State {
    match a
    case Request(valid, publish) =>
      var row := Post(s.row, valid, publish);
      State(row, s.published || Publishes(s.row, valid, publish), s.routing,
            s.stores + if s.row.None? && !valid then 1 else 0)
    case Take(w) =>
      if s.published && s.row.Some? && Claimable(s.row.value) && w !in s.routing then
        s.(row := Some(s.row.value.(status := Processing)), routing := s.routing + {w})
      else s
    case Store(w, how) =>
      if w in s.routing then
        s.(row := Some(Finish(how)), routing := s.routing - {w}, stores := s.stores
            + if IsTerminal(Finish(how).status) then 1 else 0)
      else s
    case Crash(w) => s.(routing := s.routing - {w})
    case LateEnqueue(publish) =>
      if s.row.Some? then s.(row := Some(Enqueue(s.row.value, publish)), published := s.published
          || publish != Refused) else s
  }

  function Run(s: State, run: seq<Action>): State {
    if run == [] then s else Step(Run(s, run[..|run| - 1]), run[|run| - 1])
  }

  // Every request checks and queues in one step.
  ghost predicate Atomic(run: seq<Action>) {
    forall k {:trigger run[k]} :: 0 <= k < |run| ==> !Stale(run[k])
  }

  predicate Ended(s: State) {
    s.row.Some? && IsTerminal(s.row.value.status)
  }

  ghost predicate Sound(s: State) {
    && (s.row.None? ==> !s.published && s.routing == {})
    && (forall v, w {:trigger v in s.routing, w in s.routing} :: v in s.routing && w in s.routing ==> v == w)
    && (s.routing != {} ==> s.row.Some? && s.row.value.status == Processing)
    && (s.row.Some? && s.row.value.status == Queued ==> s.published)
    && s.stores == (if Ended(s) then 1 else 0)
  }

  lemma {:induction false} StepKeepsSound(s: State, a: Action)
    requires Sound(s) && !Stale(a)
    ensures Sound(Step(s, a))
  {
  }

  // In every run at most one worker routes the delivery at a time, and a terminal result is stored
  // at most once: exactly when the delivery has ended.
  lemma {:induction false} RunIsSound(run: seq<Action>)
    requires Atomic(run)
    ensures Sound(Run(INITIAL, run))
  {
    if run != [] {
      var init := run[..|run| - 1];
      assert forall k {:trigger init[k]} :: 0 <= k < |init| ==> init[k] == run[k];
      RunIsSound(init);
      StepKeepsSound(Run(INITIAL, init), run[|run| - 1]);
    }
  }

  lemma {:induction false} OneWorkerRoutes(run: seq<Action>)
    requires Atomic(run)
    ensures |Run(INITIAL, run).routing| <= 1 && Run(INITIAL, run).stores == if Ended(Run(INITIAL, run)) then 1 else 0
  {
    RunIsSound(run);
    var routing := Run(INITIAL, run).routing;
    if w :| w in routing { assert routing == {w}; }
  }

  // Once it has ended, nothing changes the row any more, and nobody routes it.
  lemma {:induction false} EndedIsFinal(s: State, run: seq<Action>)
    requires Sound(s) && Ended(s) && Atomic(run)
    ensures Sound(Run(s, run)) && Run(s, run).row == s.row && Run(s, run).stores == s.stores
              && Run(s, run).routing == {}
  {
    if run != [] {
      var init := run[..|run| - 1];
      assert forall k {:trigger init[k]} :: 0 <= k < |init| ==> init[k] == run[k];
      EndedIsFinal(s, init);
      StepKeepsSound(Run(s, init), run[|run| - 1]);
    }
  }

  // ---- What ends a delivery ------------------------------------------------------------------------

  // The last thing a run says about its delivery.
  datatype Word = Unsaid | BadPayload | Said(how: Routing)

  // Some request of the run was for the delivery.
  predicate Asked(run: seq<Action>) {
    run != [] && (run[|run| - 1].Request? || Asked(run[..|run| - 1]))
  }

  function LastWord(run: seq<Action>): Word {
    if run == [] then Unsaid
    else
      var init := run[..|run| - 1];
      match run[|run| - 1]
      case Request(valid, publish) => if !valid && !Asked(init) then BadPayload else LastWord(init)
      case Store(w, how) => if w in Run(INITIAL, init).routing then Said(how) else LastWord(init)
      case _ => LastWord(init)
  }

  ghost predicate TellsLastWord(row: Option<Row>, word: Word) {
    match row
    case None => word == Unsaid
    case Some(r) =>
      && r.result == (match word case Unsaid => Blank case BadPayload => PayloadInvalid case Said(how) => Routed(how))
      && (r.status == Processed <==> word == Said(RoutedOk))
      && (r.status == Ignored <==> word == Said(RoutedNowhere))
      && (r.status == Failed <==> word == BadPayload || word == Said(Raised))
  }

  // The delivery is stored by its first request.  It has ended exactly when its payload was invalid
  // or the last routing that was stored is not to be retried, and its status says which of these.
  lemma {:induction false} EndedByLastWord(run: seq<Action>)
    requires Atomic(run)
    ensures Run(INITIAL, run).row.Some? <==> Asked(run)
    ensures TellsLastWord(Run(INITIAL, run).row, LastWord(run))
  {
    if run != [] {
      var init := run[..|run| - 1];
      assert forall k {:trigger init[k]} :: 0 <= k < |init| ==> init[k] == run[k];
      EndedByLastWord(init);
      RunIsSound(init);
      assert !Stale(run[|run| - 1]);
    }
  }

  // A routing that is to be retried does not end the delivery: the next request queues it again, and
  // a worker that takes it routes it again.
  lemma {:induction false} RetryableRoutesAgain(run: seq<Action>, w: nat, v: nat)
    requires Atomic(run) && w in Run(INITIAL, run).routing
    ensures var stored := run + [Store(w, Retryable)];
            && Run(INITIAL, stored).row == Some(Row(Received, Routed(Retryable)))
            && Run(INITIAL, stored).stores == Run(INITIAL, run).stores && Run(INITIAL, stored).routing == {}
            && Run(INITIAL, stored + [Request(true, Accepted)]).row == Some(Row(Queued, Routed(Retryable)))
            && Run(INITIAL, stored + [Request(true, Accepted)] + [Take(v)])
               == State(Some(Row(Processing, Routed(Retryable))), true, {v}, Run(INITIAL, run).stores)
  {
    RunIsSound(run);
    var s := Run(INITIAL, run);
    assert s.routing == {w};
    RunSnoc(INITIAL, run, Store(w, Retryable));
    RunSnoc(INITIAL, run + [Store(w, Retryable)], Request(true, Accepted));
    RunSnoc(INITIAL, run + [Store(w, Retryable)] + [Request(true, Accepted)], Take(v));
    hide Run;
  }

  // ---- Where a delivery gets stuck -----------------------------------------------------------------

  // The worker that claimed the row is gone.
  predicate Abandoned(s: State) {
    s.row.Some? && s.row.value.status == Processing && s.routing == {}
  }

  lemma {:induction false} AbandonedForever(s: State, run: seq<Action>)
    requires Abandoned(s) && Atomic(run)
    ensures Abandoned(Run(s, run)) && Run(s, run).row == s.row
  {
    if run != [] {
      var init := run[..|run| - 1];
      assert forall k {:trigger init[k]} :: 0 <= k < |init| ==> init[k] == run[k];
      AbandonedForever(s, init);
    }
  }

  lemma {:induction false} RunSnoc(s: State, run: seq<Action>, a: Action)
    ensures Run(s, run + [a]) == Step(Run(s, run), a)
  {
    assert (run + [a])[..|run|] == run;
  }

  lemma {:induction false} RunThree(s: State, a: Action, b: Action, c: Action)
    ensures Run(s, [a, b, c]) == Step(Step(Step(s, a), b), c) && Run(s, [a]) == Step(s, a) && Run(s, []) == s
  {
    assert [a, b, c] == [] + [a] + [b] + [c] && [a] == [] + [a];
    RunSnoc(s, [], a);
    RunSnoc(s, [] + [a], b);
    RunSnoc(s, [] + [a] + [b], c);
  }

  // A way to the end from a state that is not abandoned.
  lemma {:induction false} Escape(s: State) returns (run: seq<Action>)
    requires Sound(s) && !Abandoned(s)
    ensures Atomic(run) && Ended(Run(s, run))
  {
    var request, take, store := Request(true, Accepted), Take(0), Store(0, RoutedOk);
    if Ended(s) {
      RunThree(s, request, take, store);
      run := [];
    } else if w :| w in s.routing {
      RunThree(s, Store(w, RoutedOk), take, store);
      run := [Store(w, RoutedOk)];
    } else {
      RunThree(s, request, take, store);
      run := [request, take, store];
    }
  }

  ghost predicate Finishes(s: State, run: seq<Action>) {
    Atomic(run) && Ended(Run(s, run))
  }

  // A delivery can still come to an end exactly when no worker died while it was processing it.
  lemma {:induction false} EndsUnlessAbandoned(s: State)
    requires Sound(s)
    ensures !Abandoned(s) <==> exists run: seq<Action> {:trigger Finishes(s, run)} :: Finishes(s, run)
  {
    if Abandoned(s) {
      forall run: seq<Action>
        ensures !Finishes(s, run)
      {
        if Atomic(run) { AbandonedForever(s, run); }
      }
    } else {
      var way := Escape(s);
      assert Finishes(s, way);
    }
  }

  // A worker that dies on its first delivery leaves it abandoned.
  const DIED := [Request(true, Accepted)] + [Take(0)] + [Crash(0)]

  lemma {:induction false} CrashAbandons()
    ensures Atomic(DIED) && Abandoned(Run(INITIAL, DIED))
  {
    assert DIED == [Request(true, Accepted), Take(0), Crash(0)];
    RunThree(INITIAL, Request(true, Accepted), Take(0), Crash(0));
    hide Run;
  }

  // ---- Checking and queueing in two steps ----------------------------------------------------------

  // A late queueing does no harm where the row is not there, can be claimed, or is abandoned anyway.
  predicate Harmless(s: State, a: Action) {
    Stale(a) ==> s.row.None? || Claimable(s.row.value) || Abandoned(s)
  }

  // Each step keeps the state sound exactly when it is harmless: a late queueing breaks it on a row
  // that is being routed or has ended.
  lemma {:induction false} StepSoundIff(s: State, a: Action)
    requires Sound(s)
    ensures Sound(Step(s, a)) <==> Harmless(s, a)
  {
    if !Stale(a) {
      StepKeepsSound(s, a);
    } else if !Harmless(s, a) {
      assert s.routing != {} || Ended(s);
    }
  }

  // The run is sound at every point.
  ghost predicate AlwaysSound(run: seq<Action>) {
    Sound(Run(INITIAL, run)) && (run == [] || AlwaysSound(run[..|run| - 1]))
  }

  // Every late queueing of the run is harmless where it happens.
  ghost predicate AllHarmless(run: seq<Action>) {
    run == [] || (Harmless(Run(INITIAL, run[..|run| - 1]), run[|run| - 1]) && AllHarmless(run[..|run| - 1]))
  }

  // Without the assumption that requests check and queue in one step: the guarantees hold all along
  // a run exactly when no late queueing hits a row that is being routed or has ended.
  lemma {:induction false} SoundIffHarmless(run: seq<Action>)
    ensures AlwaysSound(run) <==> AllHarmless(run)
  {
    if run != [] {
      var init, a := run[..|run| - 1], run[|run| - 1];
      SoundIffHarmless(init);
      hide Sound, Harmless, Step;
      if AlwaysSound(init) { StepSoundIff(Run(INITIAL, init), a); }
    }
  }

  // A delivery that is stored, redelivered, queued and processed ...
  const HANDLED := [Request(true, Refused)] + [Request(true, Accepted)] + [Take(1)] + [Store(1, RoutedOk)]

  // ... when the request that stored it comes to its own queueing at last.
  const QUEUED_AGAIN := HANDLED + [LateEnqueue(Accepted)] + [Take(2)]

  // Checking and queueing in two steps breaks it: a second worker routes the delivery and stores a
  // second result.
  lemma {:induction false} LateEnqueueRoutesTwice()
    ensures Ended(Run(INITIAL, HANDLED)) && !Ended(Run(INITIAL, QUEUED_AGAIN))
    ensures Run(INITIAL, QUEUED_AGAIN + [Store(2, RoutedOk)]).stores == 2
  {
    var first := [Request(true, Refused)];
    assert [] + first == first;
    RunSnoc(INITIAL, [], first[0]);
    RunSnoc(INITIAL, first, Request(true, Accepted));
    RunSnoc(INITIAL, first + [Request(true, Accepted)], Take(1));
    RunSnoc(INITIAL, first + [Request(true, Accepted)] + [Take(1)], Store(1, RoutedOk));
    RunSnoc(INITIAL, HANDLED, LateEnqueue(Accepted));
    RunSnoc(INITIAL, HANDLED + [LateEnqueue(Accepted)], Take(2));
    RunSnoc(INITIAL, QUEUED_AGAIN, Store(2, RoutedOk));
    hide Run;
    assert Run(INITIAL, HANDLED) == State(Some(Row(Processed, Routed(RoutedOk))), true, {}, 1);
  }
}
