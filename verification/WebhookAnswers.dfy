/** How every webhook delivery is answered, over all interleavings. */
module WebhookAnswers {
  import opened Prelude
  import opened Webhook

  // ---------------------------------------------------------------- what the status says

  // A call of onEvent for this event has failed, and its operation is over.
  ghost predicate HasFailed(w: World, event: EventId) {
    exists k: OperationId :: k < |w.operations| && w.operations[k] == Operation(event, Settled(false))
  }

  ghost predicate IsAnswer(w: World, delivery: Delivery, status: nat) {
    match delivery
    case WrongRoute => status == 404
    case TooLarge => status == 413
    case Unverified => status == 400
    case Verified(event) => (status == 200 && HasSucceeded(w, event)) || (status == 500 && HasFailed(w, event))
  }

  ghost predicate AnswersFit(w: World) {
    forall request :: request in w.responses ==> IsAnswer(w, w.responses[request].0, w.responses[request].1)
  }

  // A waiting request has no answer yet, and its operation exists.
  ghost predicate WaitingFits(w: World) {
    forall request :: request in w.waiting ==> request !in w.responses && w.waiting[request] < |w.operations|
  }

  // Operations stay, and one that is over does not change.
  ghost predicate OperationsStay(w: World, next: World) {
    && |w.operations| <= |next.operations| && (forall k :: k in w.successes ==> k in next.successes)
    && forall k :: 0 <= k < |w.operations| ==>
         && next.operations[k].event == w.operations[k].event
         && (w.operations[k].phase.Settled? ==> next.operations[k] == w.operations[k])
  }

  lemma StepKeepsOperations(w: World, step: Step)
    ensures OperationsStay(w, Apply(w, step))
  {
  }

  lemma AnswersStay(w: World, next: World, delivery: Delivery, status: nat)
    requires IsAnswer(w, delivery, status) && OperationsStay(w, next)
    ensures IsAnswer(next, delivery, status)
  {
    if delivery.Verified? {
      if status == 200 {
        SuccessStays(w, next, delivery.event);
      } else {
        var k: OperationId :| k < |w.operations| && w.operations[k] == Operation(delivery.event, Settled(false));
        assert next.operations[k] == w.operations[k];
      }
    }
  }

  // The answer that this step gives, if it gives one.
  lemma NewAnswerFits(w: World, step: Step, request: RequestId)
    requires Inv(w) && request in Apply(w, step).responses && request !in w.responses
    ensures var (delivery, status) := Apply(w, step).responses[request]; IsAnswer(Apply(w, step), delivery, status)
  {
    var next := Apply(w, step);
    if step.Resume? {
      var k := w.waiting[request];
      assert OperationMatches(w, k, w.operations[k]);
      assert next.operations[k] == w.operations[k];
      if w.operations[k].phase.success { assert k in next.successes; }
    } else {
      assert step.Arrive? && step.request == request;
      if step.delivery.Verified? { SuccessStays(w, next, step.delivery.event); }
    }
  }

  lemma StepKeepsWaiting(w: World, step: Step)
    requires Inv(w) && WaitingFits(w)
    ensures WaitingFits(Apply(w, step))
  {
  }

  // An answer that was given stays.
  lemma ResponsesStay(w: World, step: Step, request: RequestId)
    requires WaitingFits(w) && request in w.responses
    ensures request in Apply(w, step).responses && Apply(w, step).responses[request] == w.responses[request]
  {
  }

  lemma AnswerFits(w: World, step: Step, request: RequestId)
    requires Inv(w) && AnswersFit(w) && WaitingFits(w) && request in Apply(w, step).responses
    ensures var (delivery, status) := Apply(w, step).responses[request]; IsAnswer(Apply(w, step), delivery, status)
  {
    if request in w.responses {
      StepKeepsOperations(w, step);
      ResponsesStay(w, step, request);
      AnswersStay(w, Apply(w, step), w.responses[request].0, w.responses[request].1);
    } else {
      NewAnswerFits(w, step, request);
    }
  }

  lemma StepKeepsAnswers(w: World, step: Step)
    requires Inv(w) && AnswersFit(w) && WaitingFits(w)
    ensures AnswersFit(Apply(w, step)) && WaitingFits(Apply(w, step))
  {
    StepKeepsWaiting(w, step);
    var next := Apply(w, step);
    forall request | request in next.responses
      ensures IsAnswer(next, next.responses[request].0, next.responses[request].1)
    {
      AnswerFits(w, step, request);
    }
  }

  lemma {:induction false} RunKeepsAnswers(steps: seq<Step>)
    ensures AnswersFit(Exec(EMPTY, steps)) && WaitingFits(Exec(EMPTY, steps))
  {
    if steps != [] {
      var front := steps[..|steps| - 1];
      RunKeepsAnswers(front);
      RunKeepsInv(front);
      StepKeepsAnswers(Exec(EMPTY, front), steps[|steps| - 1]);
    }
  }

  /** In every run each answer fits its request: 404 for another route, 413 for a body that is too large, 400 for one
      that cannot be verified, and otherwise 200 if a call of onEvent for the event succeeded, 500 if one failed. */
  lemma StatusSaysWhatHappened(steps: seq<Step>, request: RequestId)
    requires request in Exec(EMPTY, steps).responses
    ensures var w := Exec(EMPTY, steps); IsAnswer(w, w.responses[request].0, w.responses[request].1)
  {
    RunKeepsAnswers(steps);
  }

  // ---------------------------------------------------------------- whose result it is

  // The request waits for operation k, or has been given its result.
  ghost predicate AnsweredBy(w: World, request: RequestId, k: OperationId, event: EventId) {
    && k < |w.operations| && w.operations[k].event == event
    && if request in w.waiting then w.waiting[request] == k && request !in w.responses
       else
         && w.operations[k].phase.Settled? && request in w.responses
         && w.responses[request] == (Verified(event), if w.operations[k].phase.success then 200 else 500)
  }

  lemma StepKeepsAnswerer(w: World, step: Step, request: RequestId, k: OperationId, event: EventId)
    requires AnsweredBy(w, request, k, event)
    ensures AnsweredBy(Apply(w, step), request, k, event)
  {
    StepKeepsOperations(w, step);
  }

  lemma {:induction false} RunKeepsAnswerer(w: World, steps: seq<Step>, request: RequestId, k: OperationId, event: EventId)
    requires AnsweredBy(w, request, k, event)
    ensures AnsweredBy(Exec(w, steps), request, k, event)
  {
    if steps != [] {
      var front := steps[..|steps| - 1];
      RunKeepsAnswerer(w, front, request, k, event);
      StepKeepsAnswerer(Exec(w, front), steps[|steps| - 1], request, k, event);
    }
  }

  /** A verified delivery of an event that has been accepted is answered with 200 at once.  Any other waits for one
      operation of its event: the one that is pending, or else a new one.  Whatever comes after, it is not answered
      before that operation is over, and then with its result: 200 if the call of onEvent succeeded, 500 if it failed. */
  lemma DeliveryGetsItsResult(before: seq<Step>, request: RequestId, event: EventId, after: seq<Step>) returns (k: OperationId)
    requires Enabled(Exec(EMPTY, before), Arrive(request, Verified(event)))
    ensures var w := Exec(EMPTY, before);
            var arrived := Apply(w, Arrive(request, Verified(event)));
            if event in w.accepted then arrived == w.(responses := w.responses[request := (Verified(event), 200)])
            else
              && AnsweredBy(arrived, request, k, event) && AnsweredBy(Exec(arrived, after), request, k, event)
              && request in arrived.waiting
              && (if event in w.pending then k == w.pending[event] && arrived.operations == w.operations
                  else k == |w.operations| && arrived.operations == w.operations + [Operation(event, Created)])
  {
    var w := Exec(EMPTY, before);
    var arrived := Apply(w, Arrive(request, Verified(event)));
    RunKeepsInv(before);
    k := 0;
    if event !in w.accepted {
      k := if event in w.pending then w.pending[event] else |w.operations|;
      RunKeepsAnswerer(arrived, after, request, k, event);
    }
  }

  /** An operation that is over has succeeded exactly if its call of onEvent has, and its event is then accepted;
      one that failed leaves nothing behind, neither accepted nor pending for it. */
  lemma OverMeansRecorded(steps: seq<Step>, k: OperationId)
    requires var w := Exec(EMPTY, steps); k < |w.operations| && w.operations[k].phase.Settled?
    ensures var w := Exec(EMPTY, steps);
            && (w.operations[k].phase.success <==> k in w.successes)
            && (w.operations[k].phase.success ==> w.operations[k].event in w.accepted)
            && !(w.operations[k].event in w.pending && w.pending[w.operations[k].event] == k)
  {
    var w := Exec(EMPTY, steps);
    RunKeepsInv(steps);
    assert OperationMatches(w, k, w.operations[k]);
  }

  // ---------------------------------------------------------------- which requests are refused

  // Some of the chunks together are more than 64 KiB.
  predicate Exceeds(chunks: seq<nat>, n: nat)
    requires n <= |chunks|
  {
    TotalLength(chunks[..n]) > 65536
  }

  lemma {:induction false} TotalLengthGrows(chunks: seq<nat>, n: nat)
    requires n <= |chunks|
    ensures TotalLength(chunks[..n]) <= TotalLength(chunks)
  {
    PrefixIsShorter(chunks, n);
  }

  /** Requests are refused in this order: for their route, for their size as soon as the chunks read are more than
      64 KiB, and for their signature; all others are deliveries of an event. */
  lemma RefusalsAreInOrder(expectedRoute: bool, chunks: seq<nat>, event: Option<EventId>)
    ensures var delivery := DeliveryOf(expectedRoute, chunks, event);
            && (delivery == WrongRoute <==> !expectedRoute)
            && (delivery == TooLarge <==> expectedRoute && exists n :: 0 <= n <= |chunks| && Exceeds(chunks, n))
            && (delivery == Unverified <==> expectedRoute && event == None && forall n :: 0 <= n <= |chunks| ==> !Exceeds(chunks, n))
            && (forall id :: delivery == Verified(id) <==>
                  expectedRoute && event == Some(id) && forall n :: 0 <= n <= |chunks| ==> !Exceeds(chunks, n))
  {
    assert chunks[..|chunks|] == chunks;
    forall n | 0 <= n <= |chunks| ensures Exceeds(chunks, n) ==> TotalLength(chunks) > 65536 { TotalLengthGrows(chunks, n); }
    assert TotalLength(chunks) > 65536 <==> Exceeds(chunks, |chunks|);
  }
}
