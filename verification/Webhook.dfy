/** Deduplication of webhook deliveries: examples/integration-evaluation/webhook-app.js. */
module Webhook {
  import opened Prelude

  type EventId = string
  type RequestId = nat
  type OperationId = nat

  // A promise chain: the call of onEvent, then accepted.add, then pending.delete, then it is settled.
  datatype Phase = Created | InFlight | Succeeded | Recorded | Failed | Settled(success: bool)

  datatype Operation = Operation(event: EventId, phase: Phase)

  datatype Delivery = WrongRoute | TooLarge | Unverified | Verified(event: EventId)

  // `starts` and `successes` are histories: the operations that called onEvent, and those whose call succeeded.
  datatype World = World(
    accepted: set<EventId>, pending: map<EventId, OperationId>,
    operations: seq<Operation>, waiting: map<RequestId, OperationId>, responses: map<RequestId, (Delivery, nat)>,
    starts: seq<OperationId>, successes: seq<OperationId>)

  datatype Step =
    | Arrive(request: RequestId, delivery: Delivery)
    | Start(operation: OperationId)
    | Finish(operation: OperationId, success: bool)
    | Record(operation: OperationId)
    | Finally(operation: OperationId)
    | Resume(request: RequestId)

  const MAX_BYTES := 65536

  const EMPTY := World({}, map[], [], map[], map[], [], [])

  predicate InPhase(w: World, operation: OperationId, phase: Phase) {
    operation < |w.operations| && w.operations[operation].phase == phase
  }

  function ToPhase(w: World, operation: OperationId, phase: Phase): World
    requires operation < |w.operations|
  {
    w.(operations := w.operations[operation := w.operations[operation].(phase := phase)])
  }

  function Respond(w: World, request: RequestId, delivery: Delivery, status: nat): World {
    w.(responses := w.responses[request := (delivery, status)])
  }

  predicate Enabled(w: World, step: Step) {
    match step
    case Arrive(request, _) => request !in w.responses && request !in w.waiting
    case Start(operation) => InPhase(w, operation, Created)
    case Finish(operation, _) => InPhase(w, operation, InFlight)
    case Record(operation) => InPhase(w, operation, Succeeded)
    case Finally(operation) => InPhase(w, operation, Recorded) || InPhase(w, operation, Failed)
    case Resume(request) =>
      && request in w.waiting && w.waiting[request] < |w.operations|
      && w.operations[w.waiting[request]].phase.Settled?
  }

  function Apply(w: World, step: Step): World {
    if !Enabled(w, step) then w
    else
      match step
      case Arrive(request, WrongRoute) => Respond(w, request, WrongRoute, 404)
      case Arrive(request, TooLarge) => Respond(w, request, TooLarge, 413)
      case Arrive(request, Unverified) => Respond(w, request, Unverified, 400)
      case Arrive(request, Verified(event)) =>
        if event in w.accepted then Respond(w, request, Verified(event), 200)
        else if event in w.pending then w.(waiting := w.waiting[request := w.pending[event]])
        else
          var operation := |w.operations|;
          w.(operations := w.operations + [Operation(event, Created)],
             pending := w.pending[event := operation], waiting := w.waiting[request := operation])
      case Start(operation) => ToPhase(w, operation, InFlight).(starts := w.starts + [operation])
      case Finish(operation, success) =>
        ToPhase(w, operation, if success then Succeeded else Failed)
          .(successes := if success then w.successes + [operation] else w.successes)
      case Record(operation) =>
        ToPhase(w, operation, Recorded).(accepted := w.accepted + {w.operations[operation].event})
      case Finally(operation) =>
        ToPhase(w, operation, Settled(w.operations[operation].phase == Recorded))
          .(pending := w.pending - {w.operations[operation].event})
      case Resume(request) =>
        var operation := w.operations[w.waiting[request]];
        Respond(w, request, Verified(operation.event), if operation.phase.success then 200 else 500)
          .(waiting := w.waiting - {request})
  }

  function Exec(w: World, steps: seq<Step>): World {
    if steps == [] then w else Apply(Exec(w, steps[..|steps| - 1]), steps[|steps| - 1])
  }

  // ---------------------------------------------------------------- what every step keeps

  // Where an operation stands, and what has been recorded of it.
  ghost predicate OperationMatches(w: World, k: OperationId, operation: Operation) {
    && (!operation.phase.Settled? ==> operation.event in w.pending && w.pending[operation.event] == k)
    && (k in w.starts <==> operation.phase != Created)
    && (k in w.successes <==> operation.phase in {Succeeded, Recorded, Settled(true)})
    && (operation.phase in {Recorded, Settled(true)} ==> operation.event in w.accepted)
  }

  ghost predicate OperationsMatch(w: World) {
    && (forall k :: 0 <= k < |w.operations| ==> OperationMatches(w, k, w.operations[k]))
    && (forall k :: k in w.starts || k in w.successes ==> k < |w.operations|)
  }

  ghost predicate PendingMatches(w: World) {
    forall event :: event in w.pending ==>
      w.pending[event] < |w.operations| && w.operations[w.pending[event]].event == event
      && !w.operations[w.pending[event]].phase.Settled?
  }

  // Some call of onEvent for this event has succeeded.
  ghost predicate HasSucceeded(w: World, event: EventId) {
    exists k: OperationId :: k in w.successes && k < |w.operations| && w.operations[k].event == event
  }

  ghost predicate AnswersMatch(w: World) {
    && (forall event :: event in w.accepted ==> HasSucceeded(w, event))
    && (forall request :: request in w.responses && w.responses[request].1 == 200 ==>
          w.responses[request].0.Verified? && HasSucceeded(w, w.responses[request].0.event))
  }

  // The calls of onEvent were for distinct operations, and none came after a success for its event.
  ghost predicate StartsInOrder(w: World) {
    && (forall i, j :: 0 <= i < j < |w.starts| ==> w.starts[i] != w.starts[j])
    && (forall k, later :: 0 <= k < later < |w.operations| && w.operations[k].event == w.operations[later].event ==>
          w.operations[k].phase == Settled(false))
  }

  ghost predicate Inv(w: World) {
    OperationsMatch(w) && PendingMatches(w) && AnswersMatch(w) && StartsInOrder(w)
  }

  lemma SuccessStays(w: World, next: World, event: EventId)
    requires HasSucceeded(w, event) && |w.operations| <= |next.operations|
    requires forall k :: 0 <= k < |w.operations| ==> next.operations[k].event == w.operations[k].event
    requires forall k :: k in w.successes ==> k in next.successes
    ensures HasSucceeded(next, event)
  {
    var k: OperationId :| k in w.successes && k < |w.operations| && w.operations[k].event == event;
    assert next.operations[k].event == event;
  }

  // Nothing but the waiting requests and the answers has changed.
  lemma AnswerKeepsInv(w: World, next: World)
    requires Inv(w) && next == w.(waiting := next.waiting, responses := next.responses)
    requires forall request :: request in next.responses && next.responses[request].1 == 200 ==>
               || (request in w.responses && next.responses[request] == w.responses[request])
               || (next.responses[request].0.Verified? && HasSucceeded(w, next.responses[request].0.event))
    ensures Inv(next)
  {
    forall k | 0 <= k < |w.operations| ensures OperationMatches(next, k, next.operations[k]) {
      assert OperationMatches(w, k, w.operations[k]);
    }
    forall event | HasSucceeded(w, event) ensures HasSucceeded(next, event) { SuccessStays(w, next, event); }
  }

  lemma NewOperationKeepsInv(w: World, request: RequestId, event: EventId)
    requires Inv(w) && event !in w.accepted && event !in w.pending
    ensures Inv(w.(operations := w.operations + [Operation(event, Created)],
                   pending := w.pending[event := |w.operations|], waiting := w.waiting[request := |w.operations|]))
  {
    var next := w.(operations := w.operations + [Operation(event, Created)],
                   pending := w.pending[event := |w.operations|], waiting := w.waiting[request := |w.operations|]);
    forall k | 0 <= k < |w.operations|
      ensures OperationMatches(next, k, next.operations[k])
      ensures w.operations[k].event == event ==> w.operations[k].phase == Settled(false)
    {
      assert OperationMatches(w, k, w.operations[k]);
    }
    forall e | HasSucceeded(w, e) ensures HasSucceeded(next, e) { SuccessStays(w, next, e); }
  }

  lemma ArriveKeepsInv(w: World, request: RequestId, delivery: Delivery)
    requires Inv(w)
    ensures Inv(Apply(w, Arrive(request, delivery)))
  {
    if Enabled(w, Arrive(request, delivery)) {
      if delivery.Verified? && delivery.event !in w.accepted && delivery.event !in w.pending {
        NewOperationKeepsInv(w, request, delivery.event);
      } else {
        AnswerKeepsInv(w, Apply(w, Arrive(request, delivery)));
      }
    }
  }

  // Two operations for one event are not both unsettled.
  lemma OtherOperations(w: World, operation: OperationId, k: OperationId)
    requires Inv(w) && operation < |w.operations| && k < |w.operations| && k != operation
    requires !w.operations[operation].phase.Settled? && w.operations[k].event == w.operations[operation].event
    ensures w.operations[k].phase == Settled(false)
  {
    assert OperationMatches(w, k, w.operations[k]) && OperationMatches(w, operation, w.operations[operation]);
  }

  // A step of the operation itself.
  ghost predicate Progresses(w: World, step: Step, operation: OperationId) {
    && Enabled(w, step) && operation < |w.operations| && !w.operations[operation].phase.Settled?
    && step in {Start(operation), Finish(operation, true), Finish(operation, false), Record(operation), Finally(operation)}
  }

  lemma ProgressKeepsOperations(w: World, step: Step, operation: OperationId)
    requires Inv(w) && Progresses(w, step, operation)
    ensures OperationsMatch(Apply(w, step)) && PendingMatches(Apply(w, step))
  {
    var next := Apply(w, step);
    assert OperationMatches(w, operation, w.operations[operation]);
    forall k | 0 <= k < |w.operations| ensures OperationMatches(next, k, next.operations[k]) {
      assert OperationMatches(w, k, w.operations[k]);
      if k != operation && w.operations[k].event == w.operations[operation].event { OtherOperations(w, operation, k); }
    }
  }

  lemma ProgressKeepsOrder(w: World, step: Step, operation: OperationId)
    requires Inv(w) && Progresses(w, step, operation)
    ensures StartsInOrder(Apply(w, step))
  {
    var next := Apply(w, step);
    assert OperationMatches(w, operation, w.operations[operation]);
    forall k, later | 0 <= k < later < |next.operations| && next.operations[k].event == next.operations[later].event
      ensures next.operations[k].phase == Settled(false)
    {
      assert w.operations[k].event == w.operations[later].event;
    }
  }

  lemma ProgressKeepsInv(w: World, step: Step, operation: OperationId)
    requires Inv(w) && Progresses(w, step, operation)
    ensures Inv(Apply(w, step))
  {
    var next := Apply(w, step);
    ProgressKeepsOperations(w, step, operation);
    ProgressKeepsOrder(w, step, operation);
    forall event | HasSucceeded(w, event) ensures HasSucceeded(next, event) { SuccessStays(w, next, event); }
    if step.Record? {
      assert OperationMatches(w, operation, w.operations[operation]);
      assert operation in next.successes && next.operations[operation].event == w.operations[operation].event;
    }
  }

  lemma ResumeKeepsInv(w: World, request: RequestId)
    requires Inv(w)
    ensures Inv(Apply(w, Resume(request)))
  {
    if Enabled(w, Resume(request)) {
      var next, k := Apply(w, Resume(request)), w.waiting[request];
      assert OperationMatches(w, k, w.operations[k]);
      forall j | 0 <= j < |w.operations| ensures OperationMatches(next, j, next.operations[j]) {
        assert OperationMatches(w, j, w.operations[j]);
      }
      forall event | HasSucceeded(w, event) ensures HasSucceeded(next, event) { SuccessStays(w, next, event); }
      if w.operations[k].phase.success { assert k in w.successes; }
    }
  }

  lemma StepKeepsInv(w: World, step: Step)
    requires Inv(w)
    ensures Inv(Apply(w, step))
  {
    match step
    case Arrive(request, delivery) => ArriveKeepsInv(w, request, delivery);
    case Resume(request) => ResumeKeepsInv(w, request);
    case Start(operation) => if Enabled(w, step) { ProgressKeepsInv(w, step, operation); }
    case Finish(operation, success) => if Enabled(w, step) { ProgressKeepsInv(w, step, operation); }
    case Record(operation) => if Enabled(w, step) { ProgressKeepsInv(w, step, operation); }
    case Finally(operation) => if Enabled(w, step) { ProgressKeepsInv(w, step, operation); }
  }

  lemma {:induction false} RunKeepsInv(steps: seq<Step>)
    ensures Inv(Exec(EMPTY, steps))
  {
    if steps != [] {
      RunKeepsInv(steps[..|steps| - 1]);
      StepKeepsInv(Exec(EMPTY, steps[..|steps| - 1]), steps[|steps| - 1]);
    }
  }

  // ---------------------------------------------------------------- main results

  /** In every interleaving of requests and completions, at most one onEvent is in flight for an event. */
  lemma OneInFlight(steps: seq<Step>, a: OperationId, b: OperationId)
    requires var w := Exec(EMPTY, steps);
             && InPhase(w, a, InFlight) && InPhase(w, b, InFlight) && w.operations[a].event == w.operations[b].event
    ensures a == b
  {
    RunKeepsInv(steps);
  }

  /** No onEvent starts for an event for which one has succeeded. */
  lemma NoneStartsAfterSuccess(steps: seq<Step>, step: Step)
    requires step.Start? && Enabled(Exec(EMPTY, steps), step)
    ensures var w := Exec(EMPTY, steps); !HasSucceeded(w, w.operations[step.operation].event)
  {
    var w := Exec(EMPTY, steps);
    RunKeepsInv(steps);
    forall k: OperationId | k < |w.operations| && w.operations[k].event == w.operations[step.operation].event
      ensures k !in w.successes
    {
      assert OperationMatches(w, k, w.operations[k]) && OperationMatches(w, step.operation, w.operations[step.operation]);
      if k != step.operation { OtherOperations(w, step.operation, k); }
    }
  }

  /** At most one onEvent ever succeeds for an event. */
  lemma OneSuccess(steps: seq<Step>, a: OperationId, b: OperationId)
    requires var w := Exec(EMPTY, steps);
             && a in w.successes && b in w.successes && a < |w.operations| && b < |w.operations|
             && w.operations[a].event == w.operations[b].event
    ensures a == b
  {
    var w := Exec(EMPTY, steps);
    RunKeepsInv(steps);
    assert OperationMatches(w, a, w.operations[a]) && OperationMatches(w, b, w.operations[b]);
  }

  /** A request is answered with 200 only for a verified event whose onEvent has succeeded. */
  lemma AnsweredOnlyAfterSuccess(steps: seq<Step>, request: RequestId)
    requires var w := Exec(EMPTY, steps); request in w.responses && w.responses[request].1 == 200
    ensures var w := Exec(EMPTY, steps);
            w.responses[request].0.Verified? && HasSucceeded(w, w.responses[request].0.event)
  {
    RunKeepsInv(steps);
  }

  /** When no operation for an event is left and none has succeeded, the next delivery starts a new one. */
  lemma FailureAllowsRetry(steps: seq<Step>, request: RequestId, event: EventId)
    requires var w := Exec(EMPTY, steps);
             && Enabled(w, Arrive(request, Verified(event)))
             && forall k :: 0 <= k < |w.operations| && w.operations[k].event == event ==> w.operations[k].phase == Settled(false)
    ensures var w := Exec(EMPTY, steps);
            var next := Apply(w, Arrive(request, Verified(event)));
            && next.operations == w.operations + [Operation(event, Created)]
            && next.waiting == w.waiting[request := |w.operations|]
  {
    var w := Exec(EMPTY, steps);
    RunKeepsInv(steps);
    forall k: OperationId | k < |w.operations| && w.operations[k].event == event
      ensures k !in w.successes && !(event in w.pending && w.pending[event] == k)
    {
      assert OperationMatches(w, k, w.operations[k]);
    }
  }

  // ---------------------------------------------------------------- the handler

  function TotalLength(chunks: seq<nat>): nat {
    if chunks == [] then 0 else TotalLength(chunks[..|chunks| - 1]) + chunks[|chunks| - 1]
  }

  // What a request is: its route, the lengths of its chunks, and the event that verification yields.
  function DeliveryOf(expectedRoute: bool, chunks: seq<nat>, event: Option<EventId>): Delivery {
    if !expectedRoute then WrongRoute
    else if TotalLength(chunks) > MAX_BYTES then TooLarge
    else if event.None? then Unverified
    else Verified(event.value)
  }

  lemma {:induction false} PrefixIsShorter(chunks: seq<nat>, n: nat)
    requires n <= |chunks|
    ensures TotalLength(chunks[..n]) <= TotalLength(chunks)
  {
    if n == |chunks| {
      assert chunks[..n] == chunks;
    } else {
      PrefixIsShorter(chunks[..|chunks| - 1], n);
      assert chunks[..|chunks| - 1][..n] == chunks[..n];
    }
  }

  class Application {
    var accepted: set<EventId>
    var pending: map<EventId, OperationId>
    var operations: seq<Operation>
    var waiting: map<RequestId, OperationId>
    var responses: map<RequestId, (Delivery, nat)>
    ghost var starts: seq<OperationId>
    ghost var successes: seq<OperationId>

    ghost function Contents(): World
      reads this
    {
      World(accepted, pending, operations, waiting, responses, starts, successes)
    }

    constructor ()
      ensures Contents() == EMPTY
    {
      accepted, pending, operations, waiting, responses := {}, map[], [], map[], map[];
      starts, successes := [], [];
    }

    // Reads the body chunk by chunk and stops once it is too large.
    method Receive(expectedRoute: bool, chunks: seq<nat>, event: Option<EventId>) returns (delivery: Delivery)
      ensures delivery == DeliveryOf(expectedRoute, chunks, event)
    {
      if !expectedRoute { return WrongRoute; }
      var bytes := 0;
      for i := 0 to |chunks|
        invariant bytes == TotalLength(chunks[..i]) && bytes <= MAX_BYTES
      {
        assert chunks[..i + 1][..i] == chunks[..i];
        bytes := bytes + chunks[i];
        if bytes > MAX_BYTES {
          PrefixIsShorter(chunks, i + 1);
          return TooLarge;
        }
      }
      assert chunks[..|chunks|] == chunks;
      delivery := if event.None? then Unverified else Verified(event.value);
    }

    // A request up to its answer or its wait for the operation of its event.
    method Handle(request: RequestId, expectedRoute: bool, chunks: seq<nat>, event: Option<EventId>)
      requires Enabled(Contents(), Arrive(request, DeliveryOf(expectedRoute, chunks, event)))
      modifies this
      ensures Contents() == Apply(old(Contents()), Arrive(request, DeliveryOf(expectedRoute, chunks, event)))
    {
      var delivery := Receive(expectedRoute, chunks, event);
      match delivery {
        case WrongRoute => responses := responses[request := (delivery, 404)];
        case TooLarge => responses := responses[request := (delivery, 413)];
        case Unverified => responses := responses[request := (delivery, 400)];
        case Verified(id) =>
          if id in accepted {
            responses := responses[request := (delivery, 200)];
          } else {
            if id !in pending {
              pending := pending[id := |operations|];
              operations := operations + [Operation(id, Created)];
            }
            waiting := waiting[request := pending[id]];
          }
      }
    }

    method CallOnEvent(operation: OperationId)
      requires Enabled(Contents(), Start(operation))
      modifies this
      ensures Contents() == Apply(old(Contents()), Start(operation))
    {
      operations := operations[operation := operations[operation].(phase := InFlight)];
      starts := starts + [operation];
    }

    method OnEventSettles(operation: OperationId, success: bool)
      requires Enabled(Contents(), Finish(operation, success))
      modifies this
      ensures Contents() == Apply(old(Contents()), Finish(operation, success))
    {
      operations := operations[operation := operations[operation].(phase := if success then Succeeded else Failed)];
      if success { successes := successes + [operation]; }
    }

    method RecordAccepted(operation: OperationId)
      requires Enabled(Contents(), Record(operation))
      modifies this
      ensures Contents() == Apply(old(Contents()), Record(operation))
    {
      accepted := accepted + {operations[operation].event};
      operations := operations[operation := operations[operation].(phase := Recorded)];
    }

    method ForgetPending(operation: OperationId)
      requires Enabled(Contents(), Finally(operation))
      modifies this
      ensures Contents() == Apply(old(Contents()), Finally(operation))
    {
      pending := pending - {operations[operation].event};
      operations := operations[operation := operations[operation].(phase := Settled(operations[operation].phase == Recorded))];
    }

    method Answer(request: RequestId)
      requires Enabled(Contents(), Resume(request))
      modifies this
      ensures Contents() == Apply(old(Contents()), Resume(request))
    {
      var operation := operations[waiting[request]];
      responses := responses[request := (Verified(operation.event), if operation.phase.success then 200 else 500)];
      waiting := waiting - {request};
    }
  }
}
