/**
 * Running a piece of work under an idempotency key: claim the key, work, record
 * the response, or release the key. Requests interleave freely, any may die at
 * any point, and recording or releasing may fail. Claiming and reading back a
 * taken key is one step, and no key expires.
 */
module Idempotency {
  import opened Outcomes

  datatype Row = IN_PROGRESS(hash: nat) | COMPLETED(hash: nat, response: nat)

  datatype RunError = KeyReused | StillInProgress | WorkFailed | NotRecorded

  datatype Phase =
    | Working
    | Recording(response: nat)
    | Releasing(error: RunError)
    | Succeeded(response: nat, replayed: bool)
    | Failed(error: RunError)
    | Dead

  datatype Request = Request(key: nat, hash: nat, phase: Phase)

  /** `finished` and `unrecorded` count, per key, the times work returned and the times recording that failed. */
  datatype World = World(rows: map<nat, Row>, requests: map<nat, Request>, finished: multiset<nat>, unrecorded: multiset<nat>)

  const START := World(map[], map[], multiset{}, multiset{})

  /** How recording the response went: done, not done, or done though the caller was told it was not. */
  datatype RecordOutcome = Done | NotDone | DoneButThrew

  datatype Step =
    | Claim(request: nat, key: nat, hash: nat)
    | ClaimThrew(request: nat, key: nat, hash: nat)
    | WorkReturns(request: nat, response: nat)
    | WorkThrows(request: nat)
    | Record(request: nat, outcome: RecordOutcome)
    | Release(request: nat, works: bool)
    | Die(request: nat)

  // -- The row ---------------------------------------------------------------------

  /** A unique insert: the row, or the one already there. */
  function ClaimRow(rows: map<nat, Row>, key: nat, hash: nat): (map<nat, Row>, Option<Row>) {
    if key in rows then (rows, Some(rows[key])) else (rows[key := IN_PROGRESS(hash)], None)
  }

  function CompleteRow(rows: map<nat, Row>, key: nat, response: nat): map<nat, Row> {
    if key in rows then rows[key := COMPLETED(rows[key].hash, response)] else rows
  }

  /** Only a row still in progress is deleted. */
  function ReleaseRow(rows: map<nat, Row>, key: nat): map<nat, Row> {
    if key in rows && rows[key].IN_PROGRESS? then rows - {key} else rows
  }

  /** What a request learns from a key that is already taken. */
  function FromExisting(existing: Row, hash: nat): Phase {
    if existing.hash != hash then Failed(KeyReused)
    else match existing
      case IN_PROGRESS(_) => Failed(StillInProgress)
      case COMPLETED(_, response) => Succeeded(response, true)
  }

  // -- The machine -------------------------------------------------------------------

  function To(w: World, id: nat, phase: Phase): World
    requires id in w.requests
  {
    w.(requests := w.requests[id := w.requests[id].(phase := phase)])
  }

  function Apply(w: World, step: Step): World {
    match step
    case Claim(id, key, hash) =>
      if id in w.requests then w
      else
        var (rows, existing) := ClaimRow(w.rows, key, hash);
        var phase := if existing.None? then Working else FromExisting(existing.value, hash);
        w.(rows := rows, requests := w.requests[id := Request(key, hash, phase)])
    case ClaimThrew(id, key, hash) =>
      if id in w.requests then w
      else w.(rows := ClaimRow(w.rows, key, hash).0, requests := w.requests[id := Request(key, hash, Dead)])
    case WorkReturns(id, response) =>
      if id in w.requests && w.requests[id].phase == Working then
        To(w, id, Recording(response)).(finished := w.finished + multiset{w.requests[id].key})
      else w
    case WorkThrows(id) =>
      if id in w.requests && w.requests[id].phase == Working then To(w, id, Releasing(WorkFailed)) else w
    case Record(id, outcome) =>
      if id in w.requests && w.requests[id].phase.Recording? then
        var request := w.requests[id];
        var rows := CompleteRow(w.rows, request.key, request.phase.response);
        match outcome
        case Done => To(w, id, Succeeded(request.phase.response, false)).(rows := rows)
        case NotDone => To(w, id, Releasing(NotRecorded)).(unrecorded := w.unrecorded + multiset{request.key})
        case DoneButThrew => To(w, id, Releasing(NotRecorded)).(rows := rows)
      else w
    case Release(id, works) =>
      if id in w.requests && w.requests[id].phase.Releasing? then
        To(w, id, Failed(w.requests[id].phase.error)).(
          rows := if works then ReleaseRow(w.rows, w.requests[id].key) else w.rows)
      else w
    case Die(id) =>
      if id in w.requests && Active(w.requests[id]) then To(w, id, Dead) else w
  }

  function Run(w: World, steps: seq<Step>): World
    decreases steps
  {
    if steps == [] then w else Run(Apply(w, steps[0]), steps[1..])
  }

  /** From winning the key until the request is over. */
  predicate Active(request: Request) {
    request.phase.Working? || request.phase.Recording? || request.phase.Releasing?
  }

  // -- What every run keeps -------------------------------------------------------------

  predicate Completed(w: World, key: nat, hash: nat, response: nat) {
    key in w.rows && w.rows[key] == COMPLETED(hash, response)
  }

  predicate SameKey(w: World, a: nat, b: nat)
    requires a in w.requests && b in w.requests
  {
    w.requests[a].key == w.requests[b].key
  }

  /** An active request holds the key's row, and holds it alone. */
  predicate OneHolder(w: World) {
    && (forall a :: a in w.requests && Active(w.requests[a]) ==>
          w.requests[a].key in w.rows && w.rows[w.requests[a].key].hash == w.requests[a].hash)
    && (forall a :: a in w.requests && (w.requests[a].phase.Working? || w.requests[a].phase.Recording?) ==>
          w.requests[a].key in w.rows && w.rows[w.requests[a].key].IN_PROGRESS?)
    && (forall a, b :: a in w.requests && b in w.requests && SameKey(w, a, b) && Active(w.requests[a]) && Active(w.requests[b]) ==>
          a == b)
  }

  /** Whoever succeeded was given the recorded response of its own body. */
  predicate SuccessIsRecorded(w: World) {
    forall a :: a in w.requests && w.requests[a].phase.Succeeded? ==>
      Completed(w, w.requests[a].key, w.requests[a].hash, w.requests[a].phase.response)
  }

  predicate OneFreshSuccess(w: World) {
    forall a, b :: a in w.requests && b in w.requests && SameKey(w, a, b) && IsFresh(w.requests[a]) && IsFresh(w.requests[b]) ==>
      a == b
  }

  predicate IsFresh(request: Request) {
    request.phase.Succeeded? && !request.phase.replayed
  }

  /** Work that finished and was not lost keeps its key taken, with nobody working. */
  ghost predicate FinishedWorkHoldsTheKey(w: World) {
    && (forall k: nat :: KeyAccounts(w, k))
    && (forall a :: a in w.requests ==> RequestAccounts(w, w.requests[a]))
  }

  predicate KeyAccounts(w: World, k: nat) {
    && w.unrecorded[k] <= w.finished[k] <= w.unrecorded[k] + 1
    && (w.finished[k] == w.unrecorded[k] + 1 ==> k in w.rows)
    && (k in w.rows && w.rows[k].COMPLETED? ==> w.finished[k] == w.unrecorded[k] + 1)
  }

  predicate RequestAccounts(w: World, request: Request) {
    && (request.phase.Recording? ==> w.finished[request.key] == w.unrecorded[request.key] + 1)
    && (IdleHolder(w, request) ==> w.finished[request.key] == w.unrecorded[request.key])
  }

  predicate IdleHolder(w: World, request: Request) {
    request.phase.Working?
    || (request.phase.Releasing? && request.key in w.rows && w.rows[request.key].IN_PROGRESS?)
  }

  ghost predicate Sound(w: World) {
    OneHolder(w) && SuccessIsRecorded(w) && OneFreshSuccess(w) && FinishedWorkHoldsTheKey(w)
  }

  lemma ClaimKeepsHolder(w: World, step: Step)
    requires (step.Claim? || step.ClaimThrew?) && OneHolder(w)
    ensures OneHolder(Apply(w, step))
  {
  }

  lemma ClaimKeepsSuccess(w: World, step: Step)
    requires (step.Claim? || step.ClaimThrew?) && OneHolder(w) && SuccessIsRecorded(w)
    ensures SuccessIsRecorded(Apply(w, step))
  {
  }

  lemma ClaimKeepsFresh(w: World, step: Step)
    requires (step.Claim? || step.ClaimThrew?) && OneHolder(w) && SuccessIsRecorded(w) && OneFreshSuccess(w)
    ensures OneFreshSuccess(Apply(w, step))
  {
  }

  lemma ClaimKeepsFinished(w: World, step: Step)
    requires (step.Claim? || step.ClaimThrew?) && OneHolder(w) && FinishedWorkHoldsTheKey(w)
    ensures FinishedWorkHoldsTheKey(Apply(w, step))
  {
    var after := Apply(w, step);
    forall k: nat
      ensures KeyAccounts(after, k)
    {
      assert KeyAccounts(w, k);
    }
    assert KeyAccounts(w, step.key);
    forall a | a in after.requests
      ensures RequestAccounts(after, after.requests[a])
    {
      if a in w.requests { assert RequestAccounts(w, w.requests[a]); }
    }
  }

  lemma ClaimKeeps(w: World, step: Step)
    requires (step.Claim? || step.ClaimThrew?) && Sound(w)
    ensures Sound(Apply(w, step))
  {
    hide Apply, OneHolder, SuccessIsRecorded, OneFreshSuccess, FinishedWorkHoldsTheKey;
    ClaimKeepsHolder(w, step);
    ClaimKeepsSuccess(w, step);
    ClaimKeepsFresh(w, step);
    ClaimKeepsFinished(w, step);
  }

  lemma WorkKeepsHolder(w: World, step: Step)
    requires (step.WorkReturns? || step.WorkThrows? || step.Die?) && OneHolder(w)
    ensures OneHolder(Apply(w, step))
  {
    var after := Apply(w, step);
    forall a | a in after.requests && Active(after.requests[a])
      ensures a in w.requests && Active(w.requests[a]) && after.requests[a].key == w.requests[a].key && after.requests[a].hash == w.requests[a].hash
    {
    }
    hide Active;
  }

  lemma WorkKeepsSuccess(w: World, step: Step)
    requires (step.WorkReturns? || step.WorkThrows? || step.Die?) && OneHolder(w) && SuccessIsRecorded(w)
    ensures SuccessIsRecorded(Apply(w, step))
  {
  }

  lemma WorkKeepsFresh(w: World, step: Step)
    requires (step.WorkReturns? || step.WorkThrows? || step.Die?) && OneHolder(w) && SuccessIsRecorded(w) && OneFreshSuccess(w)
    ensures OneFreshSuccess(Apply(w, step))
  {
  }

  lemma WorkKeepsFinished(w: World, step: Step)
    requires (step.WorkReturns? || step.WorkThrows? || step.Die?) && OneHolder(w) && FinishedWorkHoldsTheKey(w)
    ensures FinishedWorkHoldsTheKey(Apply(w, step))
  {
    var after := Apply(w, step);
    forall k: nat
      ensures KeyAccounts(after, k)
    {
      assert KeyAccounts(w, k);
    }
    forall a | a in after.requests
      ensures RequestAccounts(after, after.requests[a])
    {
      if a in w.requests { assert RequestAccounts(w, w.requests[a]); }
    }
  }

  lemma WorkKeeps(w: World, step: Step)
    requires (step.WorkReturns? || step.WorkThrows? || step.Die?) && Sound(w)
    ensures Sound(Apply(w, step))
  {
    hide Apply, OneHolder, SuccessIsRecorded, OneFreshSuccess, FinishedWorkHoldsTheKey;
    WorkKeepsHolder(w, step);
    WorkKeepsSuccess(w, step);
    WorkKeepsFresh(w, step);
    WorkKeepsFinished(w, step);
  }

  lemma RecordKeepsHolder(w: World, step: Step)
    requires step.Record? && OneHolder(w)
    ensures OneHolder(Apply(w, step))
  {
    var after := Apply(w, step);
    forall a | a in after.requests && Active(after.requests[a])
      ensures a in w.requests && Active(w.requests[a]) && after.requests[a].key == w.requests[a].key && after.requests[a].hash == w.requests[a].hash
    {
    }
    hide Active;
  }

  lemma RecordKeepsSuccess(w: World, step: Step)
    requires step.Record? && OneHolder(w) && SuccessIsRecorded(w)
    ensures SuccessIsRecorded(Apply(w, step))
  {
  }

  lemma RecordKeepsFresh(w: World, step: Step)
    requires step.Record? && OneHolder(w) && SuccessIsRecorded(w) && OneFreshSuccess(w)
    ensures OneFreshSuccess(Apply(w, step))
  {
  }

  lemma RecordKeepsFinished(w: World, step: Step)
    requires step.Record? && OneHolder(w) && FinishedWorkHoldsTheKey(w)
    ensures FinishedWorkHoldsTheKey(Apply(w, step))
  {
    var after := Apply(w, step);
    forall k: nat
      ensures KeyAccounts(after, k)
    {
      assert KeyAccounts(w, k);
    }
    forall a | a in after.requests
      ensures RequestAccounts(after, after.requests[a])
    {
      if a in w.requests { assert RequestAccounts(w, w.requests[a]); }
    }
  }

  lemma RecordKeeps(w: World, step: Step)
    requires step.Record? && Sound(w)
    ensures Sound(Apply(w, step))
  {
    hide Apply, OneHolder, SuccessIsRecorded, OneFreshSuccess, FinishedWorkHoldsTheKey;
    RecordKeepsHolder(w, step);
    RecordKeepsSuccess(w, step);
    RecordKeepsFresh(w, step);
    RecordKeepsFinished(w, step);
  }

  lemma ReleaseKeepsHolder(w: World, step: Step)
    requires step.Release? && OneHolder(w)
    ensures OneHolder(Apply(w, step))
  {
  }

  lemma ReleaseKeepsSuccess(w: World, step: Step)
    requires step.Release? && OneHolder(w) && SuccessIsRecorded(w)
    ensures SuccessIsRecorded(Apply(w, step))
  {
  }

  lemma ReleaseKeepsFresh(w: World, step: Step)
    requires step.Release? && OneHolder(w) && SuccessIsRecorded(w) && OneFreshSuccess(w)
    ensures OneFreshSuccess(Apply(w, step))
  {
  }

  lemma ReleaseKeepsFinished(w: World, step: Step)
    requires step.Release? && OneHolder(w) && FinishedWorkHoldsTheKey(w)
    ensures FinishedWorkHoldsTheKey(Apply(w, step))
  {
    var after := Apply(w, step);
    forall k: nat
      ensures KeyAccounts(after, k)
    {
      assert KeyAccounts(w, k);
    }
    forall a | a in after.requests
      ensures RequestAccounts(after, after.requests[a])
    {
      if a in w.requests { assert RequestAccounts(w, w.requests[a]); }
    }
  }

  lemma ReleaseKeeps(w: World, step: Step)
    requires step.Release? && Sound(w)
    ensures Sound(Apply(w, step))
  {
    hide Apply, OneHolder, SuccessIsRecorded, OneFreshSuccess, FinishedWorkHoldsTheKey;
    ReleaseKeepsHolder(w, step);
    ReleaseKeepsSuccess(w, step);
    ReleaseKeepsFresh(w, step);
    ReleaseKeepsFinished(w, step);
  }

  lemma StepKeepsSound(w: World, step: Step)
    requires Sound(w)
    ensures Sound(Apply(w, step))
  {
    hide Sound, Apply;
    match step
    case Claim(_, _, _) => ClaimKeeps(w, step);
    case ClaimThrew(_, _, _) => ClaimKeeps(w, step);
    case WorkReturns(_, _) => WorkKeeps(w, step);
    case WorkThrows(_) => WorkKeeps(w, step);
    case Record(_, _) => RecordKeeps(w, step);
    case Release(_, _) => ReleaseKeeps(w, step);
    case Die(_) => WorkKeeps(w, step);
  }

  lemma {:induction false} RunKeepsSound(w: World, steps: seq<Step>)
    requires Sound(w)
    ensures Sound(Run(w, steps))
    decreases steps
  {
    hide Sound, Apply;
    if steps != [] {
      StepKeepsSound(w, steps[0]);
      RunKeepsSound(Apply(w, steps[0]), steps[1..]);
    }
  }

  lemma EveryRunIsSound(steps: seq<Step>)
    ensures Sound(Run(START, steps))
  {
    assert Sound(START);
    RunKeepsSound(START, steps);
  }

  /** At most one request at a time is inside the work of a key. */
  lemma OneWorkerPerKey(steps: seq<Step>, a: nat, b: nat)
    requires var w := Run(START, steps);
      && a in w.requests && b in w.requests && SameKey(w, a, b)
      && w.requests[a].phase.Working? && w.requests[b].phase.Working?
    ensures a == b
  {
    EveryRunIsSound(steps);
    hide Run, SuccessIsRecorded, OneFreshSuccess, FinishedWorkHoldsTheKey;
  }

  /**
   * Every success under a key returns one and the same response, to one and the
   * same body, and at most one of them is fresh, however recording and
   * releasing fail.
   */
  lemma SuccessesAgree(steps: seq<Step>, a: nat, b: nat)
    requires var w := Run(START, steps);
      && a in w.requests && b in w.requests && SameKey(w, a, b)
      && w.requests[a].phase.Succeeded? && w.requests[b].phase.Succeeded?
    ensures var w := Run(START, steps);
      && w.requests[a].phase.response == w.requests[b].phase.response && w.requests[a].hash == w.requests[b].hash
      && (IsFresh(w.requests[a]) && IsFresh(w.requests[b]) ==> a == b)
  {
    EveryRunIsSound(steps);
    hide Run, OneHolder, FinishedWorkHoldsTheKey;
    var w := Run(START, steps);
    assert Completed(w, w.requests[a].key, w.requests[a].hash, w.requests[a].phase.response);
    assert Completed(w, w.requests[b].key, w.requests[b].hash, w.requests[b].phase.response);
  }

  /** A recorded response is final. */
  lemma {:induction false} ResponsesAreForever(before: seq<Step>, steps: seq<Step>, key: nat, hash: nat, response: nat)
    requires Completed(Run(START, before), key, hash, response)
    ensures Completed(Run(Run(START, before), steps), key, hash, response)
  {
    EveryRunIsSound(before);
    StaysCompleted(Run(START, before), steps, key, hash, response);
  }

  lemma {:induction false} StaysCompleted(w: World, steps: seq<Step>, key: nat, hash: nat, response: nat)
    requires Sound(w) && Completed(w, key, hash, response)
    ensures Completed(Run(w, steps), key, hash, response)
    decreases steps
  {
    if steps != [] {
      StepStaysCompleted(w, steps[0], key, hash, response);
      StepKeepsSound(w, steps[0]);
      hide Sound, Apply, Completed;
      StaysCompleted(Apply(w, steps[0]), steps[1..], key, hash, response);
    }
  }

  lemma StepStaysCompleted(w: World, step: Step, key: nat, hash: nat, response: nat)
    requires Sound(w) && Completed(w, key, hash, response)
    ensures Completed(Apply(w, step), key, hash, response)
  {
    hide SuccessIsRecorded, OneFreshSuccess, FinishedWorkHoldsTheKey;
  }

  /** What claiming a key comes to: a free one is the request's to work under, a taken one is answered from its row. */
  lemma ClaimAnswers(w: World, id: nat, key: nat, hash: nat)
    requires id !in w.requests
    ensures var after := Apply(w, Claim(id, key, hash));
      && after == w.(rows := after.rows, requests := w.requests[id := Request(key, hash, after.requests[id].phase)])
      && after.rows == (if key in w.rows then w.rows else w.rows[key := IN_PROGRESS(hash)])
      && after.requests[id].phase ==
         if key !in w.rows then Working
         else if w.rows[key].hash != hash then Failed(KeyReused)
         else if w.rows[key].COMPLETED? then Succeeded(w.rows[key].response, true)
         else Failed(StillInProgress)
    ensures Apply(w, ClaimThrew(id, key, hash))
         == Apply(w, Claim(id, key, hash)).(requests := w.requests[id := Request(key, hash, Dead)])
  {
  }

  /** A recorded response answers every later request of its body, whatever came between, and refuses every other body. */
  lemma LaterRequestsAreAnswered(before: seq<Step>, steps: seq<Step>, key: nat, hash: nat, response: nat, id: nat, asked: nat)
    requires Completed(Run(START, before), key, hash, response)
    requires id !in Run(Run(START, before), steps).requests
    ensures var w := Run(Run(START, before), steps);
      && Apply(w, Claim(id, key, asked)).rows == w.rows
      && Apply(w, Claim(id, key, asked)).requests[id].phase == if asked == hash then Succeeded(response, true) else Failed(KeyReused)
  {
    ResponsesAreForever(before, steps, key, hash, response);
    ClaimAnswers(Run(Run(START, before), steps), id, key, asked);
    hide Run, Apply;
  }

  /** A release that works frees the key of whoever was working, and nothing that has an answer. */
  lemma ReleaseFrees(w: World, id: nat, works: bool)
    requires id in w.requests && w.requests[id].phase.Releasing?
    ensures var request, after := w.requests[id], Apply(w, Release(id, works));
      && after.requests == w.requests[id := request.(phase := Failed(request.phase.error))]
      && after.rows == if works && request.key in w.rows && !w.rows[request.key].COMPLETED? then w.rows - {request.key} else w.rows
  {
  }

  // -- How often work finishes -----------------------------------------------------------

  /** Work under a key finishes as often as recording it fails, or once more. */
  lemma WorkFinishesOnceUnlessUnrecorded(steps: seq<Step>, key: nat)
    ensures var w := Run(START, steps); w.unrecorded[key] <= w.finished[key] <= w.unrecorded[key] + 1
  {
    EveryRunIsSound(steps);
    hide OneHolder, SuccessIsRecorded, OneFreshSuccess;
    assert KeyAccounts(Run(START, steps), key);
  }

  /** So once a key has its answer, the work behind it was done just once exactly when no recording of it failed. */
  lemma DoneOnceIff(steps: seq<Step>, key: nat, hash: nat, response: nat)
    requires Completed(Run(START, steps), key, hash, response)
    ensures var w := Run(START, steps); w.finished[key] == 1 <==> w.unrecorded[key] == 0
  {
    EveryRunIsSound(steps);
    hide Run, OneHolder, SuccessIsRecorded, OneFreshSuccess;
    assert KeyAccounts(Run(START, steps), key);
  }

  lemma RunCons(w: World, step: Step, rest: seq<Step>)
    ensures Run(w, [step] + rest) == Run(Apply(w, step), rest)
  {
    assert ([step] + rest)[1..] == rest;
  }

  lemma RunFour(w: World, a: Step, b: Step, c: Step, d: Step)
    ensures Run(w, [a, b, c, d]) == Apply(Apply(Apply(Apply(w, a), b), c), d)
  {
    hide Apply;
    assert [a, b, c, d] == [a] + ([b] + ([c] + ([d] + [])));
    RunCons(w, a, [b] + ([c] + ([d] + [])));
    RunCons(Apply(w, a), b, [c] + ([d] + []));
    RunCons(Apply(Apply(w, a), b), c, [d] + []);
    RunCons(Apply(Apply(Apply(w, a), b), c), d, []);
  }

  lemma {:induction false} RunAppend(w: World, first: seq<Step>, second: seq<Step>)
    ensures Run(w, first + second) == Run(Run(w, first), second)
    decreases first
  {
    hide Apply;
    if first == [] {
      assert first + second == second;
    } else {
      RunAppend(Apply(w, first[0]), first[1..], second);
      assert (first + second)[1..] == first[1..] + second;
    }
  }

  /** One request, from claiming the key to its end, when recording fails. */
  lemma UnrecordedRun(w: World, id: nat, key: nat, hash: nat, response: nat)
    requires key !in w.rows && id !in w.requests
    ensures Run(w, [Claim(id, key, hash), WorkReturns(id, response), Record(id, NotDone), Release(id, true)])
      == World(w.rows, w.requests[id := Request(key, hash, Failed(NotRecorded))],
               w.finished + multiset{key}, w.unrecorded + multiset{key})
  {
    RunFour(w, Claim(id, key, hash), WorkReturns(id, response), Record(id, NotDone), Release(id, true));
    var w1 := w.(rows := w.rows[key := IN_PROGRESS(hash)], requests := w.requests[id := Request(key, hash, Working)]);
    assert Apply(w, Claim(id, key, hash)) == w1;
    var w2 := w1.(requests := w.requests[id := Request(key, hash, Recording(response))], finished := w.finished + multiset{key});
    assert Apply(w1, WorkReturns(id, response)) == w2;
    var w3 := w2.(requests := w.requests[id := Request(key, hash, Releasing(NotRecorded))], unrecorded := w.unrecorded + multiset{key});
    assert Apply(w2, Record(id, NotDone)) == w3;
    assert w3.rows - {key} == w.rows;
  }

  lemma RecordedRun(w: World, id: nat, key: nat, hash: nat, response: nat)
    requires key !in w.rows && id !in w.requests
    ensures Run(w, [Claim(id, key, hash), WorkReturns(id, response), Record(id, Done), Release(id, true)])
      == World(w.rows[key := COMPLETED(hash, response)], w.requests[id := Request(key, hash, Succeeded(response, false))],
               w.finished + multiset{key}, w.unrecorded)
  {
    RunFour(w, Claim(id, key, hash), WorkReturns(id, response), Record(id, Done), Release(id, true));
    var w1 := w.(rows := w.rows[key := IN_PROGRESS(hash)], requests := w.requests[id := Request(key, hash, Working)]);
    assert Apply(w, Claim(id, key, hash)) == w1;
    var w2 := w1.(requests := w.requests[id := Request(key, hash, Recording(response))], finished := w.finished + multiset{key});
    assert Apply(w1, WorkReturns(id, response)) == w2;
    assert Apply(w2, Record(id, Done)).requests == w.requests[id := Request(key, hash, Succeeded(response, false))];
  }

  /**
   * And it does run again: "at most once per key" is not kept when the first
   * response could not be recorded, because the key is then released.
   */
  lemma WorkMayFinishTwice(key: nat, hash: nat, response: nat, second: nat)
    ensures exists steps :: (
      && Run(START, steps).finished[key] == 2 && Run(START, steps).unrecorded[key] == 1
      && 1 in Run(START, steps).requests && Run(START, steps).requests[1].phase == Succeeded(second, false))
  {
    var first := [Claim(0, key, hash), WorkReturns(0, response), Record(0, NotDone), Release(0, true)];
    var again := [Claim(1, key, hash), WorkReturns(1, second), Record(1, Done), Release(1, true)];
    hide Run;
    UnrecordedRun(START, 0, key, hash, response);
    RecordedRun(Run(START, first), 1, key, hash, second);
    RunAppend(START, first, again);
    assert Run(START, first + again).finished == multiset{key, key};
  }

  // -- One request, uninterrupted ---------------------------------------------------------

  class IdempotencyService {
    var rows: map<nat, Row>

    constructor ()
      ensures rows == map[]
    {
      rows := map[];
    }

    /** Nothing when the key was free and is now ours; otherwise the row that has it. */
    method ClaimKey(key: nat, hash: nat) returns (existing: Option<Row>)
      modifies this
      ensures (rows, existing) == ClaimRow(old(rows), key, hash)
    {
      if key in rows { return Some(rows[key]); }
      rows := rows[key := IN_PROGRESS(hash)];
      return None;
    }

    method ReleaseKey(key: nat)
      modifies this
      ensures rows == ReleaseRow(old(rows), key)
    {
      if key in rows && rows[key].IN_PROGRESS? { rows := rows - {key}; }
    }

    /**
     * Runs `work` unless the key has an answer already. `work` is what it would
     * return, or nothing if it would throw; `outcome` and `releases` say how the
     * two later writes go.
     */
    method RunOnce(key: nat, hash: nat, work: Option<nat>, outcome: RecordOutcome, releases: bool)
      returns (r: Result<(nat, bool), RunError>)
      modifies this
      ensures key in old(rows) ==> rows == old(rows)
      ensures key in old(rows) ==>
        r == if old(rows)[key].hash != hash then Err(KeyReused)
             else if old(rows)[key].IN_PROGRESS? then Err(StillInProgress)
             else Ok((old(rows)[key].response, true))
      ensures key !in old(rows) && work.None? ==>
        r == Err(WorkFailed) && rows == if releases then old(rows) else old(rows)[key := IN_PROGRESS(hash)]
      ensures key !in old(rows) && work.Some? ==>
        match outcome
        case Done => r == Ok((work.value, false)) && rows == old(rows)[key := COMPLETED(hash, work.value)]
        case NotDone => r == Err(NotRecorded) && rows == if releases then old(rows) else old(rows)[key := IN_PROGRESS(hash)]
        case DoneButThrew => r == Err(NotRecorded) && rows == old(rows)[key := COMPLETED(hash, work.value)]
    {
      ghost var before := rows;
      var existing := ClaimKey(key, hash);
      if existing.Some? { return AsResult(FromExisting(existing.value, hash)); }
      assert rows - {key} == before;
      if work.None? {
        if releases { ReleaseKey(key); }
        return Err(WorkFailed);
      }
      if outcome != NotDone { rows := CompleteRow(rows, key, work.value); }
      if outcome == Done { return Ok((work.value, false)); }
      if releases { ReleaseKey(key); }
      return Err(NotRecorded);
    }
  }

  function AsResult(phase: Phase): Result<(nat, bool), RunError> {
    match phase
    case Succeeded(response, replayed) => Ok((response, replayed))
    case Failed(error) => Err(error)
    case _ => Err(StillInProgress)
  }
}
