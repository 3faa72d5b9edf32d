/** What one turn, one save and one sweep of a conversation come to, in the session's own terms. */
module HandoffRules {
  import opened Outcomes
  import opened Replies
  import opened Handoff

  /** With a person, and not so long ago that the conversation starts over: a day after the customer last wrote. */
  predicate WithAPerson(session: Option<Session>, now: int) {
    session.Some? && session.value.state == HUMAN_HANDOFF && now < session.value.expiresAt
  }

  /** What a turn finds: the state it was left in, or a new start; and whatever alarm there was. */
  lemma WhatATurnFinds(w: World, message: nat, now: int)
    requires message in w.pending && w.turn.None?
    ensures var after := Apply(w, BeginTurn(message, now));
      && after.pending == w.pending - {message} && after.turn.Some? && after.session.Some?
      && after.turn.value == Loaded(message, after.session.value.state)
      && (after.session.value.state == HUMAN_HANDOFF <==> WithAPerson(w.session, now))
      && (w.session.Some? && now < w.session.value.expiresAt ==> after.session == w.session)
      && (w.session.None? || now >= w.session.value.expiresAt ==>
            after.session == Some(Session(IDLE, if w.session.Some? then w.session.value.escalatedAt else None, now, now + 86_400_000)))
  {
  }

  /** What a turn saves: where the answer leads, another day to live, and for a new handoff no alarm. */
  predicate Continues(before: Option<Session>, after: Option<Session>, state: State, now: int) {
    && after.Some? && after.value.state == state
    && after.value.lastInboundAt == now && after.value.expiresAt == now + 86_400_000
    && after.value.escalatedAt ==
       if state == HUMAN_HANDOFF || before.None? then None else before.value.escalatedAt
  }

  lemma AnsweringSaves(w: World, message: nat, now: int, state: State)
    requires w.turn.Some? && w.session.Some? && w.turn.value == Loaded(message, w.session.value.state)
    requires w.session.value.state != HUMAN_HANDOFF
    ensures var after := Apply(Apply(w, SaveTurn(now, state)), SendReplies);
      && after.pending == w.pending && after.turn == None
      && Continues(w.session, after.session, state, now)
      && after.log == w.log + (if state == HUMAN_HANDOFF then [HandedOff(message)] else []) + [BotReplied(message)]
  {
  }

  /** A message waiting for its turn is answered by the next one that is not lost, unless a person has the conversation. */
  lemma AnsweredUnlessWithAPerson(w: World, message: nat, now: int, state: State, later: int)
    requires message in w.pending
    ensures var after := Run(w, [LoseTurn, BeginTurn(message, now), SaveTurn(later, state), SendReplies]);
      && after.pending == w.pending - {message}
      && if WithAPerson(w.session, now)
         then after.log == w.log + [TurnStarted(message)] && after.session == w.session
         else Continues(w.session, after.session, state, later) && after.turn == None
              && w.log <= after.log && after.log != [] && after.log[|after.log| - 1] == BotReplied(message)
  {
    var free := Apply(w, LoseTurn);
    var begun := Apply(free, BeginTurn(message, now));
    assert [LoseTurn, BeginTurn(message, now), SaveTurn(later, state), SendReplies]
        == [LoseTurn] + [BeginTurn(message, now), SaveTurn(later, state), SendReplies];
    RunCons(w, LoseTurn, [BeginTurn(message, now), SaveTurn(later, state), SendReplies]);
    RunThree(free, BeginTurn(message, now), SaveTurn(later, state), SendReplies);
    WhatATurnFinds(free, message, now);
    assert begun.log == w.log + LoadEntries(w.session, message, now);
    hide Run;
    if WithAPerson(w.session, now) {
      assert Apply(Apply(begun, SaveTurn(later, state)), SendReplies) == begun;
    } else {
      AnsweringSaves(begun, message, later, state);
      hide Apply;
    }
  }

  /** A sweep takes an interest in a conversation exactly when it is with a person, no alarm is set and the customer has waited long enough, expired or not. */
  lemma FoundIff(w: World, sweep: nat, now: int, threshold: int)
    requires sweep !in w.alarms
    ensures sweep in Apply(w, FindWaiting(sweep, now, threshold)).alarms <==>
      && w.session.Some? && w.session.value.state == HUMAN_HANDOFF && w.session.value.escalatedAt.None?
      && now - w.session.value.lastInboundAt >= 1000 * threshold
  {
  }

  /** The alarm it raises is claimed once, only while none is set, and says how many whole seconds the customer had waited. */
  lemma AlarmRaisedOnce(w: World, sweep: nat, now: int, threshold: int)
    requires sweep !in w.alarms && w.session.Some?
    requires sweep in Apply(w, FindWaiting(sweep, now, threshold)).alarms
    ensures var after := Run(w, [FindWaiting(sweep, now, threshold), ClaimAlarm(sweep), RaiseAlarm(sweep)]);
      var waited := (now - w.session.value.lastInboundAt) / 1000;
      && after == w.(session := Some(w.session.value.(escalatedAt := Some(now))),
                     log := w.log + [AlarmClaimed, AlarmRaised(waited, |w.log|)])
  {
    RunThree(w, FindWaiting(sweep, now, threshold), ClaimAlarm(sweep), RaiseAlarm(sweep));
    var waited := (now - w.session.value.lastInboundAt) / 1000;
    var found := w.(alarms := w.alarms[sweep := Found(now, waited, |w.log|)]);
    assert Apply(w, FindWaiting(sweep, now, threshold)) == found;
    var claimed := w.(session := Some(w.session.value.(escalatedAt := Some(now))),
                      alarms := w.alarms[sweep := Claimed(waited, |w.log|)], log := w.log + [AlarmClaimed]);
    assert Apply(found, ClaimAlarm(sweep)) == claimed;
    assert w.log + [AlarmClaimed] + [AlarmRaised(waited, |w.log|)] == w.log + [AlarmClaimed, AlarmRaised(waited, |w.log|)];
    assert claimed.alarms - {sweep} == w.alarms;
  }
}
