/**
 * The bot's and the staff's side of one conversation as they run. Every method
 * is a run of the machine in Handoff, so what holds of its runs holds of them.
 */
module ConversationDesk {
  import opened Outcomes
  import opened Replies
  import opened Handoff
  import opened HandoffRules

  class Conversation {
    var seen: set<nat>
    var session: Option<Session>
    ghost var log: seq<Entry>

    constructor ()
      ensures View({}, None, map[]) == START
    {
      seen, session, log := {}, None, [];
    }

    ghost function View(pending: set<nat>, turn: Option<Turn>, alarms: map<nat, Alarm>): World
      reads this
    {
      World(seen, pending, session, turn, alarms, log)
    }

    /** The session as a turn finds it: created, reset when expired, or as it was left. */
    method LoadSession(message: nat, now: int) returns (state: State)
      modifies this`session, this`log
      ensures session == Some(Load(old(session), now)) && state == session.value.state
      ensures log == old(log) + LoadEntries(old(session), message, now)
    {
      log := log + LoadEntries(session, message, now);
      if session.Some? && !IsExpired(session.value, now) {
        return session.value.state;
      }
      if session.Some? {
        session := Some(session.value.(state := IDLE, expiresAt := now + TTL_MS, lastInboundAt := now));
        return IDLE;
      }
      session := Some(Session(IDLE, None, now, now + TTL_MS));
      return IDLE;
    }

    method SaveSession(state: State, now: int)
      requires session.Some?
      modifies this`session
      ensures session == Some(Save(old(session).value, state, now))
      ensures Continues(old(session), session, state, now)
    {
      session := Some(session.value.(state := state, expiresAt := now + TTL_MS, lastInboundAt := now));
      if state == HUMAN_HANDOFF {
        session := Some(session.value.(escalatedAt := None));
      }
    }

    /** One turn. `next` is the state the bot's answer leads to, or nothing when answering throws. */
    method TakeTurn(message: nat, loadedAt: int, next: Option<State>, savedAt: int) returns (replied: bool, ghost steps: seq<Step>)
      modifies this`session, this`log
      ensures Run(old(View({message}, None, map[])), steps) == View({}, None, map[])
      ensures replied <==> !WithAPerson(old(session), loadedAt)
    {
      hide ProperLog;
      ghost var w0 := View({message}, None, map[]);
      var state := LoadSession(message, loadedAt);
      steps := [] + [BeginTurn(message, loadedAt)];
      RunSnoc(w0, [], BeginTurn(message, loadedAt));
      assert {message} - {message} == {};
      ghost var w1 := View({}, Some(Loaded(message, state)), map[]);
      assert Run(w0, steps) == w1;
      if state == HUMAN_HANDOFF {
        session := Some(session.value.(lastInboundAt := savedAt, expiresAt := savedAt + TTL_MS));
        RunSnoc(w0, steps, StaySilent(savedAt));
        steps := steps + [StaySilent(savedAt)];
        return false, steps;
      }
      if next.Some? {
        SaveSession(next.value, savedAt);
        if next.value == HUMAN_HANDOFF { log := log + [HandedOff(message)]; }
        assert w1.log + [] == w1.log;
        RunSnoc(w0, steps, SaveTurn(savedAt, next.value));
        steps := steps + [SaveTurn(savedAt, next.value)];
      } else {
        RunSnoc(w0, steps, FailTurn);
        steps := steps + [FailTurn];
      }
      assert Run(w0, steps) == View({}, Some(Sending(message)), map[]);
      RunSnoc(w0, steps, SendReplies);
      log := log + [BotReplied(message)];
      steps := steps + [SendReplies];
      return true, steps;
    }

    /** One webhook item: recorded once however often it is delivered, then answered. */
    method HandleItem(message: nat, routed: bool, loadedAt: int, next: Option<State>, savedAt: int)
      returns (handled: bool, replied: bool, ghost steps: seq<Step>)
      modifies this
      ensures Run(old(View({}, None, map[])), steps) == View({}, None, map[])
      ensures handled <==> routed && message !in old(seen)
      ensures replied ==> handled
      ensures message in old(seen) ==> session == old(session)
    {
      ghost var w0 := View({}, None, map[]);
      steps := [] + [Receive(message, routed)];
      RunSnoc(w0, [], Receive(message, routed));
      if message in seen { return false, false, steps; }
      seen := seen + {message};
      if !routed { return false, false, steps; }
      assert {} + {message} == {message};
      assert Run(w0, steps) == View({message}, None, map[]);
      var answered, turn := TakeTurn(message, loadedAt, next, savedAt);
      RunAppend(w0, steps, turn);
      return true, answered, steps + turn;
    }

    /** A person's reply clears the alarm. */
    method Reply() returns (ok: bool)
      modifies this
      ensures View({}, None, map[]) == Apply(old(View({}, None, map[])), StaffReply)
      ensures ok <==> old(session).Some?
    {
      if session.None? { return false; }
      session := Some(session.value.(escalatedAt := None));
      log := log + [StaffReplied];
      return true;
    }

    /** Ends a handoff; refused when there is none. */
    method Resolve() returns (ok: bool)
      modifies this
      ensures View({}, None, map[]) == Apply(old(View({}, None, map[])), EndHandoff)
      ensures ok <==> old(session).Some? && old(session).value.state == HUMAN_HANDOFF
    {
      if session.None? || session.value.state != HUMAN_HANDOFF { return false; }
      session := Some(session.value.(state := IDLE, escalatedAt := None));
      log := log + [HandoffEnded];
      return true;
    }

    /** The sweep over this conversation: claim, then write the event. */
    method SweepUnanswered(now: int, threshold: int) returns (raised: nat, ghost steps: seq<Step>)
      modifies this
      ensures Run(old(View({}, None, map[])), steps) == View({}, None, map[])
      ensures raised ==
        if old(session).Some? && old(session).value.state == HUMAN_HANDOFF && old(session).value.escalatedAt.None?
           && now - old(session).value.lastInboundAt >= 1000 * threshold then 1 else 0
    {
      ghost var w0 := View({}, None, map[]);
      steps := [];
      if !IsUnanswered(session, now, threshold) { return 0, steps; }
      ghost var waited, claim := Waited(session.value, now), |log|;
      session := Some(session.value.(escalatedAt := Some(now)));
      log := log + [AlarmClaimed];
      ghost var claimed := View({}, None, map[0 := Claimed(waited, claim)]);
      log := log + [AlarmRaised(waited, claim)];
      steps := [FindWaiting(0, now, threshold), ClaimAlarm(0), RaiseAlarm(0)];
      RunThree(w0, FindWaiting(0, now, threshold), ClaimAlarm(0), RaiseAlarm(0));
      assert Apply(w0, FindWaiting(0, now, threshold)) == w0.(alarms := map[0 := Found(now, waited, claim)]);
      assert Apply(w0.(alarms := map[0 := Found(now, waited, claim)]), ClaimAlarm(0)) == claimed;
      assert claimed.alarms - {0} == map[];
      return 1, steps;
    }
  }

  lemma {:induction false} RunAppend(w: World, first: seq<Step>, second: seq<Step>)
    ensures Run(w, first + second) == Run(Run(w, first), second)
    decreases first
  {
    hide Apply;
    if first == [] {
      assert first + second == second;
    } else {
      RunAppend(Apply(w, first[0]), first[1..], second);
      assert (first + second)[1..] == first[1..] + second;
    }
  }
}
