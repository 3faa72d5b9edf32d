/**
 * One customer's conversation: messages delivered any number of times, turns of
 * the bot, people replying and ending handoffs, and any number of sweeps raising
 * the alarm for a handoff nobody answered. Every transaction is one step and
 * anything may stop between two of them; only turns wait for each other.
 */
module Handoff {
  import opened Outcomes
  import opened Replies

  const TTL_MS := 24 * 60 * 60 * 1000

  datatype Session = Session(state: State, escalatedAt: Option<int>, lastInboundAt: int, expiresAt: int)

  /** A turn after loading the session, and one whose answer is on its way. */
  datatype Turn = Loaded(message: nat, state: State) | Sending(message: nat)

  /**
   * A sweep that has found the conversation waiting too long, and one that has
   * claimed the alarm. `found` and `claim` are where the log stood then; no step
   * reads them.
   */
  datatype Alarm = Found(now: int, waited: int, found: nat) | Claimed(waited: int, claim: nat)

  /** What happened, in the order it did. */
  datatype Entry =
    | TurnStarted(message: nat)
    | Restarted(now: int, lastInboundAt: int)
    | HandedOff(message: nat)
    | BotReplied(message: nat)
    | StaffReplied
    | HandoffEnded
    | AlarmClaimed
    | AlarmRaised(waited: int, claim: nat)

  /** `seen` are the recorded provider messages, `pending` those recorded and not yet answered. */
  datatype World = World(
    seen: set<nat>, pending: set<nat>, session: Option<Session>, turn: Option<Turn>,
    alarms: map<nat, Alarm>, log: seq<Entry>)

  const START := World({}, {}, None, None, map[], [])

  datatype Step =
    | Receive(message: nat, routed: bool)
    | LosePending(message: nat)
    | BeginTurn(message: nat, now: int)
    | StaySilent(now: int)
    | SaveTurn(now: int, state: State)
    | FailTurn
    | SendReplies
    | LoseTurn
    | StaffReply
    | EndHandoff
    | FindWaiting(sweep: nat, now: int, threshold: int)
    | ClaimAlarm(sweep: nat)
    | RaiseAlarm(sweep: nat)
    | LoseSweep(sweep: nat)

  predicate IsExpired(session: Session, now: int) {
    session.expiresAt <= now
  }

  function Fresh(state: State, escalatedAt: Option<int>, now: int): Session {
    Session(state, escalatedAt, now, now + TTL_MS)
  }

  /** The session a turn works on: made when there is none, reset when it has expired. A reset leaves the alarm as it was. */
  function Load(session: Option<Session>, now: int): Session {
    match session
    case None => Fresh(IDLE, None, now)
    case Some(existing) => if IsExpired(existing, now) then Fresh(IDLE, existing.escalatedAt, now) else existing
  }

  function LoadEntries(session: Option<Session>, message: nat, now: int): seq<Entry> {
    [TurnStarted(message)]
    + if session.Some? && IsExpired(session.value, now) then [Restarted(now, session.value.lastInboundAt)] else []
  }

  /** Entering a handoff clears the alarm of the one before. */
  function Save(session: Session, state: State, now: int): Session {
    Fresh(state, if state == HUMAN_HANDOFF then None else session.escalatedAt, now)
  }

  function Waited(session: Session, now: int): int {
    (now - session.lastInboundAt) / 1000
  }

  predicate IsUnanswered(session: Option<Session>, now: int, threshold: int) {
    && session.Some? && session.value.state == HUMAN_HANDOFF && session.value.escalatedAt.None?
    && Waited(session.value, now) >= threshold
  }

  predicate Talking(w: World) {
    w.turn.Some? && w.turn.value.Loaded? && w.turn.value.state != HUMAN_HANDOFF
  }

  function TurnStep(w: World, step: Step): World {
    match step
    case Receive(message, routed) =>
      if message in w.seen then w
      else w.(seen := w.seen + {message}, pending := if routed then w.pending + {message} else w.pending)
    case LosePending(message) => w.(pending := w.pending - {message})
    case BeginTurn(message, now) =>
      if message in w.pending && w.turn.None? then
        var session := Load(w.session, now);
        w.(pending := w.pending - {message}, session := Some(session), turn := Some(Loaded(message, session.state)),
           log := w.log + LoadEntries(w.session, message, now))
      else w
    case StaySilent(now) =>
      if w.turn.Some? && w.turn.value.Loaded? && w.turn.value.state == HUMAN_HANDOFF && w.session.Some? then
        w.(session := Some(w.session.value.(lastInboundAt := now, expiresAt := now + TTL_MS)), turn := None)
      else w
    case SaveTurn(now, state) =>
      if Talking(w) && w.session.Some? then
        var message := w.turn.value.message;
        w.(session := Some(Save(w.session.value, state, now)), turn := Some(Sending(message)),
           log := w.log + if state == HUMAN_HANDOFF then [HandedOff(message)] else [])
      else w
    case FailTurn => if Talking(w) then w.(turn := Some(Sending(w.turn.value.message))) else w
    case SendReplies =>
      if w.turn.Some? && w.turn.value.Sending? then w.(turn := None, log := w.log + [BotReplied(w.turn.value.message)]) else w
    case LoseTurn => w.(turn := None)
    case _ => w
  }

  function StaffStep(w: World, step: Step): World {
    match step
    case StaffReply =>
      if w.session.Some? then w.(session := Some(w.session.value.(escalatedAt := None)), log := w.log + [StaffReplied]) else w
    case EndHandoff =>
      if w.session.Some? && w.session.value.state == HUMAN_HANDOFF then
        w.(session := Some(w.session.value.(state := IDLE, escalatedAt := None)), log := w.log + [HandoffEnded])
      else w
    case _ => w
  }

  /** The claim tests only that no alarm is set, not that the conversation still waits; its event is a second write. */
  function AlarmStep(w: World, step: Step): World {
    match step
    case FindWaiting(sweep, now, threshold) =>
      if sweep !in w.alarms && IsUnanswered(w.session, now, threshold) then w.(alarms := w.alarms[sweep := Found(now, Waited(w.session.value, now), |w.log|)]) else w
    case ClaimAlarm(sweep) =>
      if sweep in w.alarms && w.alarms[sweep].Found? && w.session.Some? then
        if w.session.value.escalatedAt.Some? then w.(alarms := w.alarms - {sweep})
        else
          w.(session := Some(w.session.value.(escalatedAt := Some(w.alarms[sweep].now))),
             alarms := w.alarms[sweep := Claimed(w.alarms[sweep].waited, |w.log|)], log := w.log + [AlarmClaimed])
      else w
    case RaiseAlarm(sweep) =>
      if sweep in w.alarms && w.alarms[sweep].Claimed? then
        w.(alarms := w.alarms - {sweep}, log := w.log + [AlarmRaised(w.alarms[sweep].waited, w.alarms[sweep].claim)])
      else w
    case LoseSweep(sweep) => w.(alarms := w.alarms - {sweep})
    case _ => w
  }

  function Apply(w: World, step: Step): World {
    match step
    case StaffReply => StaffStep(w, step)
    case EndHandoff => StaffStep(w, step)
    case FindWaiting(_, _, _) => AlarmStep(w, step)
    case ClaimAlarm(_) => AlarmStep(w, step)
    case RaiseAlarm(_) => AlarmStep(w, step)
    case LoseSweep(_) => AlarmStep(w, step)
    case _ => TurnStep(w, step)
  }

  function Run(w: World, steps: seq<Step>): World
    decreases steps
  {
    if steps == [] then w else Run(Apply(w, steps[0]), steps[1..])
  }

  lemma RunCons(w: World, step: Step, rest: seq<Step>)
    ensures Run(w, [step] + rest) == Run(Apply(w, step), rest)
  {
    assert ([step] + rest)[1..] == rest;
  }

  lemma RunThree(w: World, a: Step, b: Step, c: Step)
    ensures Run(w, [a, b, c]) == Apply(Apply(Apply(w, a), b), c)
  {
    hide Apply;
    assert [a, b, c] == [a] + ([b] + ([c] + []));
    RunCons(w, a, [b] + ([c] + []));
    RunCons(Apply(w, a), b, [c] + []);
    RunCons(Apply(Apply(w, a), b), c, []);
  }

  lemma {:induction false} RunSnoc(w: World, steps: seq<Step>, step: Step)
    ensures Run(w, steps + [step]) == Apply(Run(w, steps), step)
    decreases steps
  {
    hide Apply;
    if steps == [] {
      assert [step][1..] == [];
    } else {
      RunSnoc(Apply(w, steps[0]), steps[1..], step);
      assert (steps + [step])[1..] == steps[1..] + [step];
    }
  }

  // -- What a log says ----------------------------------------------------------------

  /** The message whose turn handed the conversation off, while no person has ended it and it has not restarted. */
  function HandedOffBy(log: seq<Entry>): Option<nat> {
    if log == [] then None
    else match log[|log| - 1]
      case HandedOff(message) => Some(message)
      case HandoffEnded => None
      case Restarted(_, _) => None
      case _ => HandedOffBy(log[..|log| - 1])
  }

  /** Whether an alarm has been claimed with no handoff entry, staff reply or resolve since. */
  predicate AlarmSet(log: seq<Entry>) {
    if log == [] then false
    else match log[|log| - 1]
      case AlarmClaimed => true
      case HandedOff(_) => false
      case StaffReplied => false
      case HandoffEnded => false
      case _ => AlarmSet(log[..|log| - 1])
  }

  /** Whether an entry may follow what came before it. */
  predicate Proper(before: seq<Entry>, entry: Entry) {
    match entry
    case TurnStarted(message) => TurnStarted(message) !in before
    case BotReplied(message) =>
      && TurnStarted(message) in before && BotReplied(message) !in before
      && (HandedOffBy(before).Some? ==> HandedOffBy(before) == Some(message))
    case HandedOff(_) => HandedOffBy(before).None?
    case Restarted(now, lastInboundAt) => now - lastInboundAt >= TTL_MS
    case AlarmClaimed => !AlarmSet(before)
    case _ => true
  }

  predicate ProperLog(log: seq<Entry>) {
    forall j :: 0 <= j < |log| ==> Proper(log[..j], log[j])
  }

  lemma ProperExtends(log: seq<Entry>, entry: Entry)
    requires ProperLog(log) && Proper(log, entry)
    ensures ProperLog(log + [entry])
  {
    hide Proper;
    var after := log + [entry];
    forall j | 0 <= j < |after|
      ensures Proper(after[..j], after[j])
    {
      if j < |log| {
        assert after[..j] == log[..j];
        assert Proper(log[..j], log[j]);
      } else {
        assert after[..j] == log;
      }
    }
  }

  /** What one more entry does to the two readings of a log. */
  lemma OneMore(log: seq<Entry>, entry: Entry)
    ensures HandedOffBy(log + [entry]) ==
      match entry
      case HandedOff(message) => Some(message)
      case HandoffEnded => None
      case Restarted(_, _) => None
      case _ => HandedOffBy(log)
    ensures AlarmSet(log + [entry]) <==>
      entry.AlarmClaimed? || (!ClearsAlarm(entry) && AlarmSet(log))
  {
    assert (log + [entry])[..|log|] == log;
  }

  predicate ClearsAlarm(entry: Entry) {
    entry.HandedOff? || entry.StaffReplied? || entry.HandoffEnded?
  }

  // -- What every run keeps --------------------------------------------------------------

  ghost predicate TurnsMatch(w: World) {
    && w.pending <= w.seen
    && (forall m :: TurnStarted(m) in w.log ==> m in w.seen && m !in w.pending)
    && (forall m :: BotReplied(m) in w.log ==> TurnStarted(m) in w.log)
    && (w.turn.Some? ==>
          && w.session.Some? && TurnStarted(w.turn.value.message) in w.log && BotReplied(w.turn.value.message) !in w.log)
  }

  predicate SilenceMatches(w: World) {
    && (HandedOffBy(w.log).Some? <==> w.session.Some? && w.session.value.state == HUMAN_HANDOFF)
    && (HandedOffBy(w.log).Some? && w.turn.Some? ==>
          match w.turn.value
          case Loaded(_, state) => state == HUMAN_HANDOFF
          case Sending(message) => HandedOffBy(w.log) == Some(message))
  }

  predicate AlarmMatches(w: World) {
    AlarmSet(w.log) <==> w.session.Some? && w.session.value.escalatedAt.Some?
  }

  predicate ClockMatches(w: World) {
    w.session.Some? ==> w.session.value.expiresAt == w.session.value.lastInboundAt + TTL_MS
  }

  ghost predicate Sound(w: World) {
    ProperLog(w.log) && TurnsMatch(w) && SilenceMatches(w) && AlarmMatches(w) && ClockMatches(w)
  }

  lemma BeginKeeps(w: World, message: nat, now: int)
    requires Sound(w) && message in w.pending && w.turn.None?
    ensures Sound(TurnStep(w, BeginTurn(message, now)))
  {
    hide ProperLog, HandedOffBy, AlarmSet;
    var started := w.log + [TurnStarted(message)];
    ProperExtends(w.log, TurnStarted(message));
    OneMore(w.log, TurnStarted(message));
    if w.session.Some? && IsExpired(w.session.value, now) {
      var entry := Restarted(now, w.session.value.lastInboundAt);
      ProperExtends(started, entry);
      OneMore(started, entry);
      assert w.log + LoadEntries(w.session, message, now) == started + [entry];
    } else {
      assert w.log + LoadEntries(w.session, message, now) == started;
    }
  }

  lemma SaveKeeps(w: World, now: int, state: State)
    requires Sound(w) && Talking(w)
    ensures Sound(TurnStep(w, SaveTurn(now, state)))
  {
    hide ProperLog, HandedOffBy, AlarmSet;
    var entry := HandedOff(w.turn.value.message);
    assert state != HUMAN_HANDOFF ==> w.log + [] == w.log;
    assert HandedOffBy(w.log).None?;
    ProperExtends(w.log, entry);
    OneMore(w.log, entry);
  }

  lemma SendKeeps(w: World)
    requires Sound(w) && w.turn.Some? && w.turn.value.Sending?
    ensures Sound(TurnStep(w, SendReplies))
  {
    hide ProperLog, HandedOffBy, AlarmSet;
    var entry := BotReplied(w.turn.value.message);
    ProperExtends(w.log, entry);
    OneMore(w.log, entry);
  }

  lemma QuietTurnKeeps(w: World, step: Step)
    requires Sound(w)
    requires step.Receive? || step.LosePending? || step.StaySilent? || step.FailTurn? || step.LoseTurn?
    ensures Sound(TurnStep(w, step))
  {
    hide ProperLog, AlarmSet, HandedOffBy;
  }

  lemma StaffKeeps(w: World, step: Step)
    requires Sound(w) && (step.StaffReply? || step.EndHandoff?)
    ensures Sound(StaffStep(w, step))
  {
    hide ProperLog, HandedOffBy, AlarmSet;
    var entry := if step.StaffReply? then StaffReplied else HandoffEnded;
    ProperExtends(w.log, entry);
    OneMore(w.log, entry);
  }

  lemma ClaimKeeps(w: World, sweep: nat)
    requires Sound(w)
    ensures Sound(AlarmStep(w, ClaimAlarm(sweep)))
  {
    hide ProperLog, HandedOffBy, AlarmSet;
    if !AlarmSet(w.log) {
      ProperExtends(w.log, AlarmClaimed);
      OneMore(w.log, AlarmClaimed);
    }
  }

  lemma RaiseKeeps(w: World, step: Step)
    requires Sound(w) && (step.FindWaiting? || step.RaiseAlarm? || step.LoseSweep?)
    ensures Sound(AlarmStep(w, step))
  {
    hide ProperLog, HandedOffBy, AlarmSet, IsUnanswered;
    if step.RaiseAlarm? && step.sweep in w.alarms && w.alarms[step.sweep].Claimed? {
      ProperExtends(w.log, AlarmRaised(w.alarms[step.sweep].waited, w.alarms[step.sweep].claim));
      OneMore(w.log, AlarmRaised(w.alarms[step.sweep].waited, w.alarms[step.sweep].claim));
    }
  }

  lemma StepKeepsSound(w: World, step: Step)
    requires Sound(w)
    ensures Sound(Apply(w, step))
  {
    hide ProperLog, TurnsMatch, SilenceMatches, AlarmMatches, ClockMatches;
    match step
    case BeginTurn(message, now) => if message in w.pending && w.turn.None? { BeginKeeps(w, message, now); }
    case SaveTurn(now, state) => if Talking(w) { SaveKeeps(w, now, state); }
    case SendReplies => if w.turn.Some? && w.turn.value.Sending? { SendKeeps(w); }
    case StaffReply => StaffKeeps(w, step);
    case EndHandoff => StaffKeeps(w, step);
    case FindWaiting(_, _, _) => RaiseKeeps(w, step);
    case ClaimAlarm(sweep) => ClaimKeeps(w, sweep);
    case RaiseAlarm(_) => RaiseKeeps(w, step);
    case LoseSweep(_) => RaiseKeeps(w, step);
    case _ => QuietTurnKeeps(w, step);
  }

  lemma {:induction false} RunKeepsSound(w: World, steps: seq<Step>)
    requires Sound(w)
    ensures Sound(Run(w, steps))
    decreases steps
  {
    hide Sound, Apply;
    if steps != [] {
      StepKeepsSound(w, steps[0]);
      RunKeepsSound(Apply(w, steps[0]), steps[1..]);
    }
  }

  lemma EveryRunIsSound(steps: seq<Step>)
    ensures Sound(Run(START, steps))
  {
    RunKeepsSound(START, steps);
  }

  // -- What follows ------------------------------------------------------------------------

  lemma ProperAt(steps: seq<Step>, j: nat)
    requires j < |Run(START, steps).log|
    ensures Proper(Run(START, steps).log[..j], Run(START, steps).log[j])
  {
    hide Proper, TurnsMatch, SilenceMatches, AlarmMatches, ClockMatches, Run;
    EveryRunIsSound(steps);
  }

  /** However often a message is delivered, it starts at most one turn and is answered at most once. */
  lemma OneTurnPerMessage(steps: seq<Step>, i: nat, j: nat)
    requires i < j < |Run(START, steps).log|
    ensures var log := Run(START, steps).log;
      log[i] == log[j] ==> !log[i].TurnStarted? && !log[i].BotReplied?
  {
    hide Run, HandedOffBy, AlarmSet;
    var log := Run(START, steps).log;
    ProperAt(steps, j);
    assert log[i] in log[..j] by { assert log[..j][i] == log[i]; }
  }

  predicate EndsSilence(entry: Entry) {
    entry.HandoffEnded? || entry.Restarted?
  }

  predicate Silent(log: seq<Entry>, from: nat, to: nat)
    requires from <= to <= |log|
  {
    forall k :: from <= k < to ==> !EndsSilence(log[k])
  }

  lemma {:induction false} StaysHandedOff(log: seq<Entry>, i: nat, j: nat)
    requires ProperLog(log) && i < j <= |log| && log[i].HandedOff? && Silent(log, i, j)
    ensures HandedOffBy(log[..j]) == Some(log[i].message)
  {
    assert log[..j][..j - 1] == log[..j - 1];
    if j > i + 1 {
      StaysHandedOff(log, i, j - 1);
      assert Proper(log[..j - 1], log[j - 1]);
      assert !EndsSilence(log[j - 1]);
    }
  }

  /**
   * From the moment a conversation is handed over until a person ends it, or it
   * restarts a full day after the customer last wrote, the bot says nothing but
   * the rest of the turn that handed it over.
   */
  lemma SilentUntilResolved(steps: seq<Step>, i: nat, j: nat)
    requires i < j < |Run(START, steps).log|
    requires var log := Run(START, steps).log;
      log[i].HandedOff? && log[j].BotReplied? && log[j].message != log[i].message
    ensures var log := Run(START, steps).log;
      exists k :: i < k < j && (log[k].HandoffEnded? || (log[k].Restarted? && log[k].now - log[k].lastInboundAt >= TTL_MS))
  {
    hide Run, AlarmSet, HandedOffBy, TurnsMatch, SilenceMatches, AlarmMatches, ClockMatches;
    var log := Run(START, steps).log;
    EveryRunIsSound(steps);
    ProperAt(steps, j);
    if Silent(log, i, j) {
      StaysHandedOff(log, i, j);
    }
    var k :| i <= k < j && EndsSilence(log[k]);
    ProperAt(steps, k);
  }

  lemma {:induction false} StaysSet(log: seq<Entry>, i: nat, j: nat)
    requires i < j <= |log| && log[i].AlarmClaimed?
    requires forall k :: i < k < j ==> !ClearsAlarm(log[k])
    ensures AlarmSet(log[..j])
  {
    assert log[..j][..j - 1] == log[..j - 1];
    if j > i + 1 {
      StaysSet(log, i, j - 1);
    }
  }

  /** Two alarms claimed for a conversation have a handoff entry, a staff reply or a resolve between them. */
  lemma AlarmsAreSeparated(steps: seq<Step>, i: nat, j: nat)
    requires i < j < |Run(START, steps).log|
    requires Run(START, steps).log[i].AlarmClaimed? && Run(START, steps).log[j].AlarmClaimed?
    ensures exists k :: i < k < j && ClearsAlarm(Run(START, steps).log[k])
  {
    hide Run, AlarmSet, HandedOffBy;
    var log := Run(START, steps).log;
    ProperAt(steps, j);
    if forall k :: i < k < j ==> !ClearsAlarm(log[k]) {
      StaysSet(log, i, j);
    }
  }
}
