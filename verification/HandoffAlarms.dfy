/**
 * The alarm for a handoff nobody answered: how claims and events balance, where
 * each falls in the conversation, and what the two separate writes let happen.
 */
module HandoffAlarms {
  import opened Outcomes
  import opened Replies
  import opened Handoff

  function Claims(log: seq<Entry>): nat {
    if log == [] then 0 else Claims(log[..|log| - 1]) + if log[|log| - 1].AlarmClaimed? then 1 else 0
  }

  function Raises(log: seq<Entry>): nat {
    if log == [] then 0 else Raises(log[..|log| - 1]) + if log[|log| - 1].AlarmRaised? then 1 else 0
  }

  function InFlight(alarms: map<nat, Alarm>): set<nat> {
    set s | s in alarms && alarms[s].Claimed?
  }

  lemma CountsExtend(log: seq<Entry>, entry: Entry)
    ensures Claims(log + [entry]) == Claims(log) + if entry.AlarmClaimed? then 1 else 0
    ensures Raises(log + [entry]) == Raises(log) + if entry.AlarmRaised? then 1 else 0
  {
    assert (log + [entry])[..|log|] == log;
  }

  lemma TurnKeepsCounts(w: World, step: Step)
    ensures var after := TurnStep(w, step);
      after.alarms == w.alarms && Claims(after.log) == Claims(w.log) && Raises(after.log) == Raises(w.log)
  {
    hide Claims, Raises;
    assert w.log + [] == w.log;
    match step
    case BeginTurn(message, now) =>
      CountsExtend(w.log, TurnStarted(message));
      if w.session.Some? {
        var entry := Restarted(now, w.session.value.lastInboundAt);
        CountsExtend(w.log + [TurnStarted(message)], entry);
        assert w.log + [TurnStarted(message)] + [entry] == w.log + ([TurnStarted(message)] + [entry]);
      }
      assert [TurnStarted(message)] + [] == [TurnStarted(message)];
    case SaveTurn(now, state) => if Talking(w) { CountsExtend(w.log, HandedOff(w.turn.value.message)); }
    case SendReplies => if w.turn.Some? { CountsExtend(w.log, BotReplied(w.turn.value.message)); }
    case _ =>
  }

  lemma StaffKeepsCounts(w: World, step: Step)
    ensures var after := StaffStep(w, step);
      after.alarms == w.alarms && Claims(after.log) == Claims(w.log) && Raises(after.log) == Raises(w.log)
  {
    hide Claims, Raises;
    CountsExtend(w.log, StaffReplied);
    CountsExtend(w.log, HandoffEnded);
  }

  /** A sweep that dies between its claim and its event. */
  function LostBy(w: World, step: Step): nat {
    if step.LoseSweep? && step.sweep in w.alarms && w.alarms[step.sweep].Claimed? then 1 else 0
  }

  function Lost(w: World, steps: seq<Step>): nat
    decreases steps
  {
    if steps == [] then 0 else LostBy(w, steps[0]) + Lost(Apply(w, steps[0]), steps[1..])
  }

  /** Every claim has been announced, is about to be, or was lost. */
  predicate Balanced(w: World, lost: nat) {
    Claims(w.log) == Raises(w.log) + |InFlight(w.alarms)| + lost
  }

  lemma SameInFlight(before: map<nat, Alarm>, after: map<nat, Alarm>)
    requires forall s :: s in after && after[s].Claimed? <==> s in before && before[s].Claimed?
    ensures |InFlight(after)| == |InFlight(before)|
  {
    assert InFlight(after) == InFlight(before);
  }

  lemma OneLessInFlight(alarms: map<nat, Alarm>, sweep: nat)
    requires sweep in alarms && alarms[sweep].Claimed?
    ensures |InFlight(alarms)| == |InFlight(alarms - {sweep})| + 1
  {
    assert InFlight(alarms - {sweep}) == InFlight(alarms) - {sweep};
  }

  lemma OneMoreInFlight(alarms: map<nat, Alarm>, sweep: nat, claimed: Alarm)
    requires sweep in alarms && alarms[sweep].Found? && claimed.Claimed?
    ensures |InFlight(alarms[sweep := claimed])| == |InFlight(alarms)| + 1
  {
    assert InFlight(alarms[sweep := claimed]) == InFlight(alarms) + {sweep};
  }

  lemma AlarmKeepsCounts(w: World, step: Step, lost: nat)
    requires Balanced(w, lost) && (step.FindWaiting? || step.ClaimAlarm? || step.RaiseAlarm? || step.LoseSweep?)
    ensures Balanced(AlarmStep(w, step), lost + LostBy(w, step))
  {
    hide Claims, Raises, IsUnanswered, InFlight;
    var sweep, after := step.sweep, AlarmStep(w, step);
    if step.ClaimAlarm? && sweep in w.alarms && w.alarms[sweep].Found? && w.session.Some? && w.session.value.escalatedAt.None? {
      CountsExtend(w.log, AlarmClaimed);
      OneMoreInFlight(w.alarms, sweep, Claimed(w.alarms[sweep].waited, |w.log|));
    } else if (step.RaiseAlarm? || step.LoseSweep?) && sweep in w.alarms && w.alarms[sweep].Claimed? {
      OneLessInFlight(w.alarms, sweep);
      CountsExtend(w.log, AlarmRaised(w.alarms[sweep].waited, w.alarms[sweep].claim));
    } else {
      SameInFlight(w.alarms, after.alarms);
    }
  }

  lemma StepKeepsCounts(w: World, step: Step, lost: nat)
    requires Balanced(w, lost)
    ensures Balanced(Apply(w, step), lost + LostBy(w, step))
  {
    hide Claims, Raises, InFlight, TurnStep, StaffStep, AlarmStep;
    TurnKeepsCounts(w, step);
    StaffKeepsCounts(w, step);
    if step.FindWaiting? || step.ClaimAlarm? || step.RaiseAlarm? || step.LoseSweep? {
      AlarmKeepsCounts(w, step, lost);
    }
  }

  lemma {:induction false} RunKeepsCounts(w: World, steps: seq<Step>, lost: nat)
    requires Balanced(w, lost)
    ensures Balanced(Run(w, steps), lost + Lost(w, steps))
    decreases steps
  {
    hide Apply, Balanced, LostBy;
    if steps != [] {
      StepKeepsCounts(w, steps[0], lost);
      RunKeepsCounts(Apply(w, steps[0]), steps[1..], lost + LostBy(w, steps[0]));
    }
  }

  /**
   * In every run the alarms claimed are those announced, those about to be, and
   * those whose sweep died in between. So with no sweep under way every claim was
   * announced exactly when none died between its two writes.
   */
  lemma ClaimsAreAnnouncedOrLost(steps: seq<Step>)
    ensures var w := Run(START, steps);
      && Claims(w.log) == Raises(w.log) + |InFlight(w.alarms)| + Lost(START, steps)
      && (InFlight(w.alarms) == {} ==> (Claims(w.log) == Raises(w.log) <==> Lost(START, steps) == 0))
  {
    hide Run, Lost;
    assert InFlight(START.alarms) == {};
    assert Balanced(START, 0);
    RunKeepsCounts(START, steps, 0);
  }

  // -- Where alarms fall -----------------------------------------------------------------

  /** What the alarms under way and the alarm events remember of the log is so. */
  predicate AlarmPlaced(log: seq<Entry>, alarm: Alarm) {
    match alarm
    case Found(_, _, found) => found <= |log| && HandedOffBy(log[..found]).Some?
    case Claimed(_, claim) => claim < |log| && log[claim] == AlarmClaimed
  }

  predicate RaisePlaced(log: seq<Entry>, i: nat)
    requires i < |log|
  {
    log[i].AlarmRaised? ==> log[i].claim < i && log[log[i].claim] == AlarmClaimed
  }

  predicate AlarmsPlaced(w: World) {
    && (forall s :: s in w.alarms ==> AlarmPlaced(w.log, w.alarms[s]))
    && (forall i :: 0 <= i < |w.log| ==> RaisePlaced(w.log, i))
    && (forall s, t :: s in w.alarms && t in w.alarms && s != t && w.alarms[s].Claimed? && w.alarms[t].Claimed? ==>
          w.alarms[s].claim != w.alarms[t].claim)
    && (forall s, i :: s in w.alarms && w.alarms[s].Claimed? && 0 <= i < |w.log| && w.log[i].AlarmRaised? ==>
          w.log[i].claim != w.alarms[s].claim)
    && (forall i, j :: 0 <= i < j < |w.log| && w.log[i].AlarmRaised? && w.log[j].AlarmRaised? ==>
          w.log[i].claim != w.log[j].claim)
  }

  lemma PlacedStays(log: seq<Entry>, more: seq<Entry>)
    ensures forall alarm: Alarm :: AlarmPlaced(log, alarm) ==> AlarmPlaced(log + more, alarm)
    ensures forall i :: 0 <= i < |log| && RaisePlaced(log, i) ==> RaisePlaced(log + more, i)
  {
    hide HandedOffBy;
    forall alarm: Alarm | AlarmPlaced(log, alarm)
      ensures AlarmPlaced(log + more, alarm)
    {
      if alarm.Found? { assert (log + more)[..alarm.found] == log[..alarm.found]; }
    }
  }

  /** Entries that announce no alarm, with the sweeps as they were, move nothing. */
  lemma QuietKeepsPlaced(w: World, after: World, more: seq<Entry>)
    requires AlarmsPlaced(w) && after.alarms == w.alarms && after.log == w.log + more
    requires forall i :: 0 <= i < |more| ==> !more[i].AlarmRaised?
    ensures AlarmsPlaced(after)
  {
    hide AlarmPlaced, HandedOffBy;
    PlacedStays(w.log, more);
  }

  lemma TurnKeepsPlaced(w: World, step: Step)
    requires AlarmsPlaced(w)
    ensures AlarmsPlaced(TurnStep(w, step)) && AlarmsPlaced(StaffStep(w, step))
  {
    hide AlarmsPlaced, IsExpired, Load, Save;
    var turn, staff := TurnStep(w, step), StaffStep(w, step);
    assert w.log + [] == w.log;
    QuietKeepsPlaced(w, turn, turn.log[|w.log|..]);
    QuietKeepsPlaced(w, staff, staff.log[|w.log|..]);
  }

  lemma FindKeepsPlaced(w: World, sweep: nat, now: int, threshold: int)
    requires AlarmsPlaced(w) && SilenceMatches(w)
    ensures AlarmsPlaced(AlarmStep(w, FindWaiting(sweep, now, threshold)))
  {
    hide HandedOffBy, Waited;
    assert w.log[..|w.log|] == w.log;
  }

  lemma ClaimKeepsPlaced(w: World, sweep: nat)
    requires AlarmsPlaced(w)
    ensures AlarmsPlaced(AlarmStep(w, ClaimAlarm(sweep)))
  {
    hide HandedOffBy;
    var after := AlarmStep(w, ClaimAlarm(sweep));
    if after.log != w.log {
      PlacedStays(w.log, [AlarmClaimed]);
      forall i | 0 <= i < |after.log|
        ensures RaisePlaced(after.log, i) && (after.log[i].AlarmRaised? ==> after.log[i].claim < |w.log|)
      {
        if i < |w.log| { assert RaisePlaced(w.log, i); }
      }
      forall s | s in after.alarms
        ensures AlarmPlaced(after.log, after.alarms[s])
        ensures s != sweep && after.alarms[s].Claimed? ==> after.alarms[s].claim < |w.log|
      {
        assert s != sweep ==> AlarmPlaced(w.log, w.alarms[s]);
      }
      hide AlarmPlaced, RaisePlaced;
    }
  }

  lemma RaiseKeepsPlaced(w: World, step: Step)
    requires AlarmsPlaced(w) && (step.RaiseAlarm? || step.LoseSweep?)
    ensures AlarmsPlaced(AlarmStep(w, step))
  {
    hide HandedOffBy;
    if step.RaiseAlarm? && step.sweep in w.alarms && w.alarms[step.sweep].Claimed? {
      assert AlarmPlaced(w.log, w.alarms[step.sweep]);
      PlacedStays(w.log, [AlarmRaised(w.alarms[step.sweep].waited, w.alarms[step.sweep].claim)]);
    }
  }

  lemma StepKeepsPlaced(w: World, step: Step)
    requires Sound(w) && AlarmsPlaced(w)
    ensures AlarmsPlaced(Apply(w, step))
  {
    hide AlarmsPlaced, TurnStep, StaffStep, AlarmStep;
    TurnKeepsPlaced(w, step);
    match step
    case FindWaiting(sweep, now, threshold) => FindKeepsPlaced(w, sweep, now, threshold);
    case ClaimAlarm(sweep) => ClaimKeepsPlaced(w, sweep);
    case RaiseAlarm(_) => RaiseKeepsPlaced(w, step);
    case LoseSweep(_) => RaiseKeepsPlaced(w, step);
    case _ =>
  }

  lemma {:induction false} RunKeepsPlaced(w: World, steps: seq<Step>)
    requires Sound(w) && AlarmsPlaced(w)
    ensures AlarmsPlaced(Run(w, steps))
    decreases steps
  {
    hide AlarmsPlaced, Sound, Apply;
    if steps != [] {
      StepKeepsSound(w, steps[0]);
      StepKeepsPlaced(w, steps[0]);
      RunKeepsPlaced(Apply(w, steps[0]), steps[1..]);
    }
  }

  lemma EveryRunIsPlaced(steps: seq<Step>)
    ensures AlarmsPlaced(Run(START, steps))
  {
    RunKeepsPlaced(START, steps);
  }

  /** The silence was ended at `k`, and no handoff has begun since. */
  predicate EndedAt(log: seq<Entry>, k: nat)
    requires k < |log|
  {
    EndsSilence(log[k]) && forall j :: k < j < |log| ==> !log[j].HandedOff?
  }

  lemma {:induction false} EndedSince(log: seq<Entry>, from: nat)
    requires from <= |log| && HandedOffBy(log[..from]).Some?
    ensures HandedOffBy(log).None? <==> exists k :: from <= k < |log| && EndedAt(log, k)
    decreases |log|
  {
    assert log[..|log|] == log;
    if from < |log| {
      var front, last := log[..|log| - 1], log[|log| - 1];
      assert front[..from] == log[..from];
      EndedSince(front, from);
      if EndsSilence(last) {
        assert EndedAt(log, |log| - 1);
      } else if last.HandedOff? {
        assert forall k :: from <= k < |log| && EndedAt(log, k) ==> k == |log| - 1;
      } else {
        assert forall k :: from <= k < |front| ==> (EndedAt(front, k) <==> EndedAt(log, k));
      }
    }
  }

  /**
   * When an alarm is claimed for a conversation no longer handed off: exactly when,
   * between that sweep's read and its claim, a person ended the handoff or it
   * restarted, and no new handoff has begun.
   */
  lemma ClaimFallsOnEndedHandoffIff(steps: seq<Step>, sweep: nat)
    requires var w := Run(START, steps); sweep in w.alarms && w.alarms[sweep].Found? && w.session.Some?
    ensures var w := Run(START, steps);
      var found := w.alarms[sweep].found;
      w.session.value.state != HUMAN_HANDOFF <==> exists k :: found <= k < |w.log| && EndedAt(w.log, k)
  {
    hide Run, HandedOffBy, AlarmSet, ProperLog, TurnsMatch, AlarmMatches, ClockMatches;
    var w := Run(START, steps);
    EveryRunIsSound(steps);
    EveryRunIsPlaced(steps);
    assert AlarmPlaced(w.log, w.alarms[sweep]);
    EndedSince(w.log, w.alarms[sweep].found);
  }

  /** Between an alarm's claim and its event nothing cleared it. */
  predicate AnnouncedAtOnce(log: seq<Entry>, i: nat)
    requires i < |log| && log[i].AlarmRaised?
  {
    forall k :: log[i].claim < k < i && k < |log| ==> !ClearsAlarm(log[k])
  }

  /**
   * Two alarm events come from two claims, which a handoff entry, staff reply or
   * resolve separates. It separates the events too when the first event is that of
   * the first claim and was written before its alarm was cleared.
   */
  lemma AlarmEventsAreSeparated(steps: seq<Step>, i: nat, j: nat)
    requires i < j < |Run(START, steps).log|
    requires Run(START, steps).log[i].AlarmRaised? && Run(START, steps).log[j].AlarmRaised?
    ensures var log := Run(START, steps).log;
      var c, d := log[i].claim, log[j].claim;
      && c < i && d < j && c != d && log[c] == AlarmClaimed && log[d] == AlarmClaimed
      && (exists k :: 0 <= k < j && (c < k < d || d < k < c) && ClearsAlarm(log[k]))
      && (AnnouncedAtOnce(log, j) ==> c < d)
      && (c < d && AnnouncedAtOnce(log, i) ==> exists k :: i < k < j && ClearsAlarm(log[k]))
  {
    hide Run, HandedOffBy, AlarmSet;
    var log := Run(START, steps).log;
    EveryRunIsPlaced(steps);
    assert RaisePlaced(log, i) && RaisePlaced(log, j);
    var c, d := log[i].claim, log[j].claim;
    var first, last := if c < d then c else d, if c < d then d else c;
    AlarmsAreSeparated(steps, first, last);
    var k :| first < k < last && ClearsAlarm(log[k]);
    if c < d && AnnouncedAtOnce(log, i) {
      assert i < k;
    }
  }

  // -- Whether another alarm can follow ----------------------------------------------------

  /** In this log an alarm event stands at `j`, after `from`, with nothing in between that clears an alarm. */
  predicate FollowsAt(log: seq<Entry>, from: nat, j: nat) {
    from <= j < |log| && log[j].AlarmRaised? && forall k :: from <= k < j ==> !ClearsAlarm(log[k])
  }

  /** Some continuation announces another alarm before anything clears one. */
  ghost predicate AnotherMayFollow(w: World) {
    exists more, j :: FollowsAt(Run(w, more).log, |w.log|, j)
  }

  /** No sweep has anything to announce, and none can claim before the alarm is cleared. */
  predicate Quiet(w: World) {
    && w.session.Some?
    && (forall t :: t in w.alarms ==> w.alarms[t].Found?)
    && (w.session.value.escalatedAt.Some? || (w.session.value.state != HUMAN_HANDOFF && w.alarms == map[]))
  }

  /** A step writes entries that clear an alarm, or leaves the quiet as it is and announces nothing. */
  lemma QuietStep(w: World, step: Step)
    requires Quiet(w)
    ensures var after := Apply(w, step);
      && w.log <= after.log
      && ((|after.log| == |w.log| + 1 && ClearsAlarm(after.log[|w.log|]))
          || (Quiet(after) && forall i :: |w.log| <= i < |after.log| ==> !after.log[i].AlarmRaised?))
  {
    hide IsExpired, Waited;
  }

  lemma StepExtends(w: World, step: Step)
    ensures w.log <= Apply(w, step).log
  {
    hide IsExpired, Waited, Load, Save;
  }

  lemma {:induction false} RunExtends(w: World, steps: seq<Step>)
    ensures w.log <= Run(w, steps).log
    decreases steps
  {
    hide Apply;
    if steps != [] {
      StepExtends(w, steps[0]);
      RunExtends(Apply(w, steps[0]), steps[1..]);
    }
  }

  lemma {:induction false} QuietHolds(w: World, more: seq<Step>, j: nat)
    requires Quiet(w)
    ensures !FollowsAt(Run(w, more).log, |w.log|, j)
    decreases more
  {
    hide Apply, Quiet;
    if more != [] {
      var next, end := Apply(w, more[0]), Run(w, more).log;
      QuietStep(w, more[0]);
      RunExtends(next, more[1..]);
      assert forall i :: 0 <= i < |next.log| ==> end[i] == next.log[i];
      if FollowsAt(end, |w.log|, j) {
        if Quiet(next) {
          QuietHolds(next, more[1..], j);
        }
        assert false;
      }
    }
  }

  lemma RunOne(w: World, step: Step)
    ensures Run(w, [step]) == Apply(w, step)
  {
    hide Apply;
    assert [step] == [step] + [];
    RunCons(w, step, []);
  }

  lemma ClaimedMayFollow(w: World, sweep: nat)
    requires sweep in w.alarms && w.alarms[sweep].Claimed?
    ensures AnotherMayFollow(w)
  {
    RunOne(w, RaiseAlarm(sweep));
    assert FollowsAt(Run(w, [RaiseAlarm(sweep)]).log, |w.log|, |w.log|);
  }

  lemma FoundMayFollow(w: World, sweep: nat)
    requires w.session.Some? && w.session.value.escalatedAt.None? && sweep in w.alarms && w.alarms[sweep].Found?
    ensures AnotherMayFollow(w)
  {
    var w1 := Apply(w, ClaimAlarm(sweep));
    assert w1.log == w.log + [AlarmClaimed] && w1.alarms[sweep].Claimed?;
    RunOne(w, ClaimAlarm(sweep));
    RunSnoc(w, [ClaimAlarm(sweep)], RaiseAlarm(sweep));
    hide Run;
    assert FollowsAt(Run(w, [ClaimAlarm(sweep)] + [RaiseAlarm(sweep)]).log, |w.log|, |w.log| + 1);
  }

  /** A sweep that has not begun. */
  lemma FreshSweep(alarms: map<nat, Alarm>)
    ensures exists sweep: nat :: sweep !in alarms
  {
    var top := UpperBound(alarms.Keys);
    assert top !in alarms.Keys;
  }

  ghost function UpperBound(ids: set<nat>): (top: nat)
    ensures forall i: nat :: i in ids ==> i < top
  {
    if ids == {} then 0
    else
      var i: nat :| i in ids;
      assert forall k: nat :: k in ids ==> k == i || k in ids - {i};
      var top := UpperBound(ids - {i});
      if i < top then top else i + 1
  }

  lemma WaitingMayFollow(w: World)
    requires w.session.Some? && w.session.value.escalatedAt.None? && w.session.value.state == HUMAN_HANDOFF
    ensures AnotherMayFollow(w)
  {
    FreshSweep(w.alarms);
    var sweep: nat :| sweep !in w.alarms;
    var threshold := Waited(w.session.value, 0);
    var w1 := w.(alarms := w.alarms[sweep := Found(0, threshold, |w.log|)]);
    assert Apply(w, FindWaiting(sweep, 0, threshold)) == w1;
    RunThree(w, FindWaiting(sweep, 0, threshold), ClaimAlarm(sweep), RaiseAlarm(sweep));
    var after := Run(w, [FindWaiting(sweep, 0, threshold), ClaimAlarm(sweep), RaiseAlarm(sweep)]);
    assert after.log == w.log + [AlarmClaimed] + [AlarmRaised(threshold, |w.log|)];
    hide Run, Apply;
    assert FollowsAt(after.log, |w.log|, |w.log| + 1);
  }

  /** Another alarm may follow exactly when things are not quiet. */
  lemma MayFollowIff(w: World)
    requires w.session.Some?
    ensures AnotherMayFollow(w) <==>
      || (exists t :: t in w.alarms && w.alarms[t].Claimed?)
      || (w.session.value.escalatedAt.None? && (w.session.value.state == HUMAN_HANDOFF || w.alarms != map[]))
  {
    hide Run, FollowsAt;
    if t :| t in w.alarms && w.alarms[t].Claimed? {
      ClaimedMayFollow(w, t);
    } else if w.session.value.escalatedAt.None? && w.session.value.state == HUMAN_HANDOFF {
      WaitingMayFollow(w);
    } else if w.session.value.escalatedAt.None? && w.alarms != map[] {
      assert w.alarms.Keys != {};
      var t :| t in w.alarms;
      FoundMayFollow(w, t);
    } else {
      assert Quiet(w);
      forall more, j ensures !FollowsAt(Run(w, more).log, |w.log|, j) {
        QuietHolds(w, more, j);
      }
    }
  }

  predicate AlarmsHaveSession(w: World) {
    w.alarms != map[] ==> w.session.Some?
  }

  lemma {:induction false} RunKeepsSession(w: World, steps: seq<Step>)
    requires AlarmsHaveSession(w)
    ensures AlarmsHaveSession(Run(w, steps))
    decreases steps
  {
    if steps != [] {
      StepKeepsSession(w, steps[0]);
      hide Apply, AlarmsHaveSession;
      RunKeepsSession(Apply(w, steps[0]), steps[1..]);
    }
  }

  lemma StepKeepsSession(w: World, step: Step)
    requires AlarmsHaveSession(w)
    ensures AlarmsHaveSession(Apply(w, step))
  {
    hide IsExpired, Waited;
  }

  /**
   * When a second alarm event may follow the one a sweep is about to write, with no
   * handoff entry, staff reply or resolve in between: exactly when another sweep
   * has claimed too, or the alarm has been cleared since and either the
   * conversation waits again or another sweep had already found it waiting.
   */
  lemma SecondAlarmMayFollowIff(steps: seq<Step>, sweep: nat)
    requires var w := Run(START, steps); sweep in w.alarms && w.alarms[sweep].Claimed?
    ensures var w := Run(START, steps);
      && w.session.Some?
      && (AnotherMayFollow(Apply(w, RaiseAlarm(sweep))) <==>
            || (exists t :: t in w.alarms && t != sweep && w.alarms[t].Claimed?)
            || (w.session.value.escalatedAt.None?
                && (w.session.value.state == HUMAN_HANDOFF || exists t :: t in w.alarms && t != sweep && w.alarms[t].Found?)))
  {
    hide Run, AnotherMayFollow;
    RunKeepsSession(START, steps);
    var w := Run(START, steps);
    assert w.alarms != map[];
    var after := Apply(w, RaiseAlarm(sweep));
    assert after.session == w.session && after.alarms == w.alarms - {sweep};
    MayFollowIff(after);
    assert forall t :: t in after.alarms <==> t in w.alarms && t != sweep;
    assert forall t :: t in after.alarms ==> after.alarms[t] == w.alarms[t] && (w.alarms[t].Found? || w.alarms[t].Claimed?);
    assert after.alarms != map[] <==> exists t :: t in w.alarms && t != sweep by {
      OthersLeft(w.alarms, sweep);
    }
  }

  lemma OthersLeft(alarms: map<nat, Alarm>, sweep: nat)
    ensures alarms - {sweep} != map[] <==> exists t :: t in alarms && t != sweep
  {
    var rest := alarms - {sweep};
    if rest != map[] {
      assert rest.Keys != {};
      var t :| t in rest;
      assert t in alarms && t != sweep;
    }
    if t :| t in alarms && t != sweep {
      assert t in rest;
    }
  }

  lemma RepliedBeforeAnnounced(w: World, now: int, threshold: int)
    requires IsWaiting(w, now, threshold)
    ensures Run(w, [FindWaiting(0, now, threshold), ClaimAlarm(0), StaffReply])
      == w.(alarms := map[0 := Claimed(Waited(w.session.value, now), |w.log|)], log := w.log + [AlarmClaimed, StaffReplied])
  {
    var waited, claimed := Waited(w.session.value, now), Some(w.session.value.(escalatedAt := Some(now)));
    RunThree(w, FindWaiting(0, now, threshold), ClaimAlarm(0), StaffReply);
    var w1 := w.(alarms := map[0 := Found(now, waited, |w.log|)]);
    assert Apply(w, FindWaiting(0, now, threshold)) == w1;
    var w2 := w.(alarms := map[0 := Claimed(waited, |w.log|)], session := claimed, log := w.log + [AlarmClaimed]);
    assert Apply(w1, ClaimAlarm(0)) == w2;
    assert w2.log + [StaffReplied] == w.log + [AlarmClaimed, StaffReplied];
  }

  /** Such a run: a reply comes between a claim and its event, and the next alarm event follows with nothing in between. */
  lemma EventsMayFollowOneAnother(w: World, now: int, threshold: int)
    requires IsWaiting(w, now, threshold)
    ensures var after := Run(Run(w, [FindWaiting(0, now, threshold), ClaimAlarm(0), StaffReply]),
                             [RaiseAlarm(0), FindWaiting(1, now, threshold), ClaimAlarm(1)]);
      var waited := Waited(w.session.value, now);
      Apply(after, RaiseAlarm(1)).log
      == w.log + [AlarmClaimed, StaffReplied] + [AlarmRaised(waited, |w.log|), AlarmClaimed, AlarmRaised(waited, |w.log| + 3)]
  {
    hide Apply, Run;
    RepliedBeforeAnnounced(w, now, threshold);
    SecondAlarm(Run(w, [FindWaiting(0, now, threshold), ClaimAlarm(0), StaffReply]), now, threshold,
                Waited(w.session.value, now), |w.log|);
  }

  lemma SecondAlarm(w: World, now: int, threshold: int, waited: int, claim: nat)
    requires w.alarms == map[0 := Claimed(waited, claim)] && IsUnanswered(w.session, now, threshold)
    requires waited == Waited(w.session.value, now)
    ensures var after := Run(w, [RaiseAlarm(0), FindWaiting(1, now, threshold), ClaimAlarm(1)]);
      Apply(after, RaiseAlarm(1)).log == w.log + [AlarmRaised(waited, claim), AlarmClaimed, AlarmRaised(waited, |w.log| + 1)]
  {
    RunThree(w, RaiseAlarm(0), FindWaiting(1, now, threshold), ClaimAlarm(1));
    var w1 := w.(alarms := map[], log := w.log + [AlarmRaised(waited, claim)]);
    assert w.alarms - {0} == map[];
    assert Apply(w, RaiseAlarm(0)) == w1;
    var w2 := w1.(alarms := map[1 := Found(now, waited, |w1.log|)]);
    assert Apply(w1, FindWaiting(1, now, threshold)) == w2;
  }

  /** Every sweep of a run is told this threshold, or a longer one. */
  predicate Patient(steps: seq<Step>, threshold: int) {
    forall i :: 0 <= i < |steps| && steps[i].FindWaiting? ==> steps[i].threshold >= threshold
  }

  predicate AlarmsWaited(w: World, threshold: int) {
    && (forall s :: s in w.alarms ==> w.alarms[s].waited >= threshold)
    && (forall i :: 0 <= i < |w.log| && w.log[i].AlarmRaised? ==> w.log[i].waited >= threshold)
  }

  lemma StepKeepsPatience(w: World, step: Step, threshold: int)
    requires AlarmsWaited(w, threshold) && (step.FindWaiting? ==> step.threshold >= threshold)
    ensures AlarmsWaited(Apply(w, step), threshold)
  {
    hide IsExpired, Load, Save, Waited;
  }

  lemma {:induction false} RunKeepsPatience(w: World, steps: seq<Step>, threshold: int)
    requires AlarmsWaited(w, threshold) && Patient(steps, threshold)
    ensures AlarmsWaited(Run(w, steps), threshold)
    decreases steps
  {
    hide Apply, AlarmsWaited;
    if steps != [] {
      StepKeepsPatience(w, steps[0], threshold);
      RunKeepsPatience(Apply(w, steps[0]), steps[1..], threshold);
    }
  }

  /** Nobody is alarmed about a customer who has not waited the tenant's threshold out. */
  lemma NoAlarmTooEarly(steps: seq<Step>, threshold: int, i: nat)
    requires Patient(steps, threshold) && i < |Run(START, steps).log| && Run(START, steps).log[i].AlarmRaised?
    ensures Run(START, steps).log[i].waited >= threshold
  {
    hide Run;
    assert AlarmsWaited(START, threshold);
    RunKeepsPatience(START, steps, threshold);
  }

  // -- And what does not -------------------------------------------------------------------

  /** A conversation waiting for a person with no alarm set. */
  predicate IsWaiting(w: World, now: int, threshold: int) {
    w.alarms == map[] && IsUnanswered(w.session, now, threshold)
  }

  /** A sweep that stops between the claim and the event leaves the alarm set and nobody told. */
  lemma AlarmCanBeLost(w: World, now: int, threshold: int)
    requires IsWaiting(w, now, threshold)
    ensures var after := Run(w, [FindWaiting(0, now, threshold), ClaimAlarm(0), LoseSweep(0)]);
      && after.log == w.log + [AlarmClaimed] && after.alarms == map[]
      && after.session == Some(w.session.value.(escalatedAt := Some(now)))
      && forall later, other, t :: Apply(after, FindWaiting(other, later, t)) == after
  {
    RunThree(w, FindWaiting(0, now, threshold), ClaimAlarm(0), LoseSweep(0));
    var w1 := w.(alarms := map[0 := Found(now, Waited(w.session.value, now), |w.log|)]);
    assert Apply(w, FindWaiting(0, now, threshold)) == w1;
    var w2 := w1.(session := Some(w.session.value.(escalatedAt := Some(now))), alarms := map[0 := Claimed(Waited(w.session.value, now), |w.log|)], log := w.log + [AlarmClaimed]);
    assert Apply(w1, ClaimAlarm(0)) == w2;
    assert w2.alarms - {0} == map[];
  }

  /** A handoff ended between the sweep's read and its claim still has its alarm claimed. */
  lemma AlarmAfterResolve(w: World, now: int, threshold: int)
    requires IsWaiting(w, now, threshold)
    ensures var after := Run(w, [FindWaiting(0, now, threshold), EndHandoff, ClaimAlarm(0)]);
      && after.log == w.log + [HandoffEnded, AlarmClaimed]
      && after.session == Some(w.session.value.(state := IDLE, escalatedAt := Some(now)))
  {
    RunThree(w, FindWaiting(0, now, threshold), EndHandoff, ClaimAlarm(0));
    var w1 := w.(alarms := map[0 := Found(now, Waited(w.session.value, now), |w.log|)]);
    assert Apply(w, FindWaiting(0, now, threshold)) == w1;
    var w2 := w1.(session := Some(w.session.value.(state := IDLE)), log := w.log + [HandoffEnded]);
    assert Apply(w1, EndHandoff) == w2;
    assert w.log + [HandoffEnded] + [AlarmClaimed] == w.log + [HandoffEnded, AlarmClaimed];
  }

  /** Such a conversation comes about: a customer asks for a person, and time passes. */
  lemma WaitingComesAbout(message: nat, start: int, threshold: nat)
    ensures exists steps :: IsWaiting(Run(START, steps), start + 1000 * threshold, threshold)
  {
    var steps := [Receive(message, true), BeginTurn(message, start), SaveTurn(start, HUMAN_HANDOFF)];
    RunThree(START, steps[0], steps[1], steps[2]);
    var w1 := START.(seen := {message}, pending := {message});
    assert Apply(START, steps[0]) == w1;
    var w2 := w1.(pending := {}, session := Some(Fresh(IDLE, None, start)), turn := Some(Loaded(message, IDLE)), log := [TurnStarted(message)]);
    assert Apply(w1, steps[1]) == w2 by { assert w1.pending - {message} == {}; }
    assert IsWaiting(Run(START, steps), start + 1000 * threshold, threshold);
  }
}
