/** What a scheduled evaluation does to a rule, told from the published rows, events and values. */
module AlertOutcomes {
  import opened Common
  import opened States
  import opened Timeline
  import opened EventLog
  import opened LogTargets
  import opened AlertReplay
  import opened AlertDesk
  import opened AlertRuns
  import opened StoredRows
  import LogRuns

  // ---------------------------------------------------------------------------------------
  // What an evaluation has before it

  /** The publication offers a known status, or the series a value, of exactly this day. */
  predicate Usable(c: Condition, s: LogRuns.Stream, current: bool, input: ValueInput, day: Date) {
    match c
    case StateCondition(t, _) =>
      current && t in s.log.current && s.log.current[t].day == day && s.log.current[t].fact.status != Unknown
    case ValueCondition(_, _, dividend) =>
      input.latest.Some? && input.latest.value.0 == day && (dividend || current)
  }

  /** The condition holds today: an ACTIVE row, in edge mode one with a proven transition, or a value
      beyond the threshold. */
  predicate Holds(c: Condition, s: LogRuns.Stream, input: ValueInput)
    requires c.StateCondition? ==> c.target in s.log.current
    requires c.ValueCondition? ==> input.latest.Some?
  {
    match c
    case StateCondition(t, edgeMode) =>
      s.log.current[t].fact.status == Active && (edgeMode ==> s.log.current[t].transition)
    case ValueCondition(_, comparison, _) => Beyond(comparison, input.latest.value.1)
  }

  predicate Beyond(c: Comparison, x: real) {
    || (x > c.threshold && (c.operator == Greater || c.operator == GreaterOrEqual))
    || (x < c.threshold && (c.operator == Less || c.operator == LessOrEqual))
    || (x == c.threshold && (c.operator == Equal || c.operator == GreaterOrEqual || c.operator == LessOrEqual))
  }

  lemma {:induction false} MatchesIsBeyond(c: Comparison, x: real)
    ensures Matches(c, x) <==> Beyond(c, x)
  {
  }

  function LevelOf(holds: bool): Trigger { if holds then ACTIVE else RESET }

  // ---------------------------------------------------------------------------------------
  // Without a range to catch up

  /** The first evaluation of a rule version, or any later one of a dividend rule, notifies exactly when the
      condition holds and did not hold before. */
  lemma {:induction false} FirstEvaluationIsExact(
    desk: Desk, s: LogRuns.Stream, day: Date, current: bool, input: ValueInput)
    requires Tidy(desk) && desk.rule.enabled && Usable(desk.rule.condition, s, current, input, day)
    requires || EvaluatedOf(desk).None?
             || (EvaluatedOf(desk).value < day && desk.rule.condition.ValueCondition? && desk.rule.condition.dividend)
    ensures var next, r := RunRule(desk, s, day, current, input), desk.rule;
            var holds := Holds(r.condition, s, input);
            var fires := holds && (desk.instance.Some? ==> desk.instance.value.status == RESET);
            && next.notices == desk.notices
                 + (if fires then [Notice(r.sequence + 1, r.version, r.stream, r.condition, day, None)] else [])
            && next.rule == r.(sequence := if fires then r.sequence + 1 else r.sequence)
            && next.instance.Some? && next.instance.value.status == LevelOf(holds)
            && next.instance.value.evaluated == Some(day) && next.instance.value.version == r.version
            && (r.condition.StateCondition? ==> next.instance.value.consumed == s.log.sequence)
  {
    hide CatchUp, Matches;
    if desk.rule.condition.ValueCondition? {
      MatchesIsBeyond(desk.rule.condition.comparison, input.latest.value.1);
    }
  }

  /** A corrected observation of the evaluated day moves the remembered status and notifies nothing; one of
      an earlier day changes nothing. */
  lemma {:induction false} CorrectionIsSilent(
    desk: Desk, s: LogRuns.Stream, day: Date, current: bool, input: ValueInput)
    requires Tidy(desk) && desk.rule.enabled && Usable(desk.rule.condition, s, current, input, day)
    requires EvaluatedOf(desk).Some? && day <= EvaluatedOf(desk).value
    ensures RunRule(desk, s, day, current, input)
         == if day < EvaluatedOf(desk).value then desk
            else desk.(instance := Some(desk.instance.value.(status := LevelOf(Holds(desk.rule.condition, s, input)))))
  {
    hide CatchUp, Matches;
    if desk.rule.condition.ValueCondition? {
      MatchesIsBeyond(desk.rule.condition.comparison, input.latest.value.1);
    }
  }

  /** A day without a usable observation changes nothing unless it is the published day; then it is consumed
      without a notice and without forgetting the status. */
  lemma {:induction false} UnusableDayIsQuiet(
    desk: Desk, s: LogRuns.Stream, day: Date, current: bool, input: ValueInput)
    requires Tidy(desk) && desk.rule.enabled && !Usable(desk.rule.condition, s, current, input, day)
    requires EvaluatedOf(desk).Some? ==> day <= EvaluatedOf(desk).value
    ensures var next, past := RunRule(desk, s, day, current,
                                      input), EvaluatedOf(desk).Some? && day < EvaluatedOf(desk).value;
            && next.notices == desk.notices && next.rule == desk.rule
            && (!current || s.stateThrough != Some(day) || past ==> next == desk)
            && (current && s.stateThrough == Some(day) && !past ==>
                  && EvaluatedOf(next) == Some(day) && next.instance.value.consumed == s.log.sequence
                  && next.instance.value.version == desk.rule.version
                  && next.instance.value.status == if desk.instance.Some? then desk.instance.value.status else RESET)
  {
    hide CatchUp, Matches;
  }

  lemma {:induction false} DisabledRulesRest(desk: Desk, s: LogRuns.Stream, day: Date, current: bool, input: ValueInput)
    requires !desk.rule.enabled
    ensures RunRule(desk, s, day, current, input) == desk
  {
    hide MissDay, ObserveDay, Resolve;
  }

  // ---------------------------------------------------------------------------------------
  // Catching up a value rule

  /** An evaluation appends notices of the rule, numbered on without a gap, in ascending days. */
  ghost predicate Appends(desk: Desk, next: Desk) {
    && |desk.notices| <= |next.notices| && next.notices[..|desk.notices|] == desk.notices
    && next.rule == desk.rule.(sequence := desk.rule.sequence + |next.notices| - |desk.notices|)
    && (forall k :: |desk.notices| <= k < |next.notices| ==> IsNotice(desk, next.notices[k], k - |desk.notices|))
    && (forall j, k :: |desk.notices| <= j < k < |next.notices| ==> next.notices[j].day < next.notices[k].day)
  }

  predicate IsNotice(desk: Desk, n: Notice, k: nat) {
    && n.sequence == desk.rule.sequence + 1 + k && n.version == desk.rule.version
    && n.stream == desk.rule.stream && n.condition == desk.rule.condition
  }

  /** One of the appended notices is of a day. */
  ghost predicate Notifies(desk: Desk, next: Desk, day: Date) {
    exists k :: |desk.notices| <= k < |next.notices| && next.notices[k].day == day
  }

  lemma {:induction false} AppendsNotices(desk: Desk, next: Desk, alerts: seq<Alert>)
    requires next.notices == desk.notices + NoticesFor(desk.rule, alerts) && StrictDays(alerts)
    requires next.rule == desk.rule.(sequence := desk.rule.sequence + |alerts|)
    ensures Appends(desk, next)
    ensures forall day :: Notifies(desk, next, day) <==> exists a :: a in alerts && a.day == day
  {
    hide *;
    NoticesAppend(desk, next, alerts);
    forall day ensures Notifies(desk, next, day) <==> exists a :: a in alerts && a.day == day {
      NotifiesDay(desk, next, alerts, day);
    }
  }

  lemma {:induction false} NotifiesDay(desk: Desk, next: Desk, alerts: seq<Alert>, day: Date)
    requires |next.notices| == |desk.notices| + |alerts|
    requires forall k :: |desk.notices| <= k < |next.notices| ==> next.notices[k].day == alerts[k - |desk.notices|].day
    ensures Notifies(desk, next, day) <==> exists a :: a in alerts && a.day == day
  {
    var n := |desk.notices|;
    if a :| a in alerts && a.day == day {
      var j :| 0 <= j < |alerts| && alerts[j] == a;
      assert next.notices[n + j].day == day;
    }
    if k :| n <= k < |next.notices| && next.notices[k].day == day {
      var a := alerts[k - n];
      assert a in alerts && a.day == day;
    }
  }

  lemma {:induction false} NoticesAppend(desk: Desk, next: Desk, alerts: seq<Alert>)
    requires next.notices == desk.notices + NoticesFor(desk.rule, alerts) && StrictDays(alerts)
    requires next.rule == desk.rule.(sequence := desk.rule.sequence + |alerts|)
    ensures Appends(desk, next) && |next.notices| == |desk.notices| + |alerts|
    ensures forall k :: |desk.notices| <= k < |next.notices| ==>
              next.notices[k].day == alerts[k - |desk.notices|].day
  {
    hide StrictDays, Appends;
    var n := |desk.notices|;
    forall k | n <= k < |next.notices|
      ensures next.notices[k].day == alerts[k - n].day && IsNotice(desk, next.notices[k], k - n)
    {
      assert next.notices[k] == NoticesFor(desk.rule, alerts)[k - n];
    }
    assert next.notices[..n] == desk.notices;
    AppendsFrom(desk, next, alerts);
  }

  lemma {:induction false} AppendsFrom(desk: Desk, next: Desk, alerts: seq<Alert>)
    requires |next.notices| == |desk.notices| + |alerts| && next.notices[..|desk.notices|] == desk.notices
    requires next.rule == desk.rule.(sequence := desk.rule.sequence + |alerts|) && StrictDays(alerts)
    requires forall k :: |desk.notices| <= k < |next.notices| ==>
               && next.notices[k].day == alerts[k - |desk.notices|].day
               && IsNotice(desk, next.notices[k], k - |desk.notices|)
    ensures Appends(desk, next)
  {
    hide IsNotice;
  }

  /** A row that no publication restated: one without provenance, or dated past what its publication restated. */
  predicate Unrestated(row: ValueRow) {
    row.provenance.Unmarked? || (row.provenance.RestatedThrough? && row.provenance.day < row.day)
  }

  /** A rising edge of a day among the rows, not restated. */
  ghost predicate EdgeOn(c: Comparison, rows: seq<ValueRow>, status: Trigger, day: Date) {
    exists i :: 0 <= i < |rows| && rows[i].day == day && RisingEdge(c, rows, status, i) && Unrestated(rows[i])
  }

  lemma {:induction false} AlertDays(c: Comparison, rows: seq<ValueRow>, status: Trigger, day: Date)
    ensures (exists a :: a in ValueReplay(c, rows, status).alerts && a.day == day) <==> EdgeOn(c, rows, status, day)
  {
    hide ValueReplay, RisingEdge;
    var alerts := ValueReplay(c, rows, status).alerts;
    if a :| a in alerts && a.day == day {
      AlertsAreRisingEdges(c, rows, status, a);
      var i :| 0 <= i < |rows| && EdgeAlert(c, rows, status, i, a);
    }
    if i :| 0 <= i < |rows| && rows[i].day == day && RisingEdge(c, rows, status, i) && Unrestated(rows[i]) {
      var a := Alert(rows[i].day, rows[i].value, None);
      assert EdgeAlert(c, rows, status, i, a);
      AlertsAreRisingEdges(c, rows, status, a);
    }
  }

  /** For a day past the evaluated one the evaluation of a value rule is a catch-up. */
  lemma {:induction false} CaughtUpValues(
    desk: Desk, s: LogRuns.Stream, day: Date, input: ValueInput) returns (observation: Option<bool>)
    requires Tidy(desk) && desk.rule.enabled && desk.rule.condition.ValueCondition? && !desk.rule.condition.dividend
    requires EvaluatedOf(desk).Some? && EvaluatedOf(desk).value < day
    requires s.stateThrough == Some(day) || (input.latest.Some? && input.latest.value.0 == day)
    ensures RunRule(desk, s, day, true, input)
         == match CatchUp(desk, s, day, observation, input.rows)
            case Caught(next) => next
            case TooLarge => desk
            case NotPublished => RunRule(desk, s, day, true, input)
  {
    hide ValueReplay, Window, EnqueueAll, Matches;
    var r := Resolve(desk.rule.condition, s, true, input);
    observation := if r.None? || r.value.day != day then None else Some(r.value.satisfied);
    hide CatchUp;
  }

  lemma {:induction false} CaughtValues(
    desk: Desk, s: LogRuns.Stream, day: Date, observation: Option<bool>, rows: seq<ValueRow>)
    requires Tidy(desk) && desk.rule.condition.ValueCondition? && EvaluatedOf(desk).Some?
    ensures var window := Window(rows, EvaluatedOf(desk).value, day);
            var replay := ValueReplay(desk.rule.condition.comparison, window, desk.instance.value.status);
            var r := CatchUp(desk, s, day, observation, rows);
            if |window| > MAX_CATCHUP_ROWS then r == TooLarge
            else
              && r.Caught? && r.desk.notices == desk.notices + NoticesFor(desk.rule, replay.alerts)
              && r.desk.rule == desk.rule.(sequence := desk.rule.sequence + |replay.alerts|)
              && r.desk.instance.Some? && r.desk.instance.value.status == replay.status
              && r.desk.instance.value.evaluated == Some(day)
              && r.desk.instance.value.consumed == desk.instance.value.consumed
  {
    hide ValueReplay, Window, EnqueueAll;
    var window := Window(rows, EvaluatedOf(desk).value, day);
    EnqueueAllShape(desk, ValueReplay(desk.rule.condition.comparison, window, desk.instance.value.status).alerts);
  }

  /** In every reachable state, the scheduled evaluation of an enabled value rule for a day past its last
      evaluated one that has a value or is the published day: when the range is not too long it notifies, in
      order, exactly the rising edges among the rows of the range that are not restated, remembers the level
      at the last valued row and moves to the day; when it is too long nothing changes. */
  lemma {:induction false} ScheduledValuesAreExact(
    o: Office, stream: StreamId, condition: Condition, enabled: bool, steps: seq<Step>, day: Date, input: ValueInput)
    requires Reachable(o, stream, condition, enabled, steps) && o.desk.rule.enabled && AscendingRows(input.rows)
    requires o.desk.rule.condition.ValueCondition? && !o.desk.rule.condition.dividend
    requires EvaluatedOf(o.desk).Some? && EvaluatedOf(o.desk).value < day
    requires || StreamAt(o.streams, o.desk.rule.stream).stateThrough == Some(day)
             || (input.latest.Some? && input.latest.value.0 == day)
    ensures var desk, i, c := o.desk, o.desk.instance.value, o.desk.rule.condition.comparison;
            var next := RunRule(desk, StreamAt(o.streams, desk.rule.stream), day, true, input);
            var rows := Window(input.rows, i.evaluated.value, day);
            if |rows| > MAX_CATCHUP_ROWS then next == desk
            else
              && Appends(desk, next)
              && (forall d :: Notifies(desk, next, d) <==> EdgeOn(c, rows, i.status, d))
              && next.instance.Some? && next.instance.value.evaluated == Some(day)
              && (next.instance.value.status == RESET <==> LowBefore(c, rows, i.status, |rows|))
              && next.instance.value.consumed == i.consumed
  {
    ReachableIsGood(o, stream, condition, enabled, steps);
    GoodParts(o);
    hide Reachable, Good, LogTargets.Ready, CursorSound, ValueReplay, Window, RunRule, CatchUp, AscendingRows, Appends,
         Notifies, EdgeOn, LowBefore, StrictDays, Tidy;
    var desk, s := o.desk, StreamAt(o.streams, o.desk.rule.stream);
    var i, c := desk.instance.value, desk.rule.condition.comparison;
    var rows := Window(input.rows, i.evaluated.value, day);
    var observation := CaughtUpValues(desk, s, day, input);
    CaughtValues(desk, s, day, observation, input.rows);
    if |rows| <= MAX_CATCHUP_ROWS {
      var next, replay := RunRule(desk, s, day, true, input), ValueReplay(c, rows, i.status);
      WindowAscends(input.rows, i.evaluated.value, day);
      ValueAlertDays(c, rows, i.status, i.evaluated.value, day);
      AppendsNotices(desk, next, replay.alerts);
      forall d ensures Notifies(desk, next, d) <==> EdgeOn(c, rows, i.status, d) {
        AlertDays(c, rows, i.status, d);
      }
      StatusIsLevel(c, rows, i.status);
    }
  }

  // ---------------------------------------------------------------------------------------
  // Catching up a state rule

  /** What an event of known status says of the condition. */
  predicate EventHolds(edgeMode: bool, e: Event) {
    if edgeMode then e.change.kind == Enter && !e.restated else e.change.fact.status == Active
  }

  predicate KnownAt(events: seq<Event>, k: int) {
    0 <= k < |events| && events[k].change.fact.status != Unknown
  }

  /** The event at `k` is the last one of known status. */
  ghost predicate LastKnown(events: seq<Event>, k: int) {
    KnownAt(events, k) && forall j :: k < j < |events| ==> events[j].change.fact.status == Unknown
  }

  /** The last event of known status does not hold; without one the status was RESET. */
  ghost predicate LowAfter(edgeMode: bool, events: seq<Event>, status: Trigger) {
    if exists k :: KnownAt(events, k) then exists k :: LastKnown(events, k) && !EventHolds(edgeMode, events[k])
    else status == RESET
  }

  lemma {:induction false} StateStatusIsLevel(edgeMode: bool, events: seq<Event>, status: Trigger)
    ensures StateReplay(edgeMode, events, status).status == RESET <==> LowAfter(edgeMode, events, status)
  {
    if events != [] {
      var init, e := events[..|events| - 1], events[|events| - 1];
      StateStatusIsLevel(edgeMode, init, status);
      LowStep(edgeMode, events, status);
      hide LowAfter;
    }
  }

  lemma {:induction false} LowStep(edgeMode: bool, events: seq<Event>, status: Trigger)
    requires events != []
    ensures var init, e := events[..|events| - 1], events[|events| - 1];
            LowAfter(edgeMode, events, status) <==>
            if e.change.fact.status != Unknown then !EventHolds(edgeMode, e) else LowAfter(edgeMode, init, status)
  {
    hide EventHolds;
    var init, n := events[..|events| - 1], |events| - 1;
    forall k: int
      ensures k != n ==> (KnownAt(events, k) <==> KnownAt(init, k))
      ensures events[n].change.fact.status == Unknown && k != n ==> (LastKnown(events, k) <==> LastKnown(init, k))
      ensures events[n].change.fact.status != Unknown ==> (LastKnown(events, k) <==> k == n)
      ensures KnownAt(events, n) <==> events[n].change.fact.status != Unknown
      ensures k != n && 0 <= k < n ==> init[k] == events[k]
    {
      KnownStep(events, k);
    }
    hide KnownAt, LastKnown;
  }

  lemma {:induction false} KnownStep(events: seq<Event>, k: int)
    requires events != []
    ensures var init, n := events[..|events| - 1], |events| - 1;
            && (k != n ==> (KnownAt(events, k) <==> KnownAt(init, k)))
            && (events[n].change.fact.status == Unknown && k != n ==> (LastKnown(events, k) <==> LastKnown(init, k)))
            && (events[n].change.fact.status != Unknown ==> (LastKnown(events, k) <==> k == n))
  {
    var init, n := events[..|events| - 1], |events| - 1;
    assert forall j :: 0 <= j < n ==> init[j] == events[j];
    if 0 <= k < n && LastKnown(events, k) {
      assert events[n].change.fact.status == Unknown;
    }
  }

  lemma {:induction false} CaughtState(
    desk: Desk, s: LogRuns.Stream, day: Date, observation: Option<bool>, rows: seq<ValueRow>)
    requires Tidy(desk) && desk.rule.condition.StateCondition? && EvaluatedOf(desk).Some? && s.stateThrough.Some?
    ensures var i, c := desk.instance.value, desk.rule.condition;
            var pending := Pending(s.log.events, c.target, i.evaluated.value, day, i.consumed);
            var r := CatchUp(desk, s, day, observation, rows);
            if |pending| > MAX_CATCHUP_ROWS then r == TooLarge
            else r.Caught? && r.desk.instance.Some? && r.desk.instance.value.status
                 == if observation.Some? then LevelOf(observation.value)
                    else StateReplay(c.edgeMode, pending, i.status).status
  {
    hide StateReplay, Pending, EnqueueAll;
  }

  /** In every reachable state, the scheduled evaluation of an enabled state rule for a published day past
      its last evaluated one remembers whether the condition holds that day; on a day without a known status,
      whether it held at the last replayed event of known status. A range that is too long changes nothing. */
  lemma {:induction false} ScheduledStatusIsLevel(
    o: Office, stream: StreamId, condition: Condition, enabled: bool, steps: seq<Step>, day: Date, input: ValueInput)
    requires Reachable(o, stream, condition, enabled, steps) && o.desk.rule.enabled
    requires o.desk.rule.condition.StateCondition? && EvaluatedOf(o.desk).Some? && EvaluatedOf(o.desk).value < day
    requires StreamAt(o.streams, o.desk.rule.stream).stateThrough == Some(day)
    ensures var desk, i, c := o.desk, o.desk.instance.value, o.desk.rule.condition;
            var s := StreamAt(o.streams, desk.rule.stream);
            var next := RunRule(desk, s, day, true, input);
            var pending := Pending(s.log.events, c.target, i.evaluated.value, day, i.consumed);
            if |pending| > MAX_CATCHUP_ROWS then next == desk
            else
              && next.instance.Some?
              && (next.instance.value.status == RESET <==>
                    if Usable(c, s, true, input, day) then !Holds(c, s, input)
                    else LowAfter(c.edgeMode, pending, i.status))
  {
    hide Reachable, Good, LogTargets.Ready, CursorSound, StateReplay, Pending, LowAfter, EnqueueAll, CatchUp;
    ReachableIsGood(o, stream, condition, enabled, steps);
    GoodParts(o);
    var desk, c := o.desk, o.desk.rule.condition;
    var s := StreamAt(o.streams, desk.rule.stream);
    var r := Resolve(c, s, true, input);
    var observation := if r.None? || r.value.day != day then None else Some(r.value.satisfied);
    CaughtState(desk, s, day, observation, input.rows);
    var i := desk.instance.value;
    StateStatusIsLevel(c.edgeMode, Pending(s.log.events, c.target, i.evaluated.value, day, i.consumed), i.status);
  }

  // ---------------------------------------------------------------------------------------
  // From a publication to its notice

  lemma {:induction false} OneMoreStep(
    o: Office, stream: StreamId, condition: Condition, enabled: bool, steps: seq<Step>, step: Step)
    requires Reachable(o, stream, condition, enabled, steps) && Allowed(step)
    ensures Reachable(Next(o, step), stream, condition, enabled, steps + [step])
  {
    hide Allowed, Next;
    assert (steps + [step])[..|steps|] == steps;
  }

  /** In every reachable state: when a publication of `day` holds an ENTER change of a rule's target dated
      past every current row before it and past the rule's evaluated day, the rule's scheduled evaluation of
      that day notifies it, unless the range is too long. */
  lemma {:induction false} LateEnterIsNotified(
    o: Office, stream: StreamId, condition: Condition, enabled: bool, steps: seq<Step>,
    batch: LogRuns.Batch, c: Change, input: ValueInput)
    requires Reachable(o, stream, condition, enabled, steps) && o.desk.rule.enabled
    requires LogRuns.Proper(batch) && Reaches(batch)
    requires o.desk.rule.condition.StateCondition? && EvaluatedOf(o.desk).Some?
    requires var s := StreamAt(o.streams, o.desk.rule.stream);
             && EventLog.Publish(s.log, batch.obs, batch.start, batch.through, batch.revision).Accepted?
             && (s.stateThrough.Some? ==> s.stateThrough.value <= batch.through)
             && PastEveryRow(s.log.current, c.day)
    requires var s := LogRuns.Materialize(StreamAt(o.streams, o.desk.rule.stream), batch);
             && c in ValidChanges(s.log.events) && c.kind == Enter && c.target == o.desk.rule.condition.target
             && EvaluatedOf(o.desk).value < c.day <= batch.through
             && |Pending(s.log.events, c.target, EvaluatedOf(o.desk).value, batch.through,
                         o.desk.instance.value.consumed)| <= MAX_CATCHUP_ROWS
    ensures var s := LogRuns.Materialize(StreamAt(o.streams, o.desk.rule.stream), batch);
            Notifies(o.desk, RunRule(o.desk, s, batch.through, true, input), c.day)
  {
    hide Reachable, LogRuns.Proper, Reaches, EventLog.Publish, ValidChanges, Pending, RunRule, PastEveryRow,
         EntersAfter;
    var id := o.desk.rule.stream;
    var was, step := StreamAt(o.streams, id), AlertDesk.Publish(id, batch);
    var s, next := LogRuns.Materialize(was, batch), Next(o, step);
    OneMoreStep(o, stream, condition, enabled, steps, step);
    assert next.desk == o.desk && StreamAt(next.streams, id) == s;
    assert s.stateThrough == Some(batch.through);
    StreamIsWell(o, stream, condition, enabled, steps);
    ScheduledDayIsExact(next, stream, condition, enabled, steps + [step], batch.through, input);
    EnterIsAnnounced(was.log, batch.obs, batch.start, batch.through, batch.revision, c, EvaluatedOf(o.desk).value);
    var enters := EntersAfter(s.log.events, c.target, EvaluatedOf(o.desk).value);
    var a :| a in enters && a.day == c.day;
    NoticeOfAlert(o.desk, RunRule(o.desk, s, batch.through, true, input), enters, a);
  }

  lemma {:induction false} StreamIsWell(
    o: Office, stream: StreamId, condition: Condition, enabled: bool, steps: seq<Step>)
    requires Reachable(o, stream, condition, enabled, steps)
    ensures WellFormed(StreamAt(o.streams, o.desk.rule.stream).log)
  {
    ReachableIsGood(o, stream, condition, enabled, steps);
    GoodParts(o);
    hide Reachable, Good, WellFormed;
  }

  lemma {:induction false} NoticeOfAlert(desk: Desk, next: Desk, alerts: seq<Alert>, a: Alert)
    requires next.notices == desk.notices + NoticesFor(desk.rule, alerts) && a in alerts
    ensures Notifies(desk, next, a.day)
  {
    var j :| 0 <= j < |alerts| && alerts[j] == a;
    assert next.notices[|desk.notices| + j].day == a.day;
  }

  // ---------------------------------------------------------------------------------------
  // Edits

  /** In every reachable state: after an edit that changes anything the rule watches and leaves it enabled,
      the next evaluation of a day on which the new condition holds notifies it once, under a new version,
      whatever the rule had evaluated before. */
  lemma {:induction false} EditedRuleFiresAgain(
    o: Office, stream: StreamId, condition: Condition, enabled: bool, steps: seq<Step>,
    newStream: StreamId, newCondition: Condition, day: Date, current: bool, input: ValueInput)
    requires Reachable(o, stream, condition, enabled, steps)
    requires newStream != o.desk.rule.stream || newCondition != o.desk.rule.condition || !o.desk.rule.enabled
    requires var s := StreamAt(o.streams, newStream);
             Usable(newCondition, s, current, input, day) && Holds(newCondition, s, input)
    ensures var next := Next(Next(o, Edit(newStream, newCondition, true)), Schedule(day, current, input)).desk;
            var r := o.desk.rule;
            && next.notices
               == o.desk.notices + [Notice(r.sequence + 1, r.version + 1, newStream, newCondition, day, None)]
            && EvaluatedOf(next) == Some(day) && next.instance.value.status == ACTIVE
  {
    hide Reachable, Good, LogTargets.Ready, CursorSound, RunRule, Usable, Holds;
    var step := Edit(newStream, newCondition, true);
    OneMoreStep(o, stream, condition, enabled, steps, step);
    ReachableIsGood(Next(o, step), stream, condition, enabled, steps + [step]);
    GoodParts(Next(o, step));
    FirstEvaluationIsExact(Next(o, step).desk, StreamAt(o.streams, newStream), day, current, input);
  }

  /** An edit that changes nothing the rule watches changes nothing at all. */
  lemma {:induction false} IdleEditChangesNothing(o: Office)
    ensures Next(o, Edit(o.desk.rule.stream, o.desk.rule.condition, o.desk.rule.enabled)) == o
  {
  }
}
