/** What holds of an alert rule over every run of publications, evaluations and edits. */
module AlertRuns {
  import opened Common
  import opened States
  import opened EventLog
  import opened LogTargets
  import opened AlertReplay
  import opened AlertDesk
  import LogRuns

  // ---------------------------------------------------------------------------------------
  // The shape of one evaluation

  ghost predicate Tidy(desk: Desk) {
    desk.instance.Some? ==>
      desk.instance.value.version == desk.rule.version && desk.instance.value.sequence <= desk.rule.sequence
  }

  function EvaluatedOf(desk: Desk): Option<Date> {
    if desk.instance.Some? then desk.instance.value.evaluated else None
  }

  function NoticesFor(r: Rule, alerts: seq<Alert>): (n: seq<Notice>)
    ensures |n| == |alerts|
  {
    seq(|alerts|, k requires 0 <= k < |alerts| =>
      Notice(r.sequence + 1 + k, r.version, r.stream, r.condition, alerts[k].day, alerts[k].event))
  }

  lemma {:induction false} EnqueueAllShape(desk: Desk, alerts: seq<Alert>)
    requires desk.instance.Some? && desk.instance.value.sequence <= desk.rule.sequence
    ensures var r := EnqueueAll(desk, alerts);
            && r.notices == desk.notices + NoticesFor(desk.rule, alerts)
            && r.rule == desk.rule.(sequence := desk.rule.sequence + |alerts|)
            && r.instance.value.sequence <= r.rule.sequence
            && r.instance.value == desk.instance.value.(sequence := r.instance.value.sequence)
  {
    if alerts != [] {
      var init := alerts[..|alerts| - 1];
      EnqueueAllShape(desk, init);
      var n := NoticesFor(desk.rule, alerts);
      assert n == NoticesFor(desk.rule, init) + [n[|n| - 1]];
    }
  }

  /** An evaluation that only changes the remembered status. */
  ghost predicate StatusOnly(desk: Desk, next: Desk) {
    || next == desk
    || (desk.instance.Some? && next.instance.Some?
        && next == desk.(instance := Some(desk.instance.value.(status := next.instance.value.status))))
  }

  /** An evaluation that enqueues `alerts` and moves the evaluated day to `day`. */
  ghost predicate Moved(desk: Desk, next: Desk, alerts: seq<Alert>, day: Date) {
    && next.rule == desk.rule.(sequence := desk.rule.sequence + |alerts|)
    && next.notices == desk.notices + NoticesFor(desk.rule, alerts)
    && next.instance.Some? && next.instance.value.version == desk.rule.version
    && next.instance.value.sequence <= next.rule.sequence
    && next.instance.value.evaluated == Some(day)
  }

  /** The alerts lie in order after the last evaluated day, up to `day`. */
  ghost predicate Ahead(desk: Desk, alerts: seq<Alert>, day: Date) {
    && StrictDays(alerts)
    && (forall a :: a in alerts ==> a.day <= day)
    && (EvaluatedOf(desk).Some? ==>
          EvaluatedOf(desk).value <= day && forall a :: a in alerts ==> EvaluatedOf(desk).value < a.day)
  }

  /** What holds in addition of a state rule: everything of the target up to `day` is consumed. */
  ghost predicate Consumes(desk: Desk, next: Desk, stream: LogRuns.Stream, t: Target, alerts: seq<Alert>, day: Date) {
    && next.instance.Some? && next.instance.value.consumed == stream.log.sequence
    && stream.stateThrough.Some?
    && (stream.stateThrough.value == day || (t in stream.log.current && stream.log.current[t].day == day))
    && (forall a :: a in alerts ==>
          && a.day <= stream.stateThrough.value
          && (t in stream.log.current ==> a.day <= stream.log.current[t].day))
    && (forall a :: a in alerts && a.event.Some? ==>
          EvaluatedOf(desk).Some? && exists e :: e in stream.log.events && Triggers(e, t, a))
  }

  predicate Triggers(e: Event, t: Target, a: Alert) {
    e.change.target == t && e.change.day == a.day && a.event == Some(e.number)
  }

  ghost predicate Advances(desk: Desk, next: Desk, stream: LogRuns.Stream, alerts: seq<Alert>, day: Date) {
    && Moved(desk, next, alerts, day) && Ahead(desk, alerts, day)
    && (desk.rule.condition.StateCondition? ==> Consumes(desk, next, stream, desk.rule.condition.target, alerts, day))
    && (desk.rule.condition.ValueCondition? ==> forall a :: a in alerts ==> a.event.None?)
  }

  /** The cursor of a state rule hides nothing: what it has passed is dated at or before the evaluated day. */
  ghost predicate CursorSound(desk: Desk, stream: LogRuns.Stream) {
    desk.rule.condition.StateCondition? && EvaluatedOf(desk).Some? ==>
      && desk.instance.value.consumed <= stream.log.sequence
      && forall e :: e in stream.log.events && Passed(e, desk.rule.condition.target, desk.instance.value.consumed) ==>
           e.change.day <= EvaluatedOf(desk).value
  }

  predicate Passed(e: Event, t: Target, consumed: nat) {
    e.valid && e.change.target == t && e.number <= consumed
  }

  // ---------------------------------------------------------------------------------------
  // Valid events of one target

  lemma {:induction false} EventsBounded(stream: LogRuns.Stream, e: Event)
    requires Ready(stream) && e in stream.log.events && e.valid
    ensures var t := e.change.target;
            && t in stream.log.current && e.change.day <= stream.log.current[t].day
            && stream.stateThrough.Some? && stream.log.current[t].day <= stream.stateThrough.value
  {
    hide ValidChanges;
    ValidIn(stream.log.events, e);
  }

  lemma {:induction false} EntersStrict(events: seq<Event>, t: Target, after: Date)
    requires LogRuns.AnnouncedOnce(events) && InOrder(ValidChanges(events))
    ensures StrictDays(EntersAfter(events, t, after))
  {
    if events != [] {
      var init, e := events[..|events| - 1], events[|events| - 1];
      var alerts := EntersAfter(init, t, after);
      var tail := if e.valid then [e.change] else [];
      assert ValidChanges(events) == ValidChanges(init) + tail;
      assert LogRuns.AnnouncedOnce(init);
      assert InOrder(ValidChanges(init)) by {
        var v, all := ValidChanges(init), ValidChanges(events);
        assert forall i :: 0 <= i < |v| ==> all[i] == v[i];
      }
      EntersStrict(init, t, after);
      if e.valid && e.change.target == t && after < e.change.day && IsLiveEnter(e) {
        forall i | 0 <= i < |alerts| ensures alerts[i].day < e.change.day {
          EnterBefore(events, t, after, alerts[i]);
        }
      }
      hide *;
      StrictGrows(alerts, EntersAfter(events, t, after));
    }
  }

  lemma {:induction false} StrictGrows(a: seq<Alert>, b: seq<Alert>)
    requires StrictDays(a)
    requires b == a || (|b| == |a| + 1 && b[..|a|] == a && forall i :: 0 <= i < |a| ==> a[i].day < b[|a|].day)
    ensures StrictDays(b)
  {
    assert forall i :: 0 <= i < |a| && |b| >= |a| ==> b[i] == b[..|a|][i];
  }

  lemma {:induction false} EnterBefore(events: seq<Event>, t: Target, after: Date, a: Alert)
    requires events != [] && LogRuns.AnnouncedOnce(events) && InOrder(ValidChanges(events))
    requires var e := events[|events| - 1]; e.valid && e.change.target == t && IsLiveEnter(e)
    requires a in EntersAfter(events[..|events| - 1], t, after)
    ensures a.day < events[|events| - 1].change.day
  {
    var init, e := events[..|events| - 1], events[|events| - 1];
    EntersAfterMembers(init, t, after, a);
    var x :| x in init && x.valid && x.change.target == t && after < x.change.day && IsLiveEnter(x) && a == AlertOf(x);
    var i :| 0 <= i < |init| && init[i] == x;
    assert events[i] == x && events[|events| - 1] == e;
    ValidIn(init, x);
    var v := ValidChanges(init);
    assert ValidChanges(events) == v + [e.change];
    var k :| 0 <= k < |v| && v[k] == x.change;
    var all := ValidChanges(events);
    assert all[k] == x.change && all[|v|] == e.change;
    assert ChangeNotAfter(all[k], all[|v|]);
  }

  // ---------------------------------------------------------------------------------------
  // Every evaluation keeps the shape

  /** Where a state rule's evaluated day may come from. */
  ghost predicate Anchored(c: Condition, stream: LogRuns.Stream, day: Date) {
    c.StateCondition? ==>
      stream.stateThrough == Some(day) || (c.target in stream.log.current && stream.log.current[c.target].day == day)
  }

  lemma {:induction false} AnchoredIsPublished(c: Condition, stream: LogRuns.Stream, day: Date)
    requires Ready(stream) && c.StateCondition? && Anchored(c, stream, day)
    ensures stream.stateThrough.Some? && day <= stream.stateThrough.value
    ensures forall e :: e in stream.log.events && e.valid && e.change.target == c.target ==> e.change.day <= day
    ensures c.target in stream.log.current ==> stream.log.current[c.target].day <= stream.stateThrough.value
  {
    hide ValidChanges, WellFormed;
    forall e | e in stream.log.events && e.valid && e.change.target == c.target ensures e.change.day <= day {
      EventsBounded(stream, e);
    }
  }

  lemma {:induction false} DirectAdvances(desk: Desk, stream: LogRuns.Stream, o: Observed)
    requires Tidy(desk) && Ready(stream) && (EvaluatedOf(desk).Some? ==> EvaluatedOf(desk).value <= o.day)
    requires desk.rule.condition.StateCondition? ==>
      desk.rule.condition.target in stream.log.current && stream.log.current[desk.rule.condition.target].day == o.day
    ensures var next := Direct(desk, stream, o);
            StatusOnly(desk, next) || exists alerts :: Advances(desk, next, stream, alerts, o.day)
  {
    var next := Direct(desk, stream, o);
    if EvaluatedOf(desk) != Some(o.day) {
      if desk.rule.condition.StateCondition? {
        AnchoredIsPublished(desk.rule.condition, stream, o.day);
      }
      hide Ready;
      var e := AlertReplay.Evaluate(o.satisfied, if desk.instance.Some? then desk.instance.value.status else RESET);
      var alerts := if e.triggered then [Alert(o.day, o.value, None)] else [];
      assert next.notices == desk.notices + NoticesFor(desk.rule, alerts);
      assert Advances(desk, next, stream, alerts, o.day);
    }
  }

  /** The alerts a catch-up of a state rule enqueues: all valid live ENTER events past the evaluated day. */
  lemma {:induction false} StateCatchUp(desk: Desk, stream: LogRuns.Stream, last: Date, status: Trigger)
    requires Ready(stream) && desk.rule.condition.StateCondition? && EvaluatedOf(desk).Some?
    requires CursorSound(desk, stream)
    requires Anchored(desk.rule.condition, stream, last)
    ensures var i, c := desk.instance.value, desk.rule.condition;
            var pending := Pending(stream.log.events, c.target, i.evaluated.value, last, i.consumed);
            StateReplay(c.edgeMode, pending, status).alerts
            == EntersAfter(stream.log.events, c.target, i.evaluated.value)
  {
    var i, c := desk.instance.value, desk.rule.condition;
    AnchoredIsPublished(c, stream, last);
    assert Seen(stream.log.events, c.target, i.evaluated.value, last, i.consumed) by {
      forall e | e in stream.log.events && e.valid && e.change.target == c.target
        ensures e.change.day <= last && (e.number <= i.consumed ==> e.change.day <= i.evaluated.value)
      {
        assert e.number <= i.consumed ==> Passed(e, c.target, i.consumed);
      }
    }
    hide LogRuns.LiveBounded, TargetBounded;
    CatchUpIsExact(c.edgeMode, stream.log.events, c.target, i.evaluated.value, last, i.consumed, status);
  }

  lemma {:induction false} ReadyParts(stream: LogRuns.Stream)
    requires Ready(stream)
    ensures LogRuns.AnnouncedOnce(stream.log.events) && InOrder(ValidChanges(stream.log.events))
  {
  }

  /** Every alert of such a catch-up stems from a stored event of the target, in order. */
  lemma {:induction false} EntersAreAhead(stream: LogRuns.Stream, c: Condition, after: Date, last: Date)
    requires Ready(stream) && c.StateCondition? && Anchored(c, stream, last)
    ensures var alerts := EntersAfter(stream.log.events, c.target, after);
            && StrictDays(alerts)
            && forall a :: a in alerts ==>
                 && after < a.day <= last && stream.stateThrough.Some? && a.day <= stream.stateThrough.value
                 && (c.target in stream.log.current ==> a.day <= stream.log.current[c.target].day)
                 && a.event.Some? && exists e :: e in stream.log.events && Triggers(e, c.target, a)
  {
    AnchoredIsPublished(c, stream, last);
    ReadyParts(stream);
    hide Ready, ValidChanges, EntersAfter, StrictDays;
    EntersStrict(stream.log.events, c.target, after);
    forall a | a in EntersAfter(stream.log.events, c.target, after)
      ensures after < a.day <= last && stream.stateThrough.Some? && a.day <= stream.stateThrough.value
      ensures c.target in stream.log.current ==> a.day <= stream.log.current[c.target].day
      ensures a.event.Some? && exists e :: e in stream.log.events && Triggers(e, c.target, a)
    {
      EntersAfterMembers(stream.log.events, c.target, after, a);
      var e :| e in stream.log.events && e.valid && e.change.target == c.target && after < e.change.day
               && IsLiveEnter(e) && a == AlertOf(e);
      EventsBounded(stream, e);
      assert Triggers(e, c.target, a);
    }
  }

  lemma {:induction false} CatchUpAdvances(
    desk: Desk, stream: LogRuns.Stream, last: Date, observation: Option<bool>, rows: seq<ValueRow>)
    requires Tidy(desk) && Ready(stream) && CursorSound(desk, stream) && AscendingRows(rows)
    requires EvaluatedOf(desk).Some? && EvaluatedOf(desk).value < last && Anchored(desk.rule.condition, stream, last)
    requires CatchUp(desk, stream, last, observation, rows).Caught?
    ensures exists alerts :: Advances(desk, CatchUp(desk, stream, last, observation, rows).desk, stream, alerts, last)
  {
    if desk.rule.condition.StateCondition? {
      StateCatchUpAdvances(desk, stream, last, observation, rows);
    } else {
      ValueCatchUpAdvances(desk, stream, last, observation, rows);
    }
  }

  lemma {:induction false} CaughtMoves(desk: Desk, alerts: seq<Alert>, status: Trigger, consumed: nat, last: Date)
    requires Tidy(desk) && desk.instance.Some?
    ensures var d := EnqueueAll(desk, alerts);
            var caught := d.instance.value.(status := status, consumed := consumed, evaluated := Some(last));
            var next := d.(instance := Some(caught));
            Moved(desk, next, alerts, last) && next.instance.value.consumed == consumed
    ensures EnqueueAll(desk, alerts).instance.value.consumed == desk.instance.value.consumed
  {
    EnqueueAllShape(desk, alerts);
    hide EnqueueAll;
  }

  lemma {:induction false} StateCatchUpAdvances(
    desk: Desk, stream: LogRuns.Stream, last: Date, observation: Option<bool>, rows: seq<ValueRow>)
    requires Tidy(desk) && Ready(stream) && CursorSound(desk, stream) && desk.rule.condition.StateCondition?
    requires EvaluatedOf(desk).Some? && EvaluatedOf(desk).value < last && Anchored(desk.rule.condition, stream, last)
    requires CatchUp(desk, stream, last, observation, rows).Caught?
    ensures exists alerts :: Advances(desk, CatchUp(desk, stream, last, observation, rows).desk, stream, alerts, last)
  {
    hide Ready, EntersAfter, StateReplay, Pending, EnqueueAll, CursorSound, StrictDays, Moved, Tidy, Settled;
    var i, c := desk.instance.value, desk.rule.condition;
    var alerts := EntersAfter(stream.log.events, c.target, i.evaluated.value);
    StateCatchUp(desk, stream, last, i.status);
    var replay := StateReplay(c.edgeMode, Pending(stream.log.events, c.target, i.evaluated.value, last, i.consumed),
                              i.status);
    CaughtMoves(desk, alerts, Settled(replay.status, observation), stream.log.sequence, last);
    EntersAreAhead(stream, c, i.evaluated.value, last);
    assert Advances(desk, CatchUp(desk, stream, last, observation, rows).desk, stream, alerts, last);
  }

  lemma {:induction false} ValueCatchUpAdvances(
    desk: Desk, stream: LogRuns.Stream, last: Date, observation: Option<bool>, rows: seq<ValueRow>)
    requires Tidy(desk) && AscendingRows(rows) && desk.rule.condition.ValueCondition?
    requires EvaluatedOf(desk).Some? && EvaluatedOf(desk).value < last
    requires CatchUp(desk, stream, last, observation, rows).Caught?
    ensures exists alerts :: Advances(desk, CatchUp(desk, stream, last, observation, rows).desk, stream, alerts, last)
  {
    hide ValueReplay, Window, EnqueueAll, StrictDays, Moved, Tidy, AscendingRows;
    var i := desk.instance.value;
    var window := Window(rows, i.evaluated.value, last);
    var replay := ValueReplay(desk.rule.condition.comparison, window, i.status);
    WindowAscends(rows, i.evaluated.value, last);
    ValueAlertDays(desk.rule.condition.comparison, window, i.status, i.evaluated.value, last);
    CaughtMoves(desk, replay.alerts, replay.status, i.consumed, last);
    assert forall a :: a in replay.alerts ==> exists k :: 0 <= k < |replay.alerts| && replay.alerts[k] == a;
    assert Advances(desk, CatchUp(desk, stream, last, observation, rows).desk, stream, replay.alerts, last);
  }

  lemma {:induction false} WindowAscends(rows: seq<ValueRow>, a: Date, b: Date)
    requires AscendingRows(rows)
    ensures AscendingRows(Window(rows, a, b))
    ensures forall i :: 0 <= i < |Window(rows, a, b)| ==> a < Window(rows, a, b)[i].day <= b
  {
    var w := Window(rows, a, b);
    if rows != [] {
      var init, row := rows[..|rows| - 1], rows[|rows| - 1];
      WindowAscends(init, a, b);
      WindowStep(rows, a, b);
      var v := Window(init, a, b);
      forall i | 0 <= i < |v| ensures v[i].day < row.day {
        WindowMembers(init, a, b, v[i]);
        var k :| 0 <= k < |init| && init[k] == v[i];
        assert rows[k].day < rows[|rows| - 1].day;
      }
      hide Window;
    }
  }

  lemma {:induction false} MissAdvances(
    desk: Desk, stream: LogRuns.Stream, day: Date, current: bool, rows: seq<ValueRow>)
    requires Tidy(desk) && Ready(stream) && CursorSound(desk, stream) && AscendingRows(rows)
    ensures var next := MissDay(desk, stream, day, current, rows);
            StatusOnly(desk, next) || exists alerts :: Advances(desk, next, stream, alerts, day)
  {
    var next := MissDay(desk, stream, day, current, rows);
    if current && stream.stateThrough == Some(day) {
      var L := EvaluatedOf(desk);
      if desk.instance.Some? && L.Some? && L.value < day {
        if CatchUp(desk, stream, day, None, rows).Caught? {
          CatchUpAdvances(desk, stream, day, None, rows);
        }
      } else if L.None? || L.value <= day {
        assert NoticesFor(desk.rule, []) == [];
        assert Advances(desk, next, stream, [], day);
      }
    }
  }

  lemma {:induction false} ObserveAdvances(desk: Desk, stream: LogRuns.Stream, o: Observed, rows: seq<ValueRow>)
    requires Tidy(desk) && Ready(stream) && CursorSound(desk, stream) && AscendingRows(rows)
    requires desk.rule.condition.StateCondition? ==>
      desk.rule.condition.target in stream.log.current && stream.log.current[desk.rule.condition.target].day == o.day
    ensures var next := ObserveDay(desk, stream, o, rows);
            StatusOnly(desk, next) || exists alerts :: Advances(desk, next, stream, alerts, o.day)
  {
    var L := EvaluatedOf(desk);
    hide CatchUp, Direct, Advances, StatusOnly;
    assert StatusOnly(desk, desk) by { SameIsStatusOnly(desk); }
    if L.None? || L.value <= o.day {
      DirectAdvances(desk, stream, o);
      if L.Some? && L.value < o.day && CatchUp(desk, stream, o.day, Some(o.satisfied), rows).Caught? {
        CatchUpAdvances(desk, stream, o.day, Some(o.satisfied), rows);
      }
    }
  }

  lemma {:induction false} SameIsStatusOnly(desk: Desk)
    ensures StatusOnly(desk, desk)
  {
  }

  /** A scheduled evaluation changes at most the status, or advances to its day. */
  lemma {:induction false} EvaluationAdvances(
    desk: Desk, stream: LogRuns.Stream, day: Date, current: bool, input: ValueInput)
    requires Tidy(desk) && Ready(stream) && CursorSound(desk, stream) && AscendingRows(input.rows)
    ensures var next := RunRule(desk, stream, day, current, input);
            StatusOnly(desk, next) || exists alerts :: Advances(desk, next, stream, alerts, day)
  {
    hide MissDay, ObserveDay, Advances, Ready, CursorSound, AscendingRows, Tidy;
    var o := Resolve(desk.rule.condition, stream, current, input);
    if desk.rule.enabled {
      if o.None? || o.value.day != day {
        MissAdvances(desk, stream, day, current, input.rows);
      } else {
        ObserveAdvances(desk, stream, o.value, input.rows);
      }
    }
  }

  // ---------------------------------------------------------------------------------------
  // What every step keeps

  /** Trigger identities are handed out in order by the rule. */
  ghost predicate Identities(desk: Desk) {
    && (forall x, y :: 0 <= x < y < |desk.notices| ==> desk.notices[x].sequence < desk.notices[y].sequence)
    && (forall x :: 0 <= x < |desk.notices| ==> desk.notices[x].sequence <= desk.rule.sequence)
  }

  /** Within one rule version notification days ascend, and none lies past the evaluated day. */
  ghost predicate Dated(desk: Desk) {
    && (forall x :: 0 <= x < |desk.notices| ==> desk.notices[x].version <= desk.rule.version)
    && (forall x :: 0 <= x < |desk.notices| && desk.notices[x].version == desk.rule.version ==>
          EvaluatedOf(desk).Some? && desk.notices[x].day <= EvaluatedOf(desk).value)
    && (forall x, y :: 0 <= x < y < |desk.notices| && desk.notices[x].version == desk.notices[y].version ==>
          desk.notices[x].day < desk.notices[y].day)
  }

  /** Both speak of one target of one stream. */
  predicate SameTarget(s1: StreamId, c1: Condition, s2: StreamId, c2: Condition) {
    s1 == s2 && c1.StateCondition? && c2.StateCondition? && c1.target == c2.target
  }

  /** Across versions: the evaluated day covers everything ever notified of the rule's target, and a
      replayed event is dated after everything notified of its target before. */
  ghost predicate Replayed(desk: Desk) {
    && (forall x :: 0 <= x < |desk.notices| && Concerns(desk.notices[x], desk.rule) && EvaluatedOf(desk).Some? ==>
          desk.notices[x].day <= EvaluatedOf(desk).value)
    && (forall x, y :: 0 <= x < y < |desk.notices| && Repeats(desk.notices[x], desk.notices[y]) ==>
          desk.notices[x].day < desk.notices[y].day)
  }

  predicate Concerns(n: Notice, r: Rule) { SameTarget(n.stream, n.condition, r.stream, r.condition) }

  /** `n` replays an event of the target that `m` was about. */
  predicate Repeats(m: Notice, n: Notice) { n.event.Some? && SameTarget(m.stream, m.condition, n.stream, n.condition) }

  /** A notice of a target lies within what its stream has published of it, and stems from a stored event. */
  ghost predicate Recorded(n: Notice, stream: LogRuns.Stream) {
    && (n.condition.StateCondition? ==>
          && stream.stateThrough.Some? && n.day <= stream.stateThrough.value
          && (n.condition.target in stream.log.current ==> n.day <= stream.log.current[n.condition.target].day))
    && (n.event.Some? ==> n.condition.StateCondition? && exists e :: e in stream.log.events && Stems(n, e))
  }

  predicate Stems(n: Notice, e: Event)
    requires n.condition.StateCondition?
  {
    n.event == Some(e.number) && e.change.day == n.day && e.change.target == n.condition.target
  }

  ghost predicate Good(o: Office) {
    && (forall id :: Ready(StreamAt(o.streams, id)))
    && Tidy(o.desk) && Identities(o.desk) && Dated(o.desk) && Replayed(o.desk)
    && CursorSound(o.desk, StreamAt(o.streams, o.desk.rule.stream))
    && (forall x :: 0 <= x < |o.desk.notices| ==>
          Recorded(o.desk.notices[x], StreamAt(o.streams, o.desk.notices[x].stream)))
  }

  lemma {:induction false} NewIsGood(stream: StreamId, condition: Condition, enabled: bool)
    ensures Good(NewOffice(stream, condition, enabled))
  {
    FreshIsReady();
    hide Ready;
  }

  // Publications

  lemma {:induction false} CursorSurvives(desk: Desk, stream: LogRuns.Stream, b: LogRuns.Batch)
    requires CursorSound(desk, stream)
    ensures CursorSound(desk, LogRuns.Materialize(stream, b))
  {
    MaterializeContinues(stream, b);
    hide LogRuns.Materialize;
    var next := LogRuns.Materialize(stream, b);
    if desk.rule.condition.StateCondition? && EvaluatedOf(desk).Some? {
      forall e | e in next.log.events && Passed(e, desk.rule.condition.target, desk.instance.value.consumed)
        ensures e.change.day <= EvaluatedOf(desk).value
      {
        var i :| 0 <= i < |next.log.events| && next.log.events[i] == e;
        assert i < |stream.log.events|;
        assert SameEvent(stream.log.events[i], e);
        assert Passed(stream.log.events[i], desk.rule.condition.target, desk.instance.value.consumed);
      }
    }
  }

  lemma {:induction false} RecordSurvives(n: Notice, stream: LogRuns.Stream, b: LogRuns.Batch)
    requires Recorded(n, stream) && LogRuns.Proper(b) && Reaches(b)
    ensures Recorded(n, LogRuns.Materialize(stream, b))
  {
    MaterializeContinues(stream, b);
    ThroughAdvances(stream, b);
    var next := LogRuns.Materialize(stream, b);
    hide LogRuns.Materialize, LogRuns.Proper, Reaches;
    if n.condition.StateCondition? && n.condition.target in next.log.current {
      RowsMoveForward(stream, b, n.condition.target);
    }
    if n.event.Some? {
      var e :| e in stream.log.events && Stems(n, e);
      var i :| 0 <= i < |stream.log.events| && stream.log.events[i] == e;
      assert SameEvent(e, next.log.events[i]);
      assert Stems(n, next.log.events[i]);
    }
  }

  lemma {:induction false} ThroughAdvances(stream: LogRuns.Stream, b: LogRuns.Batch)
    ensures var through := LogRuns.Materialize(stream, b).stateThrough;
            stream.stateThrough.Some? ==> through.Some? && stream.stateThrough.value <= through.value
  {
    hide EventLog.Publish;
  }

  lemma {:induction false} PublishKeepsGood(o: Office, id: StreamId, b: LogRuns.Batch)
    requires Good(o) && LogRuns.Proper(b) && Reaches(b)
    ensures Good(Next(o, Publish(id, b)))
  {
    hide Ready, LogRuns.Materialize, LogRuns.Proper, Reaches, Recorded, CursorSound, Identities, Dated, Replayed, Tidy;
    var next := Next(o, Publish(id, b));
    MaterializeKeepsReady(StreamAt(o.streams, id), b);
    forall i ensures Ready(StreamAt(next.streams, i)) {
      assert i != id ==> StreamAt(next.streams, i) == StreamAt(o.streams, i);
    }
    forall x | 0 <= x < |o.desk.notices|
      ensures Recorded(o.desk.notices[x], StreamAt(next.streams, o.desk.notices[x].stream))
    {
      assert Recorded(o.desk.notices[x], StreamAt(o.streams, o.desk.notices[x].stream));
      if o.desk.notices[x].stream == id {
        RecordSurvives(o.desk.notices[x], StreamAt(o.streams, id), b);
      }
    }
    if o.desk.rule.stream == id {
      CursorSurvives(o.desk, StreamAt(o.streams, id), b);
    }
  }

  // Edits

  lemma {:induction false} EditKeepsGood(o: Office, stream: StreamId, condition: Condition, enabled: bool)
    requires Good(o)
    ensures Good(Next(o, Edit(stream, condition, enabled)))
  {
    hide Ready, Recorded;
    var next := Next(o, Edit(stream, condition, enabled));
    if SameSignature(o.desk.rule, stream, condition, enabled) {
      assert next == o;
    } else {
      assert EvaluatedOf(next.desk).None?;
    }
  }

  // Evaluations

  lemma {:induction false} StatusKeepsGood(o: Office, next: Desk)
    requires Good(o) && StatusOnly(o.desk, next)
    ensures Good(o.(desk := next))
  {
    hide Ready, Recorded;
    assert EvaluatedOf(next) == EvaluatedOf(o.desk);
  }

  lemma {:induction false} NoticeAt(desk: Desk, next: Desk, alerts: seq<Alert>, day: Date, k: nat)
    requires Moved(desk, next, alerts, day) && k < |next.notices|
    ensures |next.notices| == |desk.notices| + |alerts|
    ensures k < |desk.notices| ==> next.notices[k] == desk.notices[k]
    ensures k >= |desk.notices| ==>
            var j := k - |desk.notices|;
            && alerts[j] in alerts
            && next.notices[k] == Notice(desk.rule.sequence + 1 + j, desk.rule.version, desk.rule.stream,
                                         desk.rule.condition, alerts[j].day, alerts[j].event)
  {
  }

  lemma {:induction false} MoveKeepsIdentities(desk: Desk, next: Desk, alerts: seq<Alert>, day: Date)
    requires Identities(desk) && Moved(desk, next, alerts, day)
    ensures Identities(next)
  {
    forall x, y | 0 <= x < y < |next.notices| ensures next.notices[x].sequence < next.notices[y].sequence {
      NoticeAt(desk, next, alerts, day, x);
      NoticeAt(desk, next, alerts, day, y);
    }
    forall x | 0 <= x < |next.notices| ensures next.notices[x].sequence <= next.rule.sequence {
      NoticeAt(desk, next, alerts, day, x);
    }
  }

  lemma {:induction false} MoveKeepsDated(desk: Desk, next: Desk, alerts: seq<Alert>, day: Date)
    requires Dated(desk) && Moved(desk, next, alerts, day) && Ahead(desk, alerts, day)
    ensures Dated(next)
  {
    forall x | 0 <= x < |next.notices|
      ensures next.notices[x].version <= next.rule.version
      ensures next.notices[x].version == next.rule.version ==> next.notices[x].day <= day
    {
      NoticeAt(desk, next, alerts, day, x);
    }
    forall x, y | 0 <= x < y < |next.notices| && next.notices[x].version == next.notices[y].version
      ensures next.notices[x].day < next.notices[y].day
    {
      NoticeAt(desk, next, alerts, day, x);
      NoticeAt(desk, next, alerts, day, y);
      hide Moved;
      if x >= |desk.notices| {
        assert alerts[x - |desk.notices|].day < alerts[y - |desk.notices|].day;
      }
    }
  }

  /** Everything ever notified of the rule's target lies at or before the day the rule moves to. */
  lemma {:induction false} NoticeCovered(o: Office, next: Desk, alerts: seq<Alert>, day: Date, n: Notice)
    requires o.desk.rule.condition.StateCondition?
    requires Consumes(o.desk, next, StreamAt(o.streams, o.desk.rule.stream), o.desk.rule.condition.target, alerts, day)
    requires Recorded(n, StreamAt(o.streams, n.stream)) && Concerns(n, o.desk.rule)
    ensures n.day <= day
  {
  }

  lemma {:induction false} MoveKeepsReplayed(o: Office, next: Desk, alerts: seq<Alert>, day: Date)
    requires Good(o) && Advances(o.desk, next, StreamAt(o.streams, o.desk.rule.stream), alerts, day)
    ensures Replayed(next)
  {
    var desk := o.desk;
    forall x | 0 <= x < |next.notices| && Concerns(next.notices[x], next.rule)
      ensures next.notices[x].day <= day
    {
      NoticeAt(desk, next, alerts, day, x);
      if x < |desk.notices| {
        NoticeCovered(o, next, alerts, day, desk.notices[x]);
      }
    }
    forall x, y | 0 <= x < y < |next.notices| && Repeats(next.notices[x], next.notices[y])
      ensures next.notices[x].day < next.notices[y].day
    {
      NoticeAt(desk, next, alerts, day, x);
      NoticeAt(desk, next, alerts, day, y);
      if x >= |desk.notices| {
        assert alerts[x - |desk.notices|].day < alerts[y - |desk.notices|].day;
      }
    }
  }

  lemma {:induction false} MoveKeepsRecords(o: Office, next: Desk, alerts: seq<Alert>, day: Date, x: nat)
    requires Good(o) && Advances(o.desk, next, StreamAt(o.streams, o.desk.rule.stream), alerts, day)
    requires x < |next.notices|
    ensures Recorded(next.notices[x], StreamAt(o.streams, next.notices[x].stream))
  {
    NoticeAt(o.desk, next, alerts, day, x);
    if x >= |o.desk.notices| {
      var a, n := alerts[x - |o.desk.notices|], next.notices[x];
      var stream := StreamAt(o.streams, o.desk.rule.stream);
      if a.event.Some? {
        var e :| e in stream.log.events && Triggers(e, o.desk.rule.condition.target, a);
        assert Stems(n, e);
      }
    }
  }

  lemma {:induction false} MoveKeepsCursor(
    desk: Desk, next: Desk, stream: LogRuns.Stream, alerts: seq<Alert>, day: Date)
    requires Ready(stream) && Advances(desk, next, stream, alerts, day)
    ensures CursorSound(next, stream)
  {
    if next.rule.condition.StateCondition? {
      assert Anchored(next.rule.condition, stream, day);
      AnchoredIsPublished(next.rule.condition, stream, day);
    }
  }

  lemma {:induction false} AdvanceKeepsGood(o: Office, next: Desk, alerts: seq<Alert>, day: Date)
    requires Good(o) && Advances(o.desk, next, StreamAt(o.streams, o.desk.rule.stream), alerts, day)
    ensures Good(o.(desk := next))
  {
    MoveKeepsReplayed(o, next, alerts, day);
    MoveKeepsCursor(o.desk, next, StreamAt(o.streams, o.desk.rule.stream), alerts, day);
    hide Ready, Recorded, Replayed, CursorSound, Consumes;
    MoveKeepsIdentities(o.desk, next, alerts, day);
    MoveKeepsDated(o.desk, next, alerts, day);
    hide Identities, Dated, Ahead;
    forall x | 0 <= x < |next.notices| ensures Recorded(next.notices[x], StreamAt(o.streams, next.notices[x].stream)) {
      MoveKeepsRecords(o, next, alerts, day, x);
    }
  }

  lemma {:induction false} ScheduleKeepsGood(o: Office, day: Date, current: bool, input: ValueInput)
    requires Good(o) && AscendingRows(input.rows)
    ensures Good(Next(o, Schedule(day, current, input)))
  {
    var stream := StreamAt(o.streams, o.desk.rule.stream);
    GoodParts(o);
    hide Good, Ready, CursorSound, RunRule, Advances, StatusOnly, AscendingRows, Tidy;
    EvaluationAdvances(o.desk, stream, day, current, input);
    var next := RunRule(o.desk, stream, day, current, input);
    if StatusOnly(o.desk, next) {
      StatusKeepsGood(o, next);
    } else {
      var alerts :| Advances(o.desk, next, stream, alerts, day);
      AdvanceKeepsGood(o, next, alerts, day);
    }
  }

  lemma {:induction false} GoodParts(o: Office)
    requires Good(o)
    ensures Ready(StreamAt(o.streams, o.desk.rule.stream)) && Tidy(o.desk)
    ensures CursorSound(o.desk, StreamAt(o.streams, o.desk.rule.stream))
  {
  }

  lemma {:induction false} RunKeepsGood(o: Office, steps: seq<Step>)
    requires Good(o) && forall i :: 0 <= i < |steps| ==> Allowed(steps[i])
    ensures Good(After(o, steps))
  {
    if steps != [] {
      var init, step := steps[..|steps| - 1], steps[|steps| - 1];
      RunKeepsGood(o, init);
      assert Allowed(step);
      hide Good, Next;
      match step
      case Publish(id, batch) => PublishKeepsGood(After(o, init), id, batch);
      case Edit(stream, condition, enabled) => EditKeepsGood(After(o, init), stream, condition, enabled);
      case Schedule(day, current, input) => ScheduleKeepsGood(After(o, init), day, current, input);
    }
  }

  /** The state a rule reaches from its creation by a run. */
  ghost predicate Reachable(o: Office, stream: StreamId, condition: Condition, enabled: bool, steps: seq<Step>) {
    (forall i :: 0 <= i < |steps| ==> Allowed(steps[i])) && o == After(NewOffice(stream, condition, enabled), steps)
  }

  lemma {:induction false} ReachableIsGood(
    o: Office, stream: StreamId, condition: Condition, enabled: bool, steps: seq<Step>)
    requires Reachable(o, stream, condition, enabled, steps)
    ensures Good(o)
  {
    NewIsGood(stream, condition, enabled);
    hide Good, Allowed, NewOffice;
    RunKeepsGood(NewOffice(stream, condition, enabled), steps);
  }

  // ---------------------------------------------------------------------------------------
  // Main results

  /** Over every run the trigger sequences of a rule ascend, so no identity repeats, whatever the
      edits and security switches in between. */
  lemma {:induction false} TriggerSequencesAscend(
    o: Office, stream: StreamId, condition: Condition, enabled: bool, steps: seq<Step>, x: nat, y: nat)
    requires Reachable(o, stream, condition, enabled, steps) && x < y < |o.desk.notices|
    ensures o.desk.notices[x].sequence < o.desk.notices[y].sequence
  {
    ReachableIsGood(o, stream, condition, enabled, steps);
    hide Reachable, Ready;
  }

  /** Over every run, within one rule version, scheduled notification days strictly ascend. */
  lemma {:induction false} DaysAscendWithinVersion(
    o: Office, stream: StreamId, condition: Condition, enabled: bool, steps: seq<Step>, x: nat, y: nat)
    requires Reachable(o, stream, condition, enabled, steps) && x < y < |o.desk.notices|
    requires o.desk.notices[x].version == o.desk.notices[y].version
    ensures o.desk.notices[x].day < o.desk.notices[y].day
  {
    ReachableIsGood(o, stream, condition, enabled, steps);
    hide Reachable, Ready;
  }

  /** Over every run, even across versions, no stored event is replayed twice. */
  lemma {:induction false} NoEventTwice(
    o: Office, stream: StreamId, condition: Condition, enabled: bool, steps: seq<Step>, x: nat, y: nat)
    requires Reachable(o, stream, condition, enabled, steps) && x < y < |o.desk.notices|
    requires o.desk.notices[x].event.Some? && o.desk.notices[y].event.Some?
    requires o.desk.notices[x].stream == o.desk.notices[y].stream
    ensures o.desk.notices[x].event != o.desk.notices[y].event
  {
    ReachableIsGood(o, stream, condition, enabled, steps);
    var m, n := o.desk.notices[x], o.desk.notices[y];
    hide Reachable, Ready, Recorded;
    assert Recorded(m, StreamAt(o.streams, m.stream)) && Recorded(n, StreamAt(o.streams, n.stream));
    if m.event == n.event {
      SameEventSameDay(m, n, StreamAt(o.streams, m.stream));
    }
  }

  lemma {:induction false} SameEventSameDay(m: Notice, n: Notice, s: LogRuns.Stream)
    requires Ready(s) && Recorded(m, s) && Recorded(n, s) && m.stream == n.stream && m.event == n.event && m.event.Some?
    ensures Repeats(m, n) && m.day == n.day
  {
    hide Ready;
    var a :| a in s.log.events && Stems(m, a);
    var b :| b in s.log.events && Stems(n, b);
    NumbersIdentify(s, a, b);
  }

  lemma {:induction false} NumbersIdentify(s: LogRuns.Stream, a: Event, b: Event)
    requires Ready(s) && a in s.log.events && b in s.log.events && a.number == b.number
    ensures a == b
  {
    assert NumbersIncrease(s.log.events, s.log.sequence);
    var i :| 0 <= i < |s.log.events| && s.log.events[i] == a;
    var j :| 0 <= j < |s.log.events| && s.log.events[j] == b;
    hide Ready;
    assert i == j;
  }

  /** In every reachable state, a scheduled evaluation of a state rule that catches up enqueues exactly
      the valid live ENTER events of its target dated after the last evaluated day. */
  lemma {:induction false} CatchUpMissesNothing(
    o: Office, stream: StreamId, condition: Condition, enabled: bool, steps: seq<Step>,
    last: Date, observation: Option<bool>, rows: seq<ValueRow>)
    requires Reachable(o, stream, condition, enabled, steps)
    requires o.desk.rule.condition.StateCondition? && EvaluatedOf(o.desk).Some?
    requires Anchored(o.desk.rule.condition, StreamAt(o.streams, o.desk.rule.stream), last)
    requires CatchUp(o.desk, StreamAt(o.streams, o.desk.rule.stream), last, observation, rows).Caught?
    ensures var s := StreamAt(o.streams, o.desk.rule.stream);
            var enters := EntersAfter(s.log.events, o.desk.rule.condition.target, EvaluatedOf(o.desk).value);
            CatchUp(o.desk, s, last, observation, rows).desk.notices == o.desk.notices + NoticesFor(o.desk.rule, enters)
  {
    ReachableIsGood(o, stream, condition, enabled, steps);
    GoodParts(o);
    var s, i, c := StreamAt(o.streams, o.desk.rule.stream), o.desk.instance.value, o.desk.rule.condition;
    hide Reachable, Good, Ready, CursorSound, StateReplay, Pending, EnqueueAll, EntersAfter;
    StateCatchUp(o.desk, s, last, i.status);
    EnqueueAllShape(o.desk, EntersAfter(s.log.events, c.target, i.evaluated.value));
  }

  /** In every reachable state, a scheduled evaluation of an enabled state rule for a published day past
      its last evaluated day, whether or not the day offers an observation, enqueues exactly those events
      and moves both cursors, unless the range is too long to replay. */
  lemma {:induction false} ScheduledDayIsExact(
    o: Office, stream: StreamId, condition: Condition, enabled: bool, steps: seq<Step>, day: Date, input: ValueInput)
    requires Reachable(o, stream, condition, enabled, steps) && o.desk.rule.enabled
    requires o.desk.rule.condition.StateCondition? && EvaluatedOf(o.desk).Some? && EvaluatedOf(o.desk).value < day
    requires StreamAt(o.streams, o.desk.rule.stream).stateThrough == Some(day)
    requires var s, i := StreamAt(o.streams, o.desk.rule.stream), o.desk.instance.value;
             |Pending(s.log.events, o.desk.rule.condition.target, i.evaluated.value, day,
                      i.consumed)| <= MAX_CATCHUP_ROWS
    ensures var s := StreamAt(o.streams, o.desk.rule.stream);
            var enters := EntersAfter(s.log.events, o.desk.rule.condition.target, EvaluatedOf(o.desk).value);
            var next := RunRule(o.desk, s, day, true, input);
            && next.notices == o.desk.notices + NoticesFor(o.desk.rule, enters)
            && EvaluatedOf(next) == Some(day) && next.instance.value.consumed == s.log.sequence
  {
    ReachableIsGood(o, stream, condition, enabled, steps);
    GoodParts(o);
    var s, i, c := StreamAt(o.streams, o.desk.rule.stream), o.desk.instance.value, o.desk.rule.condition;
    hide Reachable, Good, Ready, CursorSound, StateReplay, Pending, EnqueueAll, EntersAfter, RunRule;
    StateCatchUp(o.desk, s, day, i.status);
    EnqueueAllShape(o.desk, EntersAfter(s.log.events, c.target, i.evaluated.value));
    var observation := CaughtUpDay(o.desk, s, day, input);
  }

  /** For a published day past the evaluated one the evaluation is a catch-up. */
  lemma {:induction false} CaughtUpDay(
    desk: Desk, s: LogRuns.Stream, day: Date, input: ValueInput) returns (observation: Option<bool>)
    requires Tidy(desk) && desk.rule.enabled && desk.rule.condition.StateCondition?
    requires EvaluatedOf(desk).Some? && EvaluatedOf(desk).value < day && s.stateThrough == Some(day)
    requires |Pending(s.log.events, desk.rule.condition.target, EvaluatedOf(desk).value, day,
                      desk.instance.value.consumed)| <= MAX_CATCHUP_ROWS
    ensures CatchUp(desk, s, day, observation, input.rows).Caught?
    ensures RunRule(desk, s, day, true, input) == CatchUp(desk, s, day, observation, input.rows).desk
  {
    hide StateReplay, Pending, EnqueueAll;
    var r := Resolve(desk.rule.condition, s, true, input);
    observation := if r.None? || r.value.day != day then None else Some(r.value.satisfied);
    assert CatchUp(desk, s, day, observation, input.rows).Caught?;
    hide CatchUp;
  }
}
