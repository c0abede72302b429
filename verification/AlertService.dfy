/** The alert service object: rule and instance fields updated in place under the rule lock. */
module AlertService {
  import opened Common
  import opened States
  import opened Timeline
  import opened EventLog
  import opened AlertReplay
  import opened AlertDesk
  import LogRuns

  function WithStatus(desk: Desk, status: Trigger): (r: Desk)
    requires desk.instance.Some?
  {
    desk.(instance := Some(desk.instance.value.(status := status)))
  }

  class RuleBook {
    var rule: Rule
    var instance: Option<Instance>
    var outbox: seq<Notice>

    ghost function View(): (desk: Desk)
      reads this
    {
      Desk(rule, instance, outbox)
    }

    constructor (stream: StreamId, condition: Condition, enabled: bool)
      ensures View() == NewDesk(stream, condition, enabled)
    {
      rule, instance, outbox := Rule(stream, condition, enabled, 1, 0), None, [];
    }

    /** Edits the rule; a changed signature bumps the version and restarts the instance. */
    method Update(stream: StreamId, condition: Condition, enabled: bool)
      modifies this
      ensures View() == Edited(old(View()), stream, condition, enabled)
    {
      var previous := rule;
      rule := rule.(stream := stream, condition := condition, enabled := enabled);
      var changed := !SameSignature(previous, stream, condition, enabled);
      if changed {
        rule := rule.(version := rule.version + 1);
      }
      if previous.stream.security != stream.security {
        instance := None;
      } else if changed && instance.Some? {
        instance := Some(instance.value.(status := RESET, version := rule.version, evaluated := None));
      }
    }

    /** Allocates the next identity from the rule and adds the outbox row. */
    method EnqueueTrigger(a: Alert)
      requires instance.Some?
      modifies this
      ensures instance.Some? && View() == Enqueue(old(View()), a)
    {
      var next := Max(rule.sequence, instance.value.sequence) + 1;
      rule := rule.(sequence := next);
      instance := Some(instance.value.(sequence := next));
      outbox := outbox + [Notice(next, rule.version, rule.stream, rule.condition, a.day, a.event)];
    }

    method SetStatus(status: Trigger)
      requires instance.Some?
      modifies this
      ensures View() == WithStatus(old(View()), status)
    {
      instance := Some(instance.value.(status := status));
    }

    /** Replays the pending events of a state rule. */
    method ReplayEvents(edgeMode: bool, pending: seq<Event>)
      requires instance.Some?
      modifies this
      ensures var replay := StateReplay(edgeMode, pending, old(instance).value.status);
              View() == WithStatus(EnqueueAll(old(View()), replay.alerts), replay.status)
    {
      ghost var start := View();
      for k := 0 to |pending|
        invariant instance.Some?
        invariant var replay := StateReplay(edgeMode, pending[..k], start.instance.value.status);
                  View() == WithStatus(EnqueueAll(start, replay.alerts), replay.status)
      {
        var event := pending[k];
        assert pending[..k + 1][..k] == pending[..k];
        ghost var r := StateReplay(edgeMode, pending[..k], start.instance.value.status);
        if event.change.fact.status != Unknown {
          var active := event.change.fact.status == Active;
          var enter := event.change.kind == Enter && !event.restated;
          var evaluation := Evaluate(if edgeMode then enter else active,
                                     if enter then RESET else instance.value.status);
          SetStatus(evaluation.status);
          if enter {
            OneMore(start, r.alerts, AlertOf(event), evaluation.status);
            EnqueueTrigger(AlertOf(event));
          }
        }
      }
      assert pending[..|pending|] == pending;
    }

    /** Replays the snapshot rows of a value rule. */
    method ReplayRows(comparison: Comparison, rows: seq<ValueRow>)
      requires instance.Some?
      modifies this
      ensures var replay := ValueReplay(comparison, rows, old(instance).value.status);
              View() == WithStatus(EnqueueAll(old(View()), replay.alerts), replay.status)
    {
      ghost var start := View();
      for k := 0 to |rows|
        invariant instance.Some?
        invariant var replay := ValueReplay(comparison, rows[..k], start.instance.value.status);
                  View() == WithStatus(EnqueueAll(start, replay.alerts), replay.status)
      {
        var row := rows[k];
        assert rows[..k + 1][..k] == rows[..k];
        ghost var r := ValueReplay(comparison, rows[..k], start.instance.value.status);
        if row.value.Some? {
          var evaluation := Evaluate(Matches(comparison, row.value.value), instance.value.status);
          SetStatus(evaluation.status);
          if evaluation.triggered && !Restated(row) {
            OneMore(start, r.alerts, Alert(row.day, row.value, None), evaluation.status);
            EnqueueTrigger(Alert(row.day, row.value, None));
          }
        }
      }
      assert rows[..|rows|] == rows;
    }

    /** Catches up to `last`; refuses over-long ranges and unpublished streams without any change. */
    method Replay(
      stream: LogRuns.Stream, last: Date, observation: Option<bool>, rows: seq<ValueRow>)
      returns (outcome: CatchUpResult)
      requires instance.Some? && instance.value.evaluated.Some?
      modifies this
      ensures outcome == CatchUp(old(View()), stream, last, observation, rows)
      ensures View() == if outcome.Caught? then outcome.desk else old(View())
    {
      hide StateReplay, ValueReplay, Pending, Window, EnqueueAll;
      match rule.condition {
        case StateCondition(t, edgeMode) =>
          if stream.stateThrough.None? {
            return NotPublished;
          }
          var pending := Pending(stream.log.events, t, instance.value.evaluated.value, last, instance.value.consumed);
          if |pending| > MAX_CATCHUP_ROWS {
            return TooLarge;
          }
          ReplayEvents(edgeMode, pending);
          instance := Some(instance.value.(consumed := stream.log.sequence));
          if observation.Some? {
            instance := Some(instance.value.(status := Evaluate(observation.value, instance.value.status).status));
          }
        case ValueCondition(_, comparison, _) =>
          var window := Window(rows, instance.value.evaluated.value, last);
          if |window| > MAX_CATCHUP_ROWS {
            return TooLarge;
          }
          ReplayRows(comparison, window);
      }
      instance := Some(instance.value.(evaluated := Some(last)));
      return Caught(Desk(rule, instance, outbox));
    }

    /** One scheduled evaluation. */
    method EvaluateRule(stream: LogRuns.Stream, day: Date, current: bool, input: ValueInput)
      modifies this
      ensures View() == RunRule(old(View()), stream, day, current, input)
    {
      hide CatchUp;
      if !rule.enabled {
        return;
      }
      var o := Resolve(rule.condition, stream, current, input);
      if o.None? || o.value.day != day {
        UnavailableObservation(stream, day, current, input.rows);
      } else {
        Observe(stream, o.value, input.rows);
      }
    }

    /** An evaluation with an observation of its day. */
    method Observe(stream: LogRuns.Stream, o: Observed, rows: seq<ValueRow>)
      modifies this
      ensures View() == ObserveDay(old(View()), stream, o, rows)
    {
      hide CatchUp, Direct;
      if instance.Some? && instance.value.version != rule.version {
        instance := Some(instance.value.(status := RESET, evaluated := None, version := rule.version, consumed := 0));
      }
      var evaluated := if instance.Some? then instance.value.evaluated else None;
      if evaluated.Some? && o.day < evaluated.value {
        return;
      }
      if evaluated.Some? && evaluated.value < o.day && !(rule.condition.ValueCondition? && rule.condition.dividend) {
        var outcome := Replay(stream, o.day, Some(o.satisfied), rows);
        if !outcome.NotPublished? {
          return;
        }
      }
      EvaluateDirectly(stream, o);
    }

    /** The edge trigger on one observation. */
    method EvaluateDirectly(stream: LogRuns.Stream, o: Observed)
      modifies this
      ensures View() == Direct(old(View()), stream, o)
    {
      var evaluation := Evaluate(o.satisfied, if instance.Some? then instance.value.status else RESET);
      if instance.Some? && instance.value.evaluated == Some(o.day) {
        SetStatus(evaluation.status);
        return;
      }
      if instance.None? {
        instance := Some(Instance(evaluation.status, rule.sequence, rule.version, 0, Some(o.day)));
      } else {
        SetStatus(evaluation.status);
      }
      instance := Some(instance.value.(evaluated := Some(o.day)));
      if rule.condition.StateCondition? {
        instance := Some(instance.value.(consumed := stream.log.sequence));
      }
      if evaluation.triggered {
        EnqueueTrigger(Alert(o.day, o.value, None));
      }
    }

    /** Consumes a published day that offers no observation. */
    method UnavailableObservation(stream: LogRuns.Stream, day: Date, current: bool, rows: seq<ValueRow>)
      modifies this
      ensures View() == MissDay(old(View()), stream, day, current, rows)
    {
      hide CatchUp;
      if !current || stream.stateThrough != Some(day) {
        return;
      }
      if instance.Some? && instance.value.version == rule.version
         && instance.value.evaluated.Some? && instance.value.evaluated.value < day {
        var outcome := Replay(stream, day, None, rows);
        if !outcome.NotPublished? {
          return;
        }
      }
      if instance.None? {
        instance := Some(Instance(RESET, rule.sequence, rule.version, stream.log.sequence, Some(day)));
      } else if instance.value.version != rule.version {
        instance := Some(instance.value.(version := rule.version, status := RESET, evaluated := Some(day),
                                         consumed := stream.log.sequence));
      } else if instance.value.evaluated.None? || instance.value.evaluated.value <= day {
        instance := Some(instance.value.(evaluated := Some(day), consumed := stream.log.sequence));
      }
    }
  }

  /** Enqueueing does not depend on the remembered status. */
  lemma {:induction false} OneMore(start: Desk, alerts: seq<Alert>, a: Alert, status: Trigger)
    requires start.instance.Some?
    ensures Enqueue(WithStatus(EnqueueAll(start, alerts), status), a)
         == WithStatus(EnqueueAll(start, alerts + [a]), status)
  {
    assert (alerts + [a])[..|alerts|] == alerts;
  }
}
