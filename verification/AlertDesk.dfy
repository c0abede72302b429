/** One alert rule as a consumer of published streams: evaluations, catch-ups, edits, trigger identities. */
module AlertDesk {
  import opened Common
  import opened States
  import opened EventLog
  import opened LogTargets
  import opened AlertReplay
  import LogRuns

  /** A price series: one security in one adjustment. */
  datatype StreamId = StreamId(security: nat, adjusted: bool)

  datatype Condition =
    | StateCondition(target: Target, edgeMode: bool)
    | ValueCondition(series: nat, comparison: Comparison, dividend: bool)

  datatype Rule = Rule(stream: StreamId, condition: Condition, enabled: bool, version: nat, sequence: nat)

  datatype Instance = Instance(status: Trigger, sequence: nat, version: nat, consumed: nat, evaluated: Option<Date>)

  /** An outbox row as it was enqueued. */
  datatype Notice = Notice(sequence: nat, version: nat, stream: StreamId, condition: Condition, day: Date,
                           event: Option<nat>)

  /** The rule, its instance for the rule's present security, and everything it ever enqueued. */
  datatype Desk = Desk(rule: Rule, instance: Option<Instance>, notices: seq<Notice>)

  /** What the value side offers on one evaluation: the latest value and the snapshot rows. */
  datatype ValueInput = ValueInput(latest: Option<(Date, real)>, rows: seq<ValueRow>)

  // ---------------------------------------------------------------------------------------
  // Edits

  predicate SameSignature(r: Rule, stream: StreamId, condition: Condition, enabled: bool) {
    r.stream == stream && r.condition == condition && r.enabled == enabled
  }

  function Edited(desk: Desk, stream: StreamId, condition: Condition, enabled: bool): (r: Desk) {
    var same := SameSignature(desk.rule, stream, condition, enabled);
    var version := if same then desk.rule.version else desk.rule.version + 1;
    var instance :=
      if stream.security != desk.rule.stream.security then None
      else if same || desk.instance.None? then desk.instance
      else Some(desk.instance.value.(status := RESET, version := version, evaluated := None));
    Desk(desk.rule.(stream := stream, condition := condition, enabled := enabled, version := version),
         instance, desk.notices)
  }

  // ---------------------------------------------------------------------------------------
  // Triggers

  /** The locked rule owns every trigger identity. */
  function Enqueue(desk: Desk, a: Alert): (r: Desk)
    requires desk.instance.Some?
  {
    var sequence := Max(desk.rule.sequence, desk.instance.value.sequence) + 1;
    Desk(desk.rule.(sequence := sequence), Some(desk.instance.value.(sequence := sequence)),
         desk.notices + [Notice(sequence, desk.rule.version, desk.rule.stream, desk.rule.condition, a.day, a.event)])
  }

  function EnqueueAll(desk: Desk, alerts: seq<Alert>): (r: Desk)
    requires desk.instance.Some?
    ensures r.instance.Some?
    decreases |alerts|
  {
    if alerts == [] then desk
    else Enqueue(EnqueueAll(desk, alerts[..|alerts| - 1]), alerts[|alerts| - 1])
  }

  // ---------------------------------------------------------------------------------------
  // Catch-up

  datatype CatchUpResult = NotPublished | TooLarge | Caught(desk: Desk)

  /** The status after a replay and, when there is one, today's observation. */
  function Settled(status: Trigger, observation: Option<bool>): Trigger {
    if observation.Some? then Evaluate(observation.value, status).status else status
  }

  function CatchUp(
    desk: Desk, stream: LogRuns.Stream, last: Date, observation: Option<bool>, rows: seq<ValueRow>): (r: CatchUpResult)
    requires desk.instance.Some? && desk.instance.value.evaluated.Some?
  {
    var i := desk.instance.value;
    match desk.rule.condition
    case StateCondition(t, edgeMode) =>
      if stream.stateThrough.None? then NotPublished
      else
        var pending := Pending(stream.log.events, t, i.evaluated.value, last, i.consumed);
        if |pending| > MAX_CATCHUP_ROWS then TooLarge
        else
          var replay := StateReplay(edgeMode, pending, i.status);
          var d := EnqueueAll(desk, replay.alerts);
          Caught(d.(instance := Some(d.instance.value.(
            status := Settled(replay.status, observation), consumed := stream.log.sequence, evaluated := Some(last)))))
    case ValueCondition(_, comparison, _) =>
      var window := Window(rows, i.evaluated.value, last);
      if |window| > MAX_CATCHUP_ROWS then TooLarge
      else
        var replay := ValueReplay(comparison, window, i.status);
        var d := EnqueueAll(desk, replay.alerts);
        Caught(d.(instance := Some(d.instance.value.(status := replay.status, evaluated := Some(last)))))
  }

  // ---------------------------------------------------------------------------------------
  // Scheduled evaluation

  datatype Observed = Observed(day: Date, satisfied: bool, value: Option<real>)

  /** Today's observation, read only from a current publication. */
  function Resolve(c: Condition, stream: LogRuns.Stream, current: bool, input: ValueInput): (r: Option<Observed>) {
    match c
    case StateCondition(t, edgeMode) =>
      if !current || t !in stream.log.current || stream.log.current[t].fact.status == Unknown then None
      else
        var row := stream.log.current[t];
        Some(Observed(row.day, row.fact.status == Active && (edgeMode ==> row.transition), None))
    case ValueCondition(_, comparison, dividend) =>
      if input.latest.None? || (!dividend && !current) then None
      else Some(Observed(input.latest.value.0, Matches(comparison, input.latest.value.1), Some(input.latest.value.1)))
  }

  /** An instance left behind by another rule version starts over. */
  function Synced(desk: Desk): (r: Desk) {
    if desk.instance.Some? && desk.instance.value.version != desk.rule.version then
      desk.(instance := Some(desk.instance.value.(status := RESET, evaluated := None, version := desk.rule.version,
                                                  consumed := 0)))
    else desk
  }

  /** The evaluation of one observation: a correction of the evaluated day only moves the baseline. */
  function Direct(desk: Desk, stream: LogRuns.Stream, o: Observed): (r: Desk) {
    var e := Evaluate(o.satisfied, if desk.instance.Some? then desk.instance.value.status else RESET);
    if desk.instance.Some? && desk.instance.value.evaluated == Some(o.day) then
      desk.(instance := Some(desk.instance.value.(status := e.status)))
    else
      var base := if desk.instance.Some? then desk.instance.value
                  else Instance(e.status, desk.rule.sequence, desk.rule.version, 0, None);
      var consumed := if desk.rule.condition.StateCondition? then stream.log.sequence else base.consumed;
      var d := desk.(instance := Some(base.(status := e.status, evaluated := Some(o.day), consumed := consumed)));
      if e.triggered then Enqueue(d, Alert(o.day, o.value, None)) else d
  }

  function ObserveDay(desk: Desk, stream: LogRuns.Stream, o: Observed, rows: seq<ValueRow>): (r: Desk) {
    var d := Synced(desk);
    var evaluated := if d.instance.Some? then d.instance.value.evaluated else None;
    if evaluated.Some? && o.day < evaluated.value then d
    else if evaluated.Some? && evaluated.value < o.day
         && !(d.rule.condition.ValueCondition? && d.rule.condition.dividend) then
      match CatchUp(d, stream, o.day, Some(o.satisfied), rows)
      case Caught(next) => next
      case TooLarge => desk
      case NotPublished => Direct(d, stream, o)
    else Direct(d, stream, o)
  }

  /** A day whose current publication has no usable observation is consumed, not reset. */
  function MissDay(desk: Desk, stream: LogRuns.Stream, day: Date, current: bool, rows: seq<ValueRow>): (r: Desk) {
    if !current || stream.stateThrough != Some(day) then desk
    else if desk.instance.None? then
      desk.(instance := Some(Instance(RESET, desk.rule.sequence, desk.rule.version, stream.log.sequence, Some(day))))
    else
      var i := desk.instance.value;
      if i.version != desk.rule.version then
        desk.(instance := Some(i.(version := desk.rule.version, status := RESET, evaluated := Some(day),
                                  consumed := stream.log.sequence)))
      else if i.evaluated.Some? && i.evaluated.value < day then
        match CatchUp(desk, stream, day, None, rows)
        case Caught(next) => next
        case TooLarge => desk
        case NotPublished => desk.(instance := Some(i.(evaluated := Some(day), consumed := stream.log.sequence)))
      else if i.evaluated.None? || i.evaluated.value <= day then
        desk.(instance := Some(i.(evaluated := Some(day), consumed := stream.log.sequence)))
      else desk
  }

  /** One scheduled evaluation for `day`. */
  function RunRule(desk: Desk, stream: LogRuns.Stream, day: Date, current: bool, input: ValueInput): (r: Desk) {
    if !desk.rule.enabled then desk
    else
      var o := Resolve(desk.rule.condition, stream, current, input);
      if o.None? || o.value.day != day then MissDay(desk, stream, day, current, input.rows)
      else ObserveDay(desk, stream, o.value, input.rows)
  }

  // ---------------------------------------------------------------------------------------
  // Runs

  datatype Office = Office(desk: Desk, streams: map<StreamId, LogRuns.Stream>)

  function StreamAt(streams: map<StreamId, LogRuns.Stream>, id: StreamId): LogRuns.Stream {
    if id in streams then streams[id] else LogRuns.FRESH_STREAM
  }

  datatype Step =
    | Publish(id: StreamId, batch: LogRuns.Batch)
    | Edit(stream: StreamId, condition: Condition, enabled: bool)
    | Schedule(day: Date, current: bool, input: ValueInput)

  ghost predicate Allowed(step: Step) {
    match step
    case Publish(_, batch) => LogRuns.Proper(batch) && Reaches(batch)
    case Edit(_, _, _) => true
    case Schedule(_, _, input) => AscendingRows(input.rows)
  }

  ghost function Next(o: Office, step: Step): (r: Office) {
    match step
    case Publish(id, batch) => o.(streams := o.streams[id := LogRuns.Materialize(StreamAt(o.streams, id), batch)])
    case Edit(stream, condition, enabled) => o.(desk := Edited(o.desk, stream, condition, enabled))
    case Schedule(day, current, input) =>
      o.(desk := RunRule(o.desk, StreamAt(o.streams, o.desk.rule.stream), day, current, input))
  }

  ghost function After(o: Office, steps: seq<Step>): (r: Office) {
    if steps == [] then o else Next(After(o, steps[..|steps| - 1]), steps[|steps| - 1])
  }

  /** A newly created rule. */
  function NewDesk(stream: StreamId, condition: Condition, enabled: bool): (r: Desk) {
    Desk(Rule(stream, condition, enabled, 1, 0), None, [])
  }

  function NewOffice(stream: StreamId, condition: Condition, enabled: bool): (r: Office) {
    Office(NewDesk(stream, condition, enabled), map[])
  }
}
