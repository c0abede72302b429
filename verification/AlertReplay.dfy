/** Edge-triggered evaluation, and the replay of the days a rule has missed. */
module AlertReplay {
  import opened Common
  import opened States
  import opened Timeline
  import opened EventLog
  import opened LogTargets

  datatype Trigger = ACTIVE | RESET

  datatype Evaluation = Evaluation(triggered: bool, status: Trigger)

  /** The edge trigger: it fires when the condition holds and did not hold before. */
  function Evaluate(satisfied: bool, prior: Trigger): Evaluation {
    Evaluation(satisfied && prior == RESET, if satisfied then ACTIVE else RESET)
  }

  datatype Operator = GreaterOrEqual | Greater | LessOrEqual | Less | Equal

  datatype Comparison = Comparison(operator: Operator, threshold: real)

  predicate Matches(c: Comparison, value: real) {
    match c.operator
    case GreaterOrEqual => value >= c.threshold
    case Greater => value > c.threshold
    case LessOrEqual => value <= c.threshold
    case Less => value < c.threshold
    case Equal => value == c.threshold
  }

  const MAX_CATCHUP_ROWS := 10000

  /** One trigger to enqueue, with the event it stems from when there is one. */
  datatype Alert = Alert(day: Date, value: Option<real>, event: Option<nat>)

  datatype Replay = Replay(status: Trigger, alerts: seq<Alert>)

  // ---------------------------------------------------------------------------------------
  // Value conditions

  datatype Provenance = Unmarked | RestatedThrough(day: Date) | Malformed

  /** A snapshot row as one rule reads it; no value when its variant or field is missing. */
  datatype ValueRow = ValueRow(day: Date, value: Option<real>, provenance: Provenance)

  /** Unreadable provenance is not proof of a fresh signal. */
  predicate Restated(row: ValueRow) {
    match row.provenance
    case Unmarked => false
    case RestatedThrough(cutoff) => row.day <= cutoff
    case Malformed => true
  }

  ghost predicate AscendingRows(rows: seq<ValueRow>) {
    forall i, j :: 0 <= i < j < |rows| ==> rows[i].day < rows[j].day
  }

  /** The rows of the half-open range of days after `a` up to `b`. */
  function Window(rows: seq<ValueRow>, a: Date, b: Date): (r: seq<ValueRow>) {
    if rows == [] then []
    else
      var row := rows[|rows| - 1];
      Window(rows[..|rows| - 1], a, b) + if a < row.day <= b then [row] else []
  }

  function ValueStep(c: Comparison, r: Replay, row: ValueRow): (n: Replay) {
    match row.value
    case None => r
    case Some(value) =>
      var e := Evaluate(Matches(c, value), r.status);
      Replay(e.status, if e.triggered && !Restated(row) then r.alerts + [Alert(row.day, row.value, None)] else r.alerts)
  }

  /** The replay of rows from a given status. */
  function ValueReplay(c: Comparison, rows: seq<ValueRow>, status: Trigger): (r: Replay) {
    if rows == [] then Replay(status, [])
    else ValueStep(c, ValueReplay(c, rows[..|rows| - 1], status), rows[|rows| - 1])
  }

  lemma {:induction false} ReplaySplits(c: Comparison, x: seq<ValueRow>, y: seq<ValueRow>, status: Trigger)
    ensures var first := ValueReplay(c, x, status);
            var second := ValueReplay(c, y, first.status);
            ValueReplay(c, x + y, status) == Replay(second.status, first.alerts + second.alerts)
  {
    if y == [] {
      assert x + y == x;
    } else {
      assert (x + y)[..|x + y| - 1] == x + y[..|y| - 1];
      ReplaySplits(c, x, y[..|y| - 1], status);
    }
  }

  lemma {:induction false} WindowMembers(rows: seq<ValueRow>, a: Date, b: Date, row: ValueRow)
    ensures row in Window(rows, a, b) <==> row in rows && a < row.day <= b
  {
    if rows != [] {
      WindowMembers(rows[..|rows| - 1], a, b, row);
      assert rows == rows[..|rows| - 1] + [rows[|rows| - 1]];
    }
  }

  lemma {:induction false} WindowSplits(rows: seq<ValueRow>, a: Date, b: Date, c: Date)
    requires AscendingRows(rows) && a <= b <= c
    ensures Window(rows, a, c) == Window(rows, a, b) + Window(rows, b, c)
  {
    hide Window, AscendingRows;
    if rows == [] {
      NoRows(a, b);
      NoRows(b, c);
      NoRows(a, c);
    } else {
      var init, row := rows[..|rows| - 1], rows[|rows| - 1];
      InitAscends(rows);
      WindowSplits(init, a, b, c);
      WindowStep(rows, a, b);
      WindowStep(rows, b, c);
      WindowStep(rows, a, c);
      if row.day <= b {
        NothingPast(init, b, c);
      }
      JoinRow(Window(init, a, b), Window(init, b, c), row, a < row.day <= b, b < row.day <= c);
    }
  }

  lemma {:induction false} NoRows(a: Date, b: Date)
    ensures Window([], a, b) == []
  {
  }

  lemma {:induction false} InitAscends(rows: seq<ValueRow>)
    requires AscendingRows(rows) && rows != []
    ensures AscendingRows(rows[..|rows| - 1])
    ensures var init := rows[..|rows| - 1]; forall i :: 0 <= i < |init| ==> init[i].day < rows[|rows| - 1].day
  {
  }

  /** A row that belongs to one of two adjacent lists joins their concatenation at the end. */
  lemma {:induction false} JoinRow(head: seq<ValueRow>, tail: seq<ValueRow>, row: ValueRow, inHead: bool, inTail: bool)
    requires !(inHead && inTail) && (inHead ==> tail == [])
    ensures (if inHead || inTail then head + tail + [row] else head + tail)
         == (if inHead then head + [row] else head) + (if inTail then tail + [row] else tail)
  {
    if inTail {
      assert head + tail + [row] == head + (tail + [row]);
    }
  }

  lemma {:induction false} WindowStep(rows: seq<ValueRow>, a: Date, b: Date)
    requires rows != []
    ensures var init, row := rows[..|rows| - 1], rows[|rows| - 1];
            Window(rows, a, b) == if a < row.day <= b then Window(init, a, b) + [row] else Window(init, a, b)
  {
  }

  lemma {:induction false} NothingPast(rows: seq<ValueRow>, a: Date, b: Date)
    requires forall i :: 0 <= i < |rows| ==> rows[i].day <= a
    ensures Window(rows, a, b) == []
  {
    if rows != [] {
      NothingPast(rows[..|rows| - 1], a, b);
    }
  }

  /** Catching up over a range in one go or in two gives the same alerts and the same final status;
      and no half is refused when the whole is not. */
  lemma {:induction false} CatchUpSplits(
    c: Comparison, rows: seq<ValueRow>, from: Date, mid: Date, to: Date, status: Trigger)
    requires AscendingRows(rows) && from <= mid <= to
    ensures var first := ValueReplay(c, Window(rows, from, mid), status);
            var second := ValueReplay(c, Window(rows, mid, to), first.status);
            ValueReplay(c, Window(rows, from, to), status) == Replay(second.status, first.alerts + second.alerts)
    ensures |Window(rows, from, to)| <= MAX_CATCHUP_ROWS ==>
            |Window(rows, from, mid)| <= MAX_CATCHUP_ROWS && |Window(rows, mid, to)| <= MAX_CATCHUP_ROWS
  {
    WindowSplits(rows, from, mid, to);
    ReplaySplits(c, Window(rows, from, mid), Window(rows, mid, to), status);
  }

  /** The condition did not hold at the last valued row before `i`, nor at the start when there is none. */
  ghost predicate LowBefore(c: Comparison, rows: seq<ValueRow>, status: Trigger, i: nat)
    requires i <= |rows|
  {
    if exists k :: 0 <= k < i && rows[k].value.Some? then
      exists k :: 0 <= k < i && rows[k].value.Some? && !Matches(c, rows[k].value.value)
                  && forall j :: k < j < i ==> rows[j].value.None?
    else status == RESET
  }

  ghost predicate RisingEdge(c: Comparison, rows: seq<ValueRow>, status: Trigger, i: nat)
    requires i < |rows|
  {
    rows[i].value.Some? && Matches(c, rows[i].value.value) && LowBefore(c, rows, status, i)
  }

  lemma {:induction false} StatusIsLevel(c: Comparison, rows: seq<ValueRow>, status: Trigger)
    ensures ValueReplay(c, rows, status).status == RESET <==> LowBefore(c, rows, status, |rows|)
  {
    if rows != [] {
      var init, row := rows[..|rows| - 1], rows[|rows| - 1];
      StatusIsLevel(c, init, status);
      LevelStep(c, rows, status);
    }
  }

  lemma {:induction false} LevelStep(c: Comparison, rows: seq<ValueRow>, status: Trigger)
    requires rows != []
    ensures var init, row := rows[..|rows| - 1], rows[|rows| - 1];
            LowBefore(c, rows, status, |rows|) <==>
            if row.value.Some? then !Matches(c, row.value.value) else LowBefore(c, init, status, |init|)
  {
    var init, row := rows[..|rows| - 1], rows[|rows| - 1];
    hide Matches;
    if row.value.Some? {
      assert rows[|rows| - 1].value.Some?;
    } else {
      SamePrefix(c, rows, status, |init|);
      if k :| 0 <= k < |init| && init[k].value.Some? && !Matches(c, init[k].value.value)
              && forall j :: k < j < |init| ==> init[j].value.None? {
        assert rows[k].value.Some?;
      }
    }
  }

  lemma {:induction false} SamePrefix(c: Comparison, rows: seq<ValueRow>, status: Trigger, i: nat)
    requires i < |rows|
    ensures LowBefore(c, rows[..|rows| - 1], status, i) <==> LowBefore(c, rows, status, i)
  {
    var init := rows[..|rows| - 1];
    assert forall k :: 0 <= k < i ==> init[k] == rows[k];
    hide Matches;
  }

  /** `a` is the alert of a rising edge at row `i` that is not restated. */
  ghost predicate EdgeAlert(c: Comparison, rows: seq<ValueRow>, status: Trigger, i: nat, a: Alert)
    requires i < |rows|
  {
    RisingEdge(c, rows, status, i) && !Restated(rows[i]) && a == Alert(rows[i].day, rows[i].value, None)
  }

  lemma {:induction false} EarlierEdge(c: Comparison, rows: seq<ValueRow>, status: Trigger, i: nat, a: Alert)
    requires i < |rows| - 1
    ensures EdgeAlert(c, rows[..|rows| - 1], status, i, a) <==> EdgeAlert(c, rows, status, i, a)
  {
    SamePrefix(c, rows, status, i);
    hide LowBefore, Matches;
  }

  lemma {:induction false} LastEdge(c: Comparison, rows: seq<ValueRow>, status: Trigger, a: Alert)
    requires rows != []
    ensures var init, n := rows[..|rows| - 1], |rows| - 1;
            a in ValueReplay(c, rows, status).alerts <==>
            a in ValueReplay(c, init, status).alerts || EdgeAlert(c, rows, status, n, a)
  {
    StatusIsLevel(c, rows[..|rows| - 1], status);
    SamePrefix(c, rows, status, |rows| - 1);
    ReplayStep(c, rows, status);
    hide LowBefore, Matches, ValueReplay, Restated;
  }

  /** The alerts are exactly the rising edges that are not restated. */
  lemma {:induction false} AlertsAreRisingEdges(c: Comparison, rows: seq<ValueRow>, status: Trigger, a: Alert)
    ensures a in ValueReplay(c, rows, status).alerts <==>
            exists i :: 0 <= i < |rows| && EdgeAlert(c, rows, status, i, a)
  {
    if rows != [] {
      var init, n := rows[..|rows| - 1], |rows| - 1;
      AlertsAreRisingEdges(c, init, status, a);
      LastEdge(c, rows, status, a);
      hide EdgeAlert, ValueReplay;
      forall i | 0 <= i < n ensures EdgeAlert(c, init, status, i, a) <==> EdgeAlert(c, rows, status, i, a) {
        EarlierEdge(c, rows, status, i, a);
      }
    }
  }

  lemma {:induction false} ReplayStep(c: Comparison, rows: seq<ValueRow>, status: Trigger)
    requires rows != []
    ensures ValueReplay(c, rows, status) == ValueStep(c, ValueReplay(c, rows[..|rows| - 1], status), rows[|rows| - 1])
  {
  }

  ghost predicate StrictDays(alerts: seq<Alert>) {
    forall i, j :: 0 <= i < j < |alerts| ==> alerts[i].day < alerts[j].day
  }

  /** Alerts of ascending rows have ascending days inside the rows' range. */
  lemma {:induction false} ValueAlertDays(c: Comparison, rows: seq<ValueRow>, status: Trigger, a: Date, b: Date)
    requires AscendingRows(rows) && forall i :: 0 <= i < |rows| ==> a < rows[i].day <= b
    ensures var alerts := ValueReplay(c, rows, status).alerts;
            StrictDays(alerts) && forall i :: 0 <= i < |alerts| ==> a < alerts[i].day <= b && alerts[i].event.None?
  {
    if rows != [] {
      var init, row := rows[..|rows| - 1], rows[|rows| - 1];
      ValueAlertDays(c, init, status, a, row.day - 1);
      ReplayStep(c, rows, status);
      hide ValueReplay, Matches;
    }
  }

  // ---------------------------------------------------------------------------------------
  // State conditions

  /** The events a catch-up reads: valid ones of its target, in the day range, past the cursor. */
  function Pending(events: seq<Event>, t: Target, after: Date, last: Date, consumed: nat): (r: seq<Event>) {
    if events == [] then []
    else
      var e := events[|events| - 1];
      Pending(events[..|events| - 1], t, after, last, consumed)
      + if e.valid && e.change.target == t && after < e.change.day <= last && consumed < e.number then [e] else []
  }

  predicate IsLiveEnter(e: Event) { e.change.kind == Enter && !e.restated }

  function AlertOf(e: Event): Alert { Alert(e.change.day, None, Some(e.number)) }

  function StateStep(edgeMode: bool, r: Replay, e: Event): (n: Replay) {
    if e.change.fact.status == Unknown then r
    else
      var enter := IsLiveEnter(e);
      var satisfied := if edgeMode then enter else e.change.fact.status == Active;
      var next := Evaluate(satisfied, if enter then RESET else r.status);
      Replay(next.status, if enter then r.alerts + [AlertOf(e)] else r.alerts)
  }

  function StateReplay(edgeMode: bool, events: seq<Event>, status: Trigger): (r: Replay) {
    if events == [] then Replay(status, [])
    else StateStep(edgeMode, StateReplay(edgeMode, events[..|events| - 1], status), events[|events| - 1])
  }

  /** The alerts of every valid live ENTER event of a target dated after a day. */
  function EntersAfter(events: seq<Event>, t: Target, after: Date): (r: seq<Alert>) {
    if events == [] then []
    else
      var e := events[|events| - 1];
      EntersAfter(events[..|events| - 1], t, after)
      + if e.valid && e.change.target == t && after < e.change.day && IsLiveEnter(e) then [AlertOf(e)] else []
  }

  /** Everything up to the cursor was seen, and nothing of the target lies past `last`. */
  ghost predicate Seen(events: seq<Event>, t: Target, after: Date, last: Date, consumed: nat) {
    forall e :: e in events && e.valid && e.change.target == t ==>
      e.change.day <= last && (e.number <= consumed ==> e.change.day <= after)
  }

  /** A catch-up alerts exactly the valid live ENTER events dated after the last evaluated day. */
  lemma {:induction false} CatchUpIsExact(
    edgeMode: bool, events: seq<Event>, t: Target, after: Date, last: Date, consumed: nat, status: Trigger)
    requires EntersActive(events) && Seen(events, t, after, last, consumed)
    ensures StateReplay(edgeMode, Pending(events, t, after, last, consumed), status).alerts
         == EntersAfter(events, t, after)
  {
    if events != [] {
      var init, e := events[..|events| - 1], events[|events| - 1];
      assert e in events;
      CatchUpIsExact(edgeMode, init, t, after, last, consumed, status);
      var head := Pending(init, t, after, last, consumed);
      if e.valid && e.change.target == t && after < e.change.day {
        assert Pending(events, t, after, last, consumed) == head + [e];
        ReplayOneMore(edgeMode, head, e, status);
      } else {
        assert Pending(events, t, after, last, consumed) == head;
      }
      hide Pending, StateReplay;
    }
  }

  lemma {:induction false} ReplayOneMore(edgeMode: bool, events: seq<Event>, e: Event, status: Trigger)
    requires e.change.kind == Enter ==> e.change.fact.status == Active
    ensures StateReplay(edgeMode, events + [e], status).alerts
         == StateReplay(edgeMode, events, status).alerts + if IsLiveEnter(e) then [AlertOf(e)] else []
  {
    assert (events + [e])[..|events|] == events;
  }

  lemma {:induction false} EntersAfterMembers(events: seq<Event>, t: Target, after: Date, a: Alert)
    ensures a in EntersAfter(events, t, after) <==>
            exists e :: e in events && e.valid && e.change.target == t && after < e.change.day && IsLiveEnter(e)
                        && a == AlertOf(e)
  {
    if events != [] {
      EntersAfterMembers(events[..|events| - 1], t, after, a);
      assert events == events[..|events| - 1] + [events[|events| - 1]];
    }
  }
}
