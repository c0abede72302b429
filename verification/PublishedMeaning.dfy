/** What a clean published timeline says of the present snapshots, bars and calendar. */
module PublishedMeaning {
  import opened Common
  import opened States
  import opened Timeline
  import opened EventLog
  import opened Recognition
  import opened Restart
  import opened Rebuild
  import opened Snapshots
  import opened Publication
  import opened PublicationTimeline
  import opened KnownTargets
  import opened Judgements
  import LogHistory
  import StoredRows

  /** What recognition looks at: a day is offered exactly when it has rows, as the projection of the variants
      stored for it, and its close is that of its bar. */
  lemma {:induction false} WorldIsTables(e: Setting, rows: Rows, bars: seq<Bar>, d: Date)
    requires Ordered(bars)
    ensures var w := WorldOf(e, rows, bars);
            && w.calendar == e.calendar && w.rules == e.rules
            && (d in w.snaps <==> exists t :: (d, t) in rows)
            && (d in w.snaps ==>
                  exists day: DayRow :: w.snaps[d] == e.project(day)
                                        && forall t :: Get(day, t) == Content(rows, d, t))
            && (forall close :: Get(w.closes, d) == Some(close)
                  <==> exists b :: b in bars && b.day == d && b.candle.close == close)
  {
    SnapOf(e, rows, bars, d);
    CloseAt(bars, d);
    hide Closes, CloseOn;
    assert forall t :: Get(RowsOn(rows, d), t) == Content(rows, d, t);
    forall close ensures Get(Closes(bars), d) == Some(close)
                         <==> exists b :: b in bars && b.day == d && b.candle.close == close {
      CloseIsOfBar(bars, d, close);
    }
  }

  lemma {:induction false} CloseIsOfBar(bars: seq<Bar>, d: Date, close: real)
    requires Ordered(bars)
    ensures CloseOn(Upto(bars, d), d) == Some(close) <==> exists b :: b in bars && b.day == d && b.candle.close == close
  {
    hide *;
    var u := Upto(bars, d);
    if b :| b in bars && b.day == d && b.candle.close == close {
      BarIsLast(bars, d, b);
    }
    if CloseOn(u, d) == Some(close) {
      LastIsBar(bars, d, close);
    }
  }

  lemma {:induction false} BarIsLast(bars: seq<Bar>, d: Date, b: Bar)
    requires Ordered(bars) && b in bars && b.day == d
    ensures CloseOn(Upto(bars, d), d) == Some(b.candle.close)
  {
    hide Upto, Ordered;
    var i :| 0 <= i < |bars| && bars[i] == b;
    UptoAt(bars, i);
    assert bars[..i + 1][i] == b;
  }

  lemma {:induction false} LastIsBar(bars: seq<Bar>, d: Date, close: real)
    requires Ordered(bars) && CloseOn(Upto(bars, d), d) == Some(close)
    ensures exists b :: b in bars && b.day == d && b.candle.close == close
  {
    UptoOrdered(bars, d);
    hide Upto, Ordered;
    var u := Upto(bars, d);
    var b := u[|u| - 1];
    assert b in u;
  }

  /** The history a clean stream's log represents. */
  lemma {:induction false} CleanHistory(e: Setting, steps: seq<Step>)
    returns (dates: seq<Date>, history: seq<Observation>)
    requires AllowedRun(e, INITIAL, steps) && RestartableRun(e, INITIAL, steps)
    requires After(INITIAL, steps).stream.dirtyFrom.None?
    ensures var s := After(INITIAL, steps); var w := WorldOf(e, s.rows, s.bars);
            DatesOf(w, dates) && Represents(s.log, history) && Lists(history, AllRows(w, NO_MEMO, dates))
  {
    CleanTimelineIsFresh(e, steps);
    hide After, AllowedRun, RestartableRun, WorldOf, Represents, DatesOf, Lists;
    var s := After(INITIAL, steps);
    dates, history :| DatesOf(WorldOf(e, s.rows, s.bars), dates) && Represents(s.log, history)
      && Lists(history, AllRows(WorldOf(e, s.rows, s.bars), NO_MEMO, dates));
  }

  /** Every interleaving with sound restarts: the last event of a clean stream at or before a day that offers
      a target is ACTIVE exactly when the evaluator calls the target active on the present snapshots of that
      day and of its proven predecessor, INACTIVE exactly when it calls it inactive, and else UNKNOWN. */
  lemma {:induction false} CleanStatusIsSignal(e: Setting, steps: seq<Step>, d: Date, t: Target)
    requires AllowedRun(e, INITIAL, steps) && RestartableRun(e, INITIAL, steps)
    requires After(INITIAL, steps).stream.dirtyFrom.None?
    requires var s := After(INITIAL, steps); var w := WorldOf(e, s.rows, s.bars);
             d in w.snaps && t in w.snaps[d].current
    ensures var s := After(INITIAL, steps);
            var w, r := WorldOf(e, s.rows, s.bars), RankOne(s.log.events, t, d);
            && r.Some?
            && (r.value.change.fact.status == Active <==> exists edge :: Signals(w, d, t, true, edge))
            && (r.value.change.fact.status == Inactive <==> exists edge :: Signals(w, d, t, false, edge))
  {
    var dates, history := CleanHistory(e, steps);
    hide After, AllowedRun, RestartableRun, WorldOf, Represents, AllRows, RankOne, Signals, StrictlySorted;
    var s := After(INITIAL, steps);
    var w := WorldOf(e, s.rows, s.bars);
    assert d in dates;
    RowPresent(w, NO_MEMO, dates, d, t);
    var o :| o in AllRows(w, NO_MEMO, dates) && o.day == d && o.target == t;
    StatusIsSignal(w, dates, o);
    LogHistory.Decodes(s.log, history, o);
  }

  /** Every valid ACTIVE event of a clean stream stands on a day that offers its target, on which the
      evaluator calls it active. */
  lemma {:induction false} CleanActivesAreSignals(e: Setting, steps: seq<Step>, event: Event)
    requires AllowedRun(e, INITIAL, steps) && RestartableRun(e, INITIAL, steps)
    requires After(INITIAL, steps).stream.dirtyFrom.None?
    requires event in After(INITIAL, steps).log.events && event.valid && event.change.fact.status == Active
    ensures var s := After(INITIAL, steps);
            var w, d, t := WorldOf(e, s.rows, s.bars), event.change.day, event.change.target;
            d in w.snaps && t in w.snaps[d].current && exists edge :: Signals(w, d, t, true, edge)
  {
    var dates, history := CleanHistory(e, steps);
    hide After, AllowedRun, RestartableRun, WorldOf, AllRows, Signals, StrictlySorted, ValidChanges, FoldChanges;
    var s := After(INITIAL, steps);
    ValidIn(s.log.events, event);
    StoredRows.ChangeIsObservation(map[], history, event.change);
    var o :| o in history && o.day == event.change.day && o.target == event.change.target
             && o.status == event.change.fact.status;
    StatusIsSignal(WorldOf(e, s.rows, s.bars), dates, o);
  }
}
