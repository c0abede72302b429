/** What a recognized row says, in terms of the evaluators, the calendar and earlier rows. */
module Judgements {
  import opened Common
  import opened States
  import opened Calendar
  import opened Recognition
  import opened Restart
  import opened Rebuild

  // ---------------------------------------------------------------------------------------
  // What there is to see on a day

  /** `p` is the proven previous trading day of `d`, and the target can be looked back on there. */
  ghost predicate LooksBack(w: World, d: Date, t: Target, p: Date) {
    PreviousOpen(w.calendar, d) == Some(p) && p in w.snaps && t in w.snaps[p].lookback
  }

  /** The evaluator's answer on the day's reading and the one of the proven previous day. */
  ghost predicate Answers(w: World, d: Date, t: Target, p: Date, s: Signal)
    requires d in w.snaps && t in w.snaps[d].current
  {
    && LooksBack(w, d, t, p)
    && s == w.rules.signal(t, w.snaps[d].current[t], w.snaps[p].lookback[t], Get(w.closes, d), Get(w.closes, p))
  }

  ghost predicate Signals(w: World, d: Date, t: Target, active: bool, edge: bool)
    requires d in w.snaps && t in w.snaps[d].current
  {
    exists p :: Answers(w, d, t, p, Signal(active, edge))
  }

  /** The looked-back reading was active by its own previous values. */
  ghost predicate WasActiveBefore(w: World, t: Target, reading: Reading) {
    reading.previousValues.Some?
    && exists edge :: w.rules.signal(t, reading, Reading(reading.previousValues.value, None), None, None)
                      == Signal(true, edge)
  }

  // ---------------------------------------------------------------------------------------
  // The status remembered for a day is that of its row

  lemma {:induction false} NoRowNoStatus(w: World, m: Memo, d: Date, previous: Option<Date>, p: Date, t: Target)
    requires d in w.snaps && p != d
    ensures Get(DayMemo(w, m, d, previous).status, (p, t)) == Get(m.status, (p, t))
  {
    hide DayRows, Bits;
  }

  lemma {:induction false} OwnStatus(w: World, m: Memo, d: Date, previous: Option<Date>, t: Target)
    requires d in w.snaps && t in DayRows(w, m, d, previous)
    ensures Get(DayMemo(w, m, d, previous).status, (d, t)) == Some(DayRows(w, m, d, previous)[t].status)
  {
    hide DayRows, Bits;
  }

  lemma {:induction false} RowIn(w: World, m: Memo, dates: seq<Date>, t: Target)
    requires Offered(w, dates) && dates != [] && Offered(w, dates[..|dates| - 1])
    requires var d := dates[|dates| - 1]; t in DayRows(w, MemoAfter(w, m, dates[..|dates| - 1]), d, Pred(w, d))
    ensures var d := dates[|dates| - 1];
            DayRows(w, MemoAfter(w, m, dates[..|dates| - 1]), d, Pred(w, d))[t] in AllRows(w, m, dates)
  {
    hide MemoAfter, DayRows, PreviousOpen;
  }

  /** After a run the status on record for a row's day and target is the row's. */
  lemma {:induction false} StatusOfRow(w: World, dates: seq<Date>, o: Observation)
    requires Offered(w, dates) && o in AllRows(w, NO_MEMO, dates)
    ensures Get(MemoAfter(w, NO_MEMO, dates).status, (o.day, o.target)) == Some(o.status)
    ensures o.target in MemoAfter(w, NO_MEMO, dates).known
  {
    if dates == [] {
      NoDays(w, NO_MEMO);
    } else {
      LastStep(w, NO_MEMO, dates);
      var init, d := dates[..|dates| - 1], dates[|dates| - 1];
      var m := MemoAfter(w, NO_MEMO, init);
      var rows := DayRows(w, m, d, Pred(w, d));
      RowBelongs(w, NO_MEMO, init, d, rows, o);
      hide AllRows, MemoAfter, DayRows, PreviousOpen, DayMemo;
      RowTargetsKnown(w, dates, o);
      if o.day == d {
        OwnStatus(w, m, d, Pred(w, d), o.target);
      } else {
        StatusOfRow(w, init, o);
        NoRowNoStatus(w, m, d, Pred(w, d), o.day, o.target);
      }
    }
  }

  lemma {:induction false} NoRowMeansNoStatus(w: World, dates: seq<Date>, p: Date, t: Target)
    requires Offered(w, dates) && !exists o :: o in AllRows(w, NO_MEMO, dates) && o.day == p && o.target == t
    ensures Get(MemoAfter(w, NO_MEMO, dates).status, (p, t)) == None
  {
    if dates != [] {
      LastStep(w, NO_MEMO, dates);
      var init, d := dates[..|dates| - 1], dates[|dates| - 1];
      var m := MemoAfter(w, NO_MEMO, init);
      var rows := DayRows(w, m, d, Pred(w, d));
      hide AllRows, MemoAfter, DayRows, PreviousOpen, DayMemo;
      NoRowMeansNoStatus(w, init, p, t);
      if p == d {
        PastAfter(w, NO_MEMO, init, d);
        DayMemoFacts(w, m, d, Pred(w, d), t);
        if t in rows {
          DayRowShape(w, m, d, Pred(w, d), t);
          RowIn(w, NO_MEMO, dates, t);
        }
      } else {
        NoRowNoStatus(w, m, d, Pred(w, d), p, t);
      }
    }
  }

  // ---------------------------------------------------------------------------------------
  // Finding the judgement behind a row

  /** The days of a run before one of them. */
  lemma {:induction false} Earlier(w: World, dates: seq<Date>, k: nat)
    requires Offered(w, dates) && k < |dates|
    ensures Offered(w, dates[..k]) && Offered(w, dates[..k + 1]) && dates[..k + 1][..k] == dates[..k]
    ensures dates[k] in w.snaps && forall i :: 0 <= i < k ==> dates[i] < dates[k]
  {
  }

  /** A row of a run belongs to the run's day of that date. */
  lemma {:induction false} RowOfDay(w: World, dates: seq<Date>, o: Observation) returns (k: nat)
    requires Offered(w, dates) && o in AllRows(w, NO_MEMO, dates)
    ensures k < |dates| && dates[k] == o.day && Offered(w, dates[..k])
    ensures var rows := DayRows(w, MemoAfter(w, NO_MEMO, dates[..k]), o.day, Pred(w, o.day));
            o.target in rows && rows[o.target] == o
    ensures forall x :: x in AllRows(w, NO_MEMO, dates) && x.day < o.day ==> x in AllRows(w, NO_MEMO, dates[..k])
    ensures forall x :: x in AllRows(w, NO_MEMO, dates[..k]) ==> x in AllRows(w, NO_MEMO, dates)
  {
    hide AllRows, MemoAfter, DayRows, PreviousOpen, RowSet, DayMemo;
    NoDays(w, NO_MEMO);
    LastStep(w, NO_MEMO, dates);
    var init, d := dates[..|dates| - 1], dates[|dates| - 1];
    var rows := DayRows(w, MemoAfter(w, NO_MEMO, init), d, Pred(w, d));
    RowBelongs(w, NO_MEMO, init, d, rows, o);
    forall x | x in AllRows(w, NO_MEMO, dates) ensures x.day < d ==> x in AllRows(w, NO_MEMO, init) {
      RowBelongs(w, NO_MEMO, init, d, rows, x);
    }
    if o.day == d {
      k := |init|;
      assert dates[..k] == init;
    } else {
      k := RowOfDay(w, init, o);
      assert init[..k] == dates[..k];
      assert o.day < d;
    }
  }

  lemma {:induction false} JudgedRow(w: World, m: Memo, d: Date, previous: Option<Date>, t: Target)
    requires d in w.snaps && t in DayRows(w, m, d, previous)
    ensures DayRows(w, m, d, previous)[t]
         == if t in w.snaps[d].current then Judge(w, m, d, previous, t, w.snaps[d].current[t]) else Fill(d, t)
  {
    hide Judge;
  }

  // ---------------------------------------------------------------------------------------
  // Statuses

  lemma {:induction false} JudgeStatus(w: World, m: Memo, d: Date, t: Target)
    requires d in w.snaps && t in w.snaps[d].current
    ensures var o := Judge(w, m, d, Pred(w, d), t, w.snaps[d].current[t]);
            && (o.status == Active <==> exists edge :: Signals(w, d, t, true, edge))
            && (o.status == Inactive <==> exists edge :: Signals(w, d, t, false, edge))
  {
    hide PreviousOpen, InferPreviousActive;
    var o := Judge(w, m, d, Pred(w, d), t, w.snaps[d].current[t]);
    if Pred(w, d).Some? && LooksBack(w, d, t, Pred(w, d).value) {
      var p := Pred(w, d).value;
      var s := w.rules.signal(t, w.snaps[d].current[t], w.snaps[p].lookback[t], Get(w.closes, d), Get(w.closes, p));
      if s.Signal? {
        assert Answers(w, d, t, p, Signal(s.active, s.edge));
        assert Signals(w, d, t, s.active, s.edge);
      }
    }
  }

  /** Every row of a run from scratch. An offered target is ACTIVE exactly when the previous trading day is
      proved, the target can be looked back on there and the evaluator calls it active; INACTIVE exactly when
      it calls it inactive; else UNKNOWN. A target that the day does not offer is UNKNOWN without an edge. */
  lemma {:induction false} StatusIsSignal(w: World, dates: seq<Date>, o: Observation)
    requires Offered(w, dates) && o in AllRows(w, NO_MEMO, dates)
    ensures o.day in w.snaps
    ensures o.target in w.snaps[o.day].current ==>
              && (o.status == Active <==> exists edge :: Signals(w, o.day, o.target, true, edge))
              && (o.status == Inactive <==> exists edge :: Signals(w, o.day, o.target, false, edge))
    ensures o.target !in w.snaps[o.day].current ==>
              && o.status == Unknown && !o.transition
              && o.detail == Unproven(MissingCurrentIndicator, None, None)
  {
    hide AllRows, MemoAfter, DayRows, PreviousOpen, Judge;
    var k := RowOfDay(w, dates, o);
    var m := MemoAfter(w, NO_MEMO, dates[..k]);
    JudgedRow(w, m, o.day, Pred(w, o.day), o.target);
    if o.target in w.snaps[o.day].current {
      JudgeStatus(w, m, o.day, o.target);
    }
  }

  lemma {:induction false} JudgeDetail(w: World, m: Memo, d: Date, t: Target)
    requires d in w.snaps && t in w.snaps[d].current
    ensures DetailFits(w, Judge(w, m, d, Pred(w, d), t, w.snaps[d].current[t]))
  {
    hide PreviousOpen, InferPreviousActive;
  }

  /** The metadata of an offered row: both readings and prices when it was evaluated, else why it was not. */
  ghost predicate DetailFits(w: World, o: Observation)
    requires o.day in w.snaps && o.target in w.snaps[o.day].current
  {
    var reading, previous := w.snaps[o.day].current[o.target], PreviousOpen(w.calendar, o.day);
    match o.detail
    case Evaluated(current, before, price, previousPrice) =>
      && o.status != Unknown && current == reading && price == Get(w.closes, o.day)
      && previous.Some? && LooksBack(w, o.day, o.target, previous.value)
      && before == w.snaps[previous.value].lookback[o.target] && previousPrice == Get(w.closes, previous.value)
    case Unproven(reason, shown, expected) =>
      && o.status == Unknown && !o.transition && shown == Some(reading) && expected == previous
      && (reason == CalendarUnavailable <==> previous.None?)
      && (reason == MissingPreviousDay <==> previous.Some? && !LooksBack(w, o.day, o.target, previous.value))
      && (forall code :: reason == Refused(code) <==>
            previous.Some? && Answers(w, o.day, o.target, previous.value, Refusal(code)))
  }

  /** Every offered row of a run from scratch says what it was judged from, or why it was not. */
  lemma {:induction false} DetailIsReason(w: World, dates: seq<Date>, o: Observation)
    requires Offered(w, dates) && o in AllRows(w, NO_MEMO, dates)
    requires o.day in w.snaps && o.target in w.snaps[o.day].current
    ensures DetailFits(w, o)
  {
    hide AllRows, MemoAfter, DayRows, PreviousOpen, Judge, DetailFits;
    var k := RowOfDay(w, dates, o);
    var m := MemoAfter(w, NO_MEMO, dates[..k]);
    JudgedRow(w, m, o.day, Pred(w, o.day), o.target);
    JudgeDetail(w, m, o.day, o.target);
  }

  // ---------------------------------------------------------------------------------------
  // Transitions

  lemma {:induction false} JudgeTransition(w: World, m: Memo, d: Date, t: Target, p: Date)
    requires d in w.snaps && t in w.snaps[d].current && Pred(w, d) == Some(p)
    requires Get(m.status, (p, t)) == None ==> t !in m.lastActive
    ensures var o, prior := Judge(w, m, d, Pred(w, d), t, w.snaps[d].current[t]), Get(m.status, (p, t));
            o.transition <==>
            && Signals(w, d, t, true, true)
            && (if prior.Some? then prior.value != Active && (w.rules.edgeMode(t) || prior.value == Inactive)
                else w.rules.edgeMode(t) && !WasActiveBefore(w, t, w.snaps[p].lookback[t]))
  {
    hide PreviousOpen;
    if LooksBack(w, d, t, p) {
      var s := w.rules.signal(t, w.snaps[d].current[t], w.snaps[p].lookback[t], Get(w.closes, d), Get(w.closes, p));
      assert s == Signal(true, true) ==> Answers(w, d, t, p, Signal(true, true));
      Inferred(w, t, w.snaps[p].lookback[t]);
      hide InferPreviousActive, WasActiveBefore;
    }
  }

  lemma {:induction false} Inferred(w: World, t: Target, reading: Reading)
    ensures InferPreviousActive(w.rules, t, reading) <==> WasActiveBefore(w, t, reading)
  {
  }

  /** Every offered row of a run from scratch whose target has a row on the proven previous trading day is a
      transition exactly when the evaluator calls it active with an edge, that row is not ACTIVE, and the
      target triggers on edges or that row is INACTIVE. */
  lemma {:induction false} TransitionIsProven(w: World, dates: seq<Date>, o: Observation, before: Observation)
    requires Offered(w, dates) && o in AllRows(w, NO_MEMO, dates) && before in AllRows(w, NO_MEMO, dates)
    requires o.day in w.snaps && o.target in w.snaps[o.day].current
    requires PreviousOpen(w.calendar, o.day) == Some(before.day) && before.target == o.target
    ensures o.transition <==> Signals(w, o.day, o.target, true, true) && before.status != Active
                              && (w.rules.edgeMode(o.target) || before.status == Inactive)
  {
    hide AllRows, MemoAfter, DayRows, Judge, Signals;
    PreviousOpenIsProved(w.calendar, o.day, before.day);
    hide PreviousOpen;
    var k := RowOfDay(w, dates, o);
    var m := MemoAfter(w, NO_MEMO, dates[..k]);
    StatusOfRow(w, dates[..k], before);
    JudgedRow(w, m, o.day, Pred(w, o.day), o.target);
    JudgeTransition(w, m, o.day, o.target, before.day);
  }

  /** Without such a row the target must trigger on edges, and the reading looked back on must not have been
      active by its own previous values; the edge bits of the process never decide. */
  lemma {:induction false} TransitionWithoutRow(w: World, dates: seq<Date>, o: Observation)
    requires DatesOf(w, dates) && o in AllRows(w, NO_MEMO, dates)
    requires o.day in w.snaps && o.target in w.snaps[o.day].current
    requires !exists x :: x in AllRows(w, NO_MEMO, dates) && PreviousOpen(w.calendar, o.day) == Some(x.day)
                          && x.target == o.target
    ensures o.transition <==>
            exists p :: Answers(w, o.day, o.target, p, Signal(true, true)) && w.rules.edgeMode(o.target)
                        && !WasActiveBefore(w, o.target, w.snaps[p].lookback[o.target])
  {
    hide AllRows, MemoAfter, DayRows, Judge, WasActiveBefore, PreviousOpen;
    var k := RowOfDay(w, dates, o);
    var m, d, t := MemoAfter(w, NO_MEMO, dates[..k]), o.day, o.target;
    JudgedRow(w, m, d, Pred(w, d), t);
    if Pred(w, d).None? {
      NoTransition(w, m, d, t);
    } else {
      var p := Pred(w, d).value;
      NoRowMeansNoStatus(w, dates[..k], p, t);
      if LooksBack(w, d, t, p) {
        UnknownBefore(w, dates, k, p, t);
        JudgeTransition(w, m, d, t, p);
      } else {
        NoTransition(w, m, d, t);
      }
    }
  }

  lemma {:induction false} NoTransition(w: World, m: Memo, d: Date, t: Target)
    requires d in w.snaps && t in w.snaps[d].current
    requires Pred(w, d).Some? ==> !LooksBack(w, d, t, Pred(w, d).value)
    ensures !Judge(w, m, d, Pred(w, d), t, w.snaps[d].current[t]).transition
  {
    hide PreviousOpen, InferPreviousActive;
  }

  /** Only days with a proved predecessor leave edge bits, of targets that are then known. */
  lemma {:induction false} BitsNeedOpenDays(w: World, dates: seq<Date>, t: Target) returns (i: nat)
    requires Offered(w, dates) && t in MemoAfter(w, NO_MEMO, dates).lastActive
    ensures i < |dates| && Pred(w, dates[i]).Some? && Offered(w, dates[..i + 1])
    ensures t in MemoAfter(w, NO_MEMO, dates[..i + 1]).known
  {
    hide MemoAfter, PreviousOpen, DayMemo;
    NoDaysNoMemo(w);
    LastStep(w, NO_MEMO, dates);
    var init, d := dates[..|dates| - 1], dates[|dates| - 1];
    var m := MemoAfter(w, NO_MEMO, init);
    if t in m.lastActive {
      i := BitsNeedOpenDays(w, init, t);
      assert init[..i + 1] == dates[..i + 1];
    } else {
      BitOfDay(w, m, d, t);
      i := |init|;
      assert dates[..i + 1] == dates;
    }
  }

  lemma {:induction false} NoDaysNoMemo(w: World)
    ensures MemoAfter(w, NO_MEMO, []) == NO_MEMO
  {
  }

  lemma {:induction false} BitOfDay(w: World, m: Memo, d: Date, t: Target)
    requires d in w.snaps && t in DayMemo(w, m, d, Pred(w, d)).lastActive && t !in m.lastActive
    ensures Pred(w, d).Some? && t in DayMemo(w, m, d, Pred(w, d)).known
  {
    hide PreviousOpen, Judge;
    assert t in Bits(w, d, Pred(w, d));
  }

  /** Known targets stay known, and have a row on the last day. */
  lemma {:induction false} KnownStays(w: World, dates: seq<Date>, i: nat, t: Target)
    requires Offered(w, dates) && i <= |dates| && Offered(w, dates[..i])
    requires t in MemoAfter(w, NO_MEMO, dates[..i]).known
    ensures t in MemoAfter(w, NO_MEMO, dates).known
  {
    hide MemoAfter, DayMemo, PreviousOpen;
    if i == |dates| {
      assert dates[..i] == dates;
    } else {
      LastStep(w, NO_MEMO, dates);
      var init, d := dates[..|dates| - 1], dates[|dates| - 1];
      assert init[..i] == dates[..i];
      KnownStays(w, init, i, t);
      KnownGrow(w, MemoAfter(w, NO_MEMO, init), d, t);
    }
  }

  lemma {:induction false} KnownGrow(w: World, m: Memo, d: Date, t: Target)
    requires d in w.snaps && t in m.known
    ensures t in DayMemo(w, m, d, Pred(w, d)).known
  {
    hide DayRows, Bits, PreviousOpen;
  }

  /** A target without a row on the proven previous trading day has left no edge bit. */
  lemma {:induction false} UnknownBefore(w: World, dates: seq<Date>, k: nat, p: Date, t: Target)
    requires DatesOf(w, dates) && k < |dates| && Offered(w, dates[..k])
    requires Pred(w, dates[k]) == Some(p) && p in w.snaps
    requires !exists o :: o in AllRows(w, NO_MEMO, dates) && o.day == p && o.target == t
    ensures t !in MemoAfter(w, NO_MEMO, dates[..k]).lastActive
  {
    hide AllRows, MemoAfter;
    var head := dates[..k];
    if t in MemoAfter(w, NO_MEMO, head).lastActive {
      var i := BitsNeedOpenDays(w, head, t);
      assert head[..i + 1] == dates[..i + 1];
      var j := OpenDayBefore(w, dates, k, p, i);
      Earlier(w, dates, j);
      assert dates[..j + 1][..i + 1] == dates[..i + 1];
      KnownStays(w, dates[..j + 1], i + 1, t);
      LastDayRows(w, dates[..j + 1], t);
      var o :| o in AllRows(w, NO_MEMO, dates[..j + 1]) && o.day == p && o.target == t;
      RowsGrow(w, dates, j + 1, o);
    }
  }

  /** An open day of a run before another one is not after the proven predecessor of that one. */
  lemma {:induction false} OpenDayBefore(w: World, dates: seq<Date>, k: nat, p: Date, i: nat) returns (j: nat)
    requires DatesOf(w, dates) && i < k < |dates| && Pred(w, dates[k]) == Some(p) && p in w.snaps
    requires Pred(w, dates[i]).Some?
    ensures i <= j < |dates| && dates[j] == p
  {
    PreviousOpenIsProved(w.calendar, dates[k], p);
    PreviousOpenIsProved(w.calendar, dates[i], Pred(w, dates[i]).value);
    hide PreviousOpen;
    assert p in dates;
    j :| 0 <= j < |dates| && dates[j] == p;
    assert dates[i] < dates[k];
  }

  lemma {:induction false} RowsGrow(w: World, dates: seq<Date>, n: nat, o: Observation)
    requires Offered(w, dates) && n <= |dates| && Offered(w, dates[..n]) && o in AllRows(w, NO_MEMO, dates[..n])
    ensures o in AllRows(w, NO_MEMO, dates)
  {
    hide AllRows, MemoAfter, PreviousOpen, DayRows;
    if n == |dates| {
      assert dates[..n] == dates;
    } else {
      LastStep(w, NO_MEMO, dates);
      var init := dates[..|dates| - 1];
      assert init[..n] == dates[..n];
      RowsGrow(w, init, n, o);
    }
  }
}
