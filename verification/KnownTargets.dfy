/** Which targets a run knows: those that one of its days has offered. */
module KnownTargets {
  import opened Common
  import opened States
  import opened Calendar
  import opened Recognition
  import opened Restart

  lemma {:induction false} DayTargets(w: World, m: Memo, d: Date, previous: Option<Date>, t: Target)
    requires d in w.snaps
    ensures t in DayRows(w, m, d, previous) <==> t in w.snaps[d].current || t in m.known
    ensures DayMemo(w, m, d, previous).known == m.known + DayRows(w, m, d, previous).Keys
  {
    hide Judge, Bits;
  }

  lemma {:induction false} InitOrLast(dates: seq<Date>, d: Date)
    requires dates != []
    ensures d in dates <==> d in dates[..|dates| - 1] || d == dates[|dates| - 1]
  {
    assert dates == dates[..|dates| - 1] + [dates[|dates| - 1]];
  }

  lemma {:induction false} RowPresent(w: World, m: Memo, dates: seq<Date>, d: Date, t: Target)
    requires Offered(w, dates) && d in dates && t in w.snaps[d].current
    ensures exists o :: o in AllRows(w, m, dates) && o.day == d && o.target == t
  {
    hide AllRows, MemoAfter, PreviousOpen, DayRows, DayMemo;
    LastStep(w, m, dates);
    InitOrLast(dates, d);
    var init, last := dates[..|dates| - 1], dates[|dates| - 1];
    if d == last {
      var rows := DayRows(w, MemoAfter(w, m, init), d, Pred(w, d));
      DayTargets(w, MemoAfter(w, m, init), d, Pred(w, d), t);
      DayRowShape(w, MemoAfter(w, m, init), d, Pred(w, d), t);
      assert rows[t] in RowSet(rows);
    } else {
      RowPresent(w, m, init, d, t);
    }
  }

  /** `t` was offered on one of the days, at or before `limit`. */
  ghost predicate OfferedBy(w: World, dates: seq<Date>, limit: Date, t: Target) {
    exists d :: d in dates && d <= limit && d in w.snaps && t in w.snaps[d].current
  }

  /** A run knows what its memo knew and what its days offered. */
  lemma {:induction false} KnownAre(w: World, m: Memo, dates: seq<Date>, limit: Date, t: Target)
    requires Offered(w, dates) && forall i :: 0 <= i < |dates| ==> dates[i] <= limit
    ensures t in MemoAfter(w, m, dates).known <==> t in m.known || OfferedBy(w, dates, limit, t)
  {
    if dates != [] {
      LastStep(w, m, dates);
      KnownAre(w, m, dates[..|dates| - 1], limit, t);
      KnownStep(w, m, dates, t);
      SplitOffered(w, dates, limit, t);
    }
  }

  lemma {:induction false} KnownStep(w: World, m: Memo, dates: seq<Date>, t: Target)
    requires Offered(w, dates) && dates != [] && Offered(w, dates[..|dates| - 1])
    ensures t in MemoAfter(w, m, dates).known
            <==> t in MemoAfter(w, m, dates[..|dates| - 1]).known || t in w.snaps[dates[|dates| - 1]].current
  {
    hide AllRows, MemoAfter, PreviousOpen, DayRows, DayMemo;
    var last := dates[|dates| - 1];
    LastStep(w, m, dates);
    DayTargets(w, MemoAfter(w, m, dates[..|dates| - 1]), last, Pred(w, last), t);
  }

  lemma {:induction false} SplitOffered(w: World, dates: seq<Date>, limit: Date, t: Target)
    requires dates != [] && dates[|dates| - 1] <= limit && dates[|dates| - 1] in w.snaps
    ensures OfferedBy(w, dates, limit, t)
            <==> OfferedBy(w, dates[..|dates| - 1], limit, t) || t in w.snaps[dates[|dates| - 1]].current
  {
    if OfferedBy(w, dates, limit, t) {
      var d :| d in dates && d <= limit && d in w.snaps && t in w.snaps[d].current;
      InitOrLast(dates, d);
    }
    if OfferedBy(w, dates[..|dates| - 1], limit, t) {
      MoreDays(w, dates, limit, t);
    }
    var last := dates[|dates| - 1];
    assert last in dates;
  }

  lemma {:induction false} MoreDays(w: World, dates: seq<Date>, limit: Date, t: Target)
    requires dates != [] && OfferedBy(w, dates[..|dates| - 1], limit, t)
    ensures OfferedBy(w, dates, limit, t)
  {
    var d :| d in dates[..|dates| - 1] && d <= limit && d in w.snaps && t in w.snaps[d].current;
    InitOrLast(dates, d);
  }

  /** Every row's target was offered on its day or before. */
  lemma {:induction false} RowWasOffered(w: World, dates: seq<Date>, o: Observation)
    requires Offered(w, dates) && o in AllRows(w, NO_MEMO, dates)
    ensures OfferedBy(w, dates, o.day, o.target)
  {
    hide AllRows, MemoAfter, PreviousOpen, DayRows, DayMemo, OfferedBy;
    if dates == [] {
      NoDays(w, NO_MEMO);
    } else {
      LastStep(w, NO_MEMO, dates);
      var init := dates[..|dates| - 1];
      if o in AllRows(w, NO_MEMO, init) {
        RowWasOffered(w, init, o);
        MoreDays(w, dates, o.day, o.target);
      } else {
        LastRowWasOffered(w, dates, o);
      }
    }
  }

  lemma {:induction false} LastRowWasOffered(w: World, dates: seq<Date>, o: Observation)
    requires Offered(w, dates) && dates != [] && Offered(w, dates[..|dates| - 1])
    requires var init, d := dates[..|dates| - 1], dates[|dates| - 1];
             o in RowSet(DayRows(w, MemoAfter(w, NO_MEMO, init), d, Pred(w, d)))
    ensures OfferedBy(w, dates, o.day, o.target)
  {
    hide MemoAfter, PreviousOpen, DayRows, DayMemo, OfferedBy;
    var init, last := dates[..|dates| - 1], dates[|dates| - 1];
    var m := MemoAfter(w, NO_MEMO, init);
    var rows := DayRows(w, m, last, Pred(w, last));
    var t :| t in rows && rows[t] == o;
    DayRowShape(w, m, last, Pred(w, last), t);
    DayTargets(w, m, last, Pred(w, last), t);
    if t in m.known {
      KnownAre(w, NO_MEMO, init, last, t);
      MoreDays(w, dates, last, t);
    } else {
      assert last in dates;
      OfferedToday(w, dates, last, t);
    }
  }

  lemma {:induction false} OfferedToday(w: World, dates: seq<Date>, d: Date, t: Target)
    requires d in dates && d in w.snaps && t in w.snaps[d].current
    ensures OfferedBy(w, dates, d, t)
  {
  }

  ghost predicate HasRow(rows: set<Observation>, t: Target) { exists o :: o in rows && o.target == t }

  /** A run gives a row to every target that its memo knew or that its days offered, and to no other. */
  lemma {:induction false} RunTargets(w: World, m: Memo, dates: seq<Date>, limit: Date, t: Target)
    requires Offered(w, dates) && dates != [] && forall i :: 0 <= i < |dates| ==> dates[i] <= limit
    ensures HasRow(AllRows(w, m, dates), t) <==> t in m.known || OfferedBy(w, dates, limit, t)
  {
    RowsAreOfKnown(w, m, dates, t);
    KnownAre(w, m, dates, limit, t);
  }

  lemma {:induction false} RowsAreOfKnown(w: World, m: Memo, dates: seq<Date>, t: Target)
    requires Offered(w, dates) && dates != []
    ensures HasRow(AllRows(w, m, dates), t) <==> t in MemoAfter(w, m, dates).known
  {
    hide AllRows, MemoAfter, PreviousOpen, DayRows, DayMemo, HasRow;
    var init, last := dates[..|dates| - 1], dates[|dates| - 1];
    LastStep(w, m, dates);
    if init == [] {
      NoDays(w, m);
    } else {
      RowsAreOfKnown(w, m, init, t);
    }
    var memo := MemoAfter(w, m, init);
    var rows := DayRows(w, memo, last, Pred(w, last));
    DayTargets(w, memo, last, Pred(w, last), t);
    DayHasRow(w, memo, last, Pred(w, last), t);
    EitherRow(AllRows(w, m, init), RowSet(rows), t);
  }

  lemma {:induction false} DayHasRow(w: World, m: Memo, d: Date, previous: Option<Date>, t: Target)
    requires d in w.snaps
    ensures HasRow(RowSet(DayRows(w, m, d, previous)), t) <==> t in DayRows(w, m, d, previous)
  {
    var rows := DayRows(w, m, d, previous);
    if t in rows {
      DayRowShape(w, m, d, previous, t);
      assert rows[t] in RowSet(rows);
    }
    if HasRow(RowSet(rows), t) {
      var o :| o in RowSet(rows) && o.target == t;
      var x :| x in rows && rows[x] == o;
      DayRowShape(w, m, d, previous, x);
    }
  }

  lemma {:induction false} EitherRow(a: set<Observation>, b: set<Observation>, t: Target)
    ensures HasRow(a + b, t) <==> HasRow(a, t) || HasRow(b, t)
    ensures !HasRow({}, t)
  {
    if HasRow(a, t) {
      var o :| o in a && o.target == t;
      assert o in a + b;
    }
    if HasRow(b, t) {
      var o :| o in b && o.target == t;
      assert o in a + b;
    }
  }
}
