/** Restarting recognition from anchors, and what that means for the published timeline. */
module Restart {
  import opened Common
  import opened States
  import opened Timeline
  import opened Calendar
  import opened Recognition

  /** No snapshot lies on a day that the calendar records as closed. */
  ghost predicate NoClosedSnapshots(w: World) {
    forall d :: d in w.snaps ==> Get(w.calendar, d) != Some(Closed)
  }

  /** Two memos agree on day `q`, and neither has an edge bit where it has no status. */
  ghost predicate SameAt(m1: Memo, m2: Memo, q: Date) {
    forall t: Target :: SameFor(m1, m2, q, t)
  }

  ghost predicate SameFor(m1: Memo, m2: Memo, q: Date, t: Target) {
    && Get(m1.status, (q, t)) == Get(m2.status, (q, t))
    && (Get(m1.status, (q, t)) == None ==> t !in m1.lastActive && t !in m2.lastActive)
  }

  /** Two memos that a run from day `d` cannot tell apart. */
  ghost predicate Alike(w: World, m1: Memo, m2: Memo, d: Date) {
    && m1.known == m2.known && Past(m1, d) && Past(m2, d)
    && (Pred(w, d).Some? && Pred(w, d).value in w.snaps ==> SameAt(m1, m2, Pred(w, d).value))
  }

  /** A judgement looks at a memo only through its target on the proven previous snapshot day. */
  lemma {:induction false} SameJudge(w: World, m1: Memo, m2: Memo, d: Date, t: Target, cur: Reading)
    requires Lookback(w.snaps, Pred(w, d), t).Some? ==> SameFor(m1, m2, Pred(w, d).value, t)
    ensures Judge(w, m1, d, Pred(w, d), t, cur) == Judge(w, m2, d, Pred(w, d), t, cur)
  {
    hide PreviousOpen, InferPreviousActive;
  }

  lemma {:induction false} AlikeJudges(w: World, m1: Memo, m2: Memo, d: Date, t: Target, cur: Reading)
    requires Alike(w, m1, m2, d)
    ensures Judge(w, m1, d, Pred(w, d), t, cur) == Judge(w, m2, d, Pred(w, d), t, cur)
  {
    hide PreviousOpen, Judge, SameFor;
    SameJudge(w, m1, m2, d, t, cur);
  }

  lemma {:induction false} AlikeRows(w: World, m1: Memo, m2: Memo, d: Date)
    requires d in w.snaps && Alike(w, m1, m2, d)
    ensures DayRows(w, m1, d, Pred(w, d)) == DayRows(w, m2, d, Pred(w, d))
  {
    hide Judge, Fill, Alike;
    assert m1.known == m2.known by { AlikeKnown(w, m1, m2, d); }
    forall t | t in w.snaps[d].current
      ensures Judge(w, m1, d, Pred(w, d), t, w.snaps[d].current[t])
           == Judge(w, m2, d, Pred(w, d), t, w.snaps[d].current[t])
    {
      AlikeJudges(w, m1, m2, d, t, w.snaps[d].current[t]);
    }
  }

  lemma {:induction false} AlikeKnown(w: World, m1: Memo, m2: Memo, d: Date)
    requires Alike(w, m1, m2, d)
    ensures m1.known == m2.known && Past(m1, d) && Past(m2, d)
  {
  }

  /** The proven predecessor of the next snapshot day is the snapshot day before it, or has no snapshot. */
  lemma {:induction false} PredIsLastDay(w: World, d: Date, next: Date, q: Date)
    requires NoClosedSnapshots(w) && d in w.snaps && d < next
    requires forall x :: x in w.snaps && x < next ==> x <= d
    requires Pred(w, next) == Some(q) && q in w.snaps
    ensures q == d
  {
    PreviousOpenIsProved(w.calendar, next, q);
    hide PreviousOpen;
    assert q <= d;
    assert q < d ==> Get(w.calendar, d) == Some(Closed);
  }

  /** After a day with the same rows, two memos agree on that day for every target. */
  lemma {:induction false} SameAfterDay(w: World, m1: Memo, m2: Memo, d: Date, t: Target)
    requires d in w.snaps && Past(m1, d) && Past(m2, d)
    requires DayRows(w, m1, d, Pred(w, d)) == DayRows(w, m2, d, Pred(w, d))
    ensures var n1, n2 := DayMemo(w, m1, d, Pred(w, d)), DayMemo(w, m2, d, Pred(w, d));
            && n1.known == n2.known && Past(n1, d + 1) && Past(n2, d + 1)
            && SameFor(n1, n2, d, t)
  {
    hide DayMemo, DayRows, PreviousOpen;
    DayMemoFacts(w, m1, d, Pred(w, d), t);
    DayMemoFacts(w, m2, d, Pred(w, d), t);
  }

  /** Two memos that yield the same rows on a day are alike on the next snapshot day. */
  lemma {:induction false} SameRowsAlike(w: World, m1: Memo, m2: Memo, d: Date, next: Date)
    requires d in w.snaps && Past(m1, d) && Past(m2, d) && NoClosedSnapshots(w) && d < next
    requires DayRows(w, m1, d, Pred(w, d)) == DayRows(w, m2, d, Pred(w, d))
    requires forall x :: x in w.snaps && x < next ==> x <= d
    ensures Alike(w, DayMemo(w, m1, d, Pred(w, d)), DayMemo(w, m2, d, Pred(w, d)), next)
  {
    hide DayMemo, DayRows, PreviousOpen, NoClosedSnapshots, SameFor;
    SameAfterDay(w, m1, m2, d, 0);
    if Pred(w, next).Some? && Pred(w, next).value in w.snaps {
      PredIsLastDay(w, d, next, Pred(w, next).value);
      var n1, n2 := DayMemo(w, m1, d, Pred(w, d)), DayMemo(w, m2, d, Pred(w, d));
      forall t: Target ensures SameFor(n1, n2, d, t) {
        SameAfterDay(w, m1, m2, d, t);
      }
    }
  }

  lemma {:induction false} AlikeStep(w: World, m1: Memo, m2: Memo, d: Date, next: Date)
    requires d in w.snaps && Alike(w, m1, m2, d) && NoClosedSnapshots(w) && d < next
    requires forall x :: x in w.snaps && x < next ==> x <= d
    ensures Alike(w, DayMemo(w, m1, d, Pred(w, d)), DayMemo(w, m2, d, Pred(w, d)), next)
  {
    AlikeRows(w, m1, m2, d);
    AlikeKnown(w, m1, m2, d);
    hide DayMemo, DayRows, PreviousOpen, NoClosedSnapshots, Alike;
    SameRowsAlike(w, m1, m2, d, next);
  }

  /** `dates` are consecutive snapshot days: no snapshot lies between two of them. */
  ghost predicate Consecutive(w: World, dates: seq<Date>) {
    Offered(w, dates) && forall i, x :: 0 <= i < |dates| - 1 && x in w.snaps && x < dates[i + 1] ==> x <= dates[i]
  }

  lemma {:induction false} ConsecutiveTail(w: World, dates: seq<Date>)
    requires Consecutive(w, dates) && dates != []
    ensures Consecutive(w, dates[1..]) && Offered(w, [dates[0]])
  {
  }

  lemma {:induction false} OneDay(w: World, m: Memo, d: Date)
    requires Offered(w, [d])
    ensures MemoAfter(w, m, [d]) == DayMemo(w, m, d, Pred(w, d))
    ensures AllRows(w, m, [d]) == RowSet(DayRows(w, m, d, Pred(w, d)))
  {
    assert [d][..0] == [];
    assert MemoAfter(w, m, []) == m && AllRows(w, m, []) == {};
    hide DayMemo, DayRows, PreviousOpen, RowSet;
  }

  lemma {:induction false} AlikeRuns(w: World, m1: Memo, m2: Memo, dates: seq<Date>)
    requires Consecutive(w, dates) && NoClosedSnapshots(w)
    requires dates != [] ==> Alike(w, m1, m2, dates[0])
    ensures AllRows(w, m1, dates) == AllRows(w, m2, dates)
    decreases |dates|
  {
    hide AllRows, MemoAfter, DayMemo, DayRows, RowSet, PreviousOpen, NoClosedSnapshots, Alike;
    if dates == [] {
      assert AllRows(w, m1, dates) == {} == AllRows(w, m2, dates) by { NoDays(w, m1); NoDays(w, m2); }
    } else {
      var d, rest := dates[0], dates[1..];
      ConsecutiveTail(w, dates);
      assert [d] + rest == dates;
      var n1, n2 := DayMemo(w, m1, d, Pred(w, d)), DayMemo(w, m2, d, Pred(w, d));
      AlikeRows(w, m1, m2, d);
      if rest != [] {
        AlikeStep(w, m1, m2, d, rest[0]);
      }
      AlikeRuns(w, n1, n2, rest);
      RunSplits(w, m1, [d], rest);
      RunSplits(w, m2, [d], rest);
      OneDay(w, m1, d);
      OneDay(w, m2, d);
    }
  }

  lemma {:induction false} NoDays(w: World, m: Memo)
    ensures AllRows(w, m, []) == {}
  {
  }

  // ---------------------------------------------------------------------------------------
  // Anchors carry exactly what a restart needs

  /** `obs` is the publication order of a set of rows. */
  ghost predicate Lists(obs: seq<Observation>, rows: set<Observation>) {
    StrictlySorted(obs) && forall o :: o in obs <==> o in rows
  }

  /** The memo a restart builds from the facts confirmed at the proven previous day. */
  ghost function SeedMemo(facts: Facts, p: Date): (m: Memo) {
    Memo(map t | t in facts :: (p, t) := facts[t].status, facts.Keys, map[])
  }

  lemma {:induction false} DayRowShape(w: World, m: Memo, d: Date, previous: Option<Date>, t: Target)
    requires d in w.snaps && t in DayRows(w, m, d, previous)
    ensures var o := DayRows(w, m, d, previous)[t]; o.day == d && o.target == t
  {
  }

  /** The last day of a run, spelled out. */
  lemma {:induction false} LastStep(w: World, m: Memo, dates: seq<Date>)
    requires Offered(w, dates) && dates != []
    ensures var init, d := dates[..|dates| - 1], dates[|dates| - 1];
            && Offered(w, init)
            && MemoAfter(w, m, dates) == DayMemo(w, MemoAfter(w, m, init), d, Pred(w, d))
            && AllRows(w, m, dates)
               == AllRows(w, m, init) + RowSet(DayRows(w, MemoAfter(w, m, init), d, Pred(w, d)))
  {
    hide DayMemo, DayRows, RowSet, PreviousOpen;
  }

  lemma {:induction false} RowsLieOnDates(w: World, m: Memo, dates: seq<Date>, o: Observation)
    requires Offered(w, dates) && dates != [] && o in AllRows(w, m, dates)
    ensures o.day in dates
  {
    LastStep(w, m, dates);
    hide AllRows, MemoAfter, DayRows, PreviousOpen;
    var init, d := dates[..|dates| - 1], dates[|dates| - 1];
    if init != [] && o in AllRows(w, m, init) {
      RowsLieOnDates(w, m, init, o);
    } else {
      NoDays(w, m);
      var rows := DayRows(w, MemoAfter(w, m, init), d, Pred(w, d));
      var t :| t in rows && rows[t] == o;
      DayRowShape(w, MemoAfter(w, m, init), d, Pred(w, d), t);
    }
  }

  lemma {:induction false} FactsTargets(obs: seq<Observation>, t: Target)
    ensures t in FoldFacts(map[], obs) <==> exists o :: o in obs && o.target == t
  {
    if obs != [] {
      FactsTargets(obs[..|obs| - 1], t);
      assert obs == obs[..|obs| - 1] + [obs[|obs| - 1]];
      assert obs[|obs| - 1] in obs;
      hide FactAfter;
    }
  }

  /** After a run, the known targets are those with a row, and each has a row on the last day. */
  lemma {:induction false} LastDayRows(w: World, dates: seq<Date>, t: Target)
    requires Offered(w, dates) && dates != []
    ensures var d, m := dates[|dates| - 1], MemoAfter(w, NO_MEMO, dates);
            && (t in m.known ==> exists o :: o in AllRows(w, NO_MEMO, dates) && o.day == d && o.target == t
                                             && Get(m.status, (d, t)) == Some(o.status))
            && (t !in m.known ==> Get(m.status, (d, t)) == None)
  {
    LastStep(w, NO_MEMO, dates);
    hide AllRows, MemoAfter, DayRows, DayMemo, PreviousOpen;
    var init, d := dates[..|dates| - 1], dates[|dates| - 1];
    PastAfter(w, NO_MEMO, init, d);
    var m := MemoAfter(w, NO_MEMO, init);
    var rows := DayRows(w, m, d, Pred(w, d));
    DayMemoFacts(w, m, d, Pred(w, d), t);
    if t in rows {
      DayRowShape(w, m, d, Pred(w, d), t);
      assert rows[t] in RowSet(rows);
      assert rows[t] in AllRows(w, NO_MEMO, dates);
    }
  }

  lemma {:induction false} RowTargetsKnown(w: World, dates: seq<Date>, o: Observation)
    requires Offered(w, dates) && dates != [] && o in AllRows(w, NO_MEMO, dates)
    ensures o.target in MemoAfter(w, NO_MEMO, dates).known
  {
    LastStep(w, NO_MEMO, dates);
    hide AllRows, MemoAfter, DayRows, DayMemo, PreviousOpen;
    var init, d := dates[..|dates| - 1], dates[|dates| - 1];
    PastAfter(w, NO_MEMO, init, d);
    var m := MemoAfter(w, NO_MEMO, init);
    var rows := DayRows(w, m, d, Pred(w, d));
    DayMemoFacts(w, m, d, Pred(w, d), o.target);
    if init != [] && o in AllRows(w, NO_MEMO, init) {
      RowTargetsKnown(w, init, o);
    } else {
      NoDays(w, NO_MEMO);
      var t :| t in rows && rows[t] == o;
      DayRowShape(w, m, d, Pred(w, d), t);
    }
  }

  /** The facts folded from a run's rows are its known targets with their last-day statuses. */
  lemma {:induction false} FactsOfRun(w: World, dates: seq<Date>, obs: seq<Observation>, t: Target)
    requires Offered(w, dates) && Lists(obs, AllRows(w, NO_MEMO, dates)) && dates != []
    ensures var facts, m, d := FoldFacts(map[], obs), MemoAfter(w, NO_MEMO, dates), dates[|dates| - 1];
            && (t in facts <==> t in m.known)
            && Get(m.status, (d, t)) == (if t in facts then Some(facts[t].status) else None)
  {
    hide AllRows, MemoAfter, FoldFacts, PreviousOpen;
    LastDayRows(w, dates, t);
    FactsTargets(obs, t);
    var m, d := MemoAfter(w, NO_MEMO, dates), dates[|dates| - 1];
    if t in m.known {
      var o :| o in AllRows(w, NO_MEMO, dates) && o.day == d && o.target == t
               && Get(m.status, (d, t)) == Some(o.status);
      assert o in obs;
      var k :| 0 <= k < |obs| && obs[k] == o;
      forall j | k < j < |obs| ensures obs[j].target != t {
        assert obs[j] in obs;
        RowsLieOnDates(w, NO_MEMO, dates, obs[j]);
        assert Before(obs[k], obs[j]);
      }
      FactStatus(map[], obs, k);
    } else if exists o :: o in obs && o.target == t {
      var o :| o in obs && o.target == t;
      RowTargetsKnown(w, dates, o);
    }
  }

  lemma {:induction false} SeedLookup(facts: Facts, p: Date, q: Date, t: Target)
    ensures Get(SeedMemo(facts, p).status, (q, t)) == (if q == p && t in facts then Some(facts[t].status) else None)
  {
  }

  /** Anchors read at the proven previous day make a restart alike to the full run it replaces. */
  lemma {:induction false} SeedsAreAlike(w: World, before: seq<Date>, obs: seq<Observation>, d: Date, p: Date)
    requires Offered(w, before) && Lists(obs, AllRows(w, NO_MEMO, before))
    requires NoClosedSnapshots(w) && Pred(w, d) == Some(p)
    requires forall x :: x in before ==> x < d
    requires forall x :: x in w.snaps && x < d ==> x in before
    ensures Alike(w, MemoAfter(w, NO_MEMO, before), SeedMemo(FoldFacts(map[], obs), p), d)
  {
    hide AllRows, MemoAfter, FoldFacts, PreviousOpen, Lists, SeedMemo, SameFor, NoClosedSnapshots;
    var facts, m1 := FoldFacts(map[], obs), MemoAfter(w, NO_MEMO, before);
    var m2 := SeedMemo(facts, p);
    PreviousOpenIsProved(w.calendar, d, p);
    assert forall i :: 0 <= i < |before| ==> before[i] in before;
    PastAfter(w, NO_MEMO, before, d);
    SeedMemoShape(facts, p);
    SeedKnown(w, before, obs);
    if p in w.snaps {
      forall t: Target ensures SameFor(m1, m2, p, t) {
        SeedSameFor(w, before, obs, d, p, t);
      }
    }
  }

  lemma {:induction false} SeedMemoShape(facts: Facts, p: Date)
    ensures var m := SeedMemo(facts, p);
            m.known == facts.Keys && m.lastActive == map[] && forall k :: k in m.status ==> k.0 == p
  {
  }

  lemma {:induction false} SeedKnown(w: World, before: seq<Date>, obs: seq<Observation>)
    requires Offered(w, before) && Lists(obs, AllRows(w, NO_MEMO, before))
    ensures FoldFacts(map[], obs).Keys == MemoAfter(w, NO_MEMO, before).known
  {
    if before == [] {
      EmptyStart(w, obs);
    } else {
      hide AllRows, MemoAfter, FoldFacts, Lists;
      var facts, m := FoldFacts(map[], obs), MemoAfter(w, NO_MEMO, before);
      forall t: Target ensures t in facts.Keys <==> t in m.known {
        FactsOfRun(w, before, obs, t);
      }
    }
  }

  lemma {:induction false} SeedSameFor(w: World, before: seq<Date>, obs: seq<Observation>, d: Date, p: Date, t: Target)
    requires Offered(w, before) && Lists(obs, AllRows(w, NO_MEMO, before))
    requires NoClosedSnapshots(w) && Pred(w, d) == Some(p) && p in w.snaps && p < d
    requires forall x :: x in before ==> x < d
    requires forall x :: x in w.snaps && x < d ==> x in before
    ensures SameFor(MemoAfter(w, NO_MEMO, before), SeedMemo(FoldFacts(map[], obs), p), p, t)
  {
    hide AllRows, MemoAfter, FoldFacts, PreviousOpen, Lists, SeedMemo, NoClosedSnapshots;
    assert p in before;
    var last := before[|before| - 1];
    assert last in before;
    PredIsLastDay(w, last, d, p);
    FactsOfRun(w, before, obs, t);
    SeedLookup(FoldFacts(map[], obs), p, p, t);
    SeedMemoShape(FoldFacts(map[], obs), p);
    assert forall i :: 0 <= i < |before| ==> before[i] in before;
    PastAfter(w, NO_MEMO, before, d);
  }

  lemma {:induction false} EmptyStart(w: World, obs: seq<Observation>)
    requires Lists(obs, AllRows(w, NO_MEMO, []))
    ensures MemoAfter(w, NO_MEMO, []) == NO_MEMO && FoldFacts(map[], obs) == map[]
  {
    HeadIsMember(obs);
  }

  /** Recognition restarted from the anchors yields exactly the suffix of the full recognition. */
  lemma {:induction false} RestartYieldsSuffix(
    w: World, before: seq<Date>, after: seq<Date>, obs: seq<Observation>, p: Date)
    requires Consecutive(w, before + after) && Offered(w, before) && Consecutive(w, after) && after != []
    requires NoClosedSnapshots(w) && Pred(w, after[0]) == Some(p)
    requires forall x :: x in w.snaps && x < after[0] ==> x in before
    requires forall x :: x in before ==> x < after[0]
    requires Lists(obs, AllRows(w, NO_MEMO, before))
    ensures AllRows(w, NO_MEMO, before + after)
         == AllRows(w, NO_MEMO, before) + AllRows(w, SeedMemo(FoldFacts(map[], obs), p), after)
  {
    hide AllRows, MemoAfter, FoldFacts, PreviousOpen, Lists, NoClosedSnapshots, SeedMemo, Alike;
    SeedsAreAlike(w, before, obs, after[0], p);
    AlikeRuns(w, MemoAfter(w, NO_MEMO, before), SeedMemo(FoldFacts(map[], obs), p), after);
    RunSplits(w, NO_MEMO, before, after);
  }

  // ---------------------------------------------------------------------------------------
  // A first day that looks back on nothing

  /** The predecessor of `d` is unproved or has no snapshot. */
  ghost predicate Blind(w: World, d: Date) {
    Pred(w, d).None? || Pred(w, d).value !in w.snaps
  }

  /** Two sets of known targets that differ only on targets a day offers. */
  ghost predicate SameKnown(offered: set<Target>, a: set<Target>, b: set<Target>) {
    forall t :: (t in a) != (t in b) ==> t in offered
  }

  /** On a blind day the rows of two memos agree exactly when the day offers every target that only one
      of them knows. */
  lemma {:induction false} BlindRows(w: World, m1: Memo, m2: Memo, d: Date)
    requires d in w.snaps && Blind(w, d)
    ensures DayRows(w, m1, d, Pred(w, d)) == DayRows(w, m2, d, Pred(w, d))
            <==> SameKnown(w.snaps[d].current.Keys, m1.known, m2.known)
  {
    hide PreviousOpen;
    var offered := w.snaps[d].current.Keys;
    var x, y := DayRows(w, m1, d, Pred(w, d)), DayRows(w, m2, d, Pred(w, d));
    assert x.Keys == offered + m1.known && y.Keys == offered + m2.known;
    assert forall t :: t in x && t in y ==> x[t] == y[t];
    if SameKnown(offered, m1.known, m2.known) {
      assert x.Keys == y.Keys;
      assert x == y;
    } else {
      var t :| (t in m1.known) != (t in m2.known) && t !in offered;
      assert (t in x) != (t in y);
    }
  }

  lemma {:induction false} FirstDay(w: World, m: Memo, dates: seq<Date>)
    requires Offered(w, dates) && dates != []
    ensures Offered(w, [dates[0]]) && Offered(w, dates[1..])
    ensures var d := dates[0];
            AllRows(w, m, dates) == RowSet(DayRows(w, m, d, Pred(w, d)))
                                    + AllRows(w, DayMemo(w, m, d, Pred(w, d)), dates[1..])
  {
    hide AllRows, MemoAfter, DayMemo, DayRows, RowSet, PreviousOpen;
    assert [dates[0]] + dates[1..] == dates;
    RunSplits(w, m, [dates[0]], dates[1..]);
    OneDay(w, m, dates[0]);
  }

  /** The rows of a run on its first day are those of the first day. */
  lemma {:induction false} RowOnFirstDay(w: World, m: Memo, dates: seq<Date>, t: Target)
    requires Offered(w, dates) && dates != []
    ensures t in DayRows(w, m, dates[0], Pred(w, dates[0]))
            <==> exists o :: o in AllRows(w, m, dates) && o.day == dates[0] && o.target == t
  {
    hide AllRows, DayRows, DayMemo, PreviousOpen, RowSet;
    FirstDay(w, m, dates);
    var d, rest := dates[0], dates[1..];
    var rows := DayRows(w, m, d, Pred(w, d));
    if t in rows {
      DayRowShape(w, m, d, Pred(w, d), t);
      InRowSet(w, m, d, rows[t]);
    }
    forall o | o in AllRows(w, m, dates) && o.day == d && o.target == t ensures t in rows {
      InRowSet(w, m, d, o);
      if o !in RowSet(rows) {
        LaterRow(w, DayMemo(w, m, d, Pred(w, d)), rest, d, o);
      }
    }
  }

  lemma {:induction false} InRowSet(w: World, m: Memo, d: Date, o: Observation)
    requires d in w.snaps
    ensures var rows := DayRows(w, m, d, Pred(w, d));
            o in RowSet(rows) <==> o.target in rows && rows[o.target] == o
  {
    hide DayRows, PreviousOpen;
    var rows := DayRows(w, m, d, Pred(w, d));
    if o in RowSet(rows) {
      var t :| t in rows && rows[t] == o;
      DayRowShape(w, m, d, Pred(w, d), t);
    }
  }

  lemma {:induction false} LaterRow(w: World, m: Memo, rest: seq<Date>, d: Date, o: Observation)
    requires Offered(w, rest) && (forall i :: 0 <= i < |rest| ==> d < rest[i]) && o in AllRows(w, m, rest)
    ensures d < o.day
  {
    NoDays(w, m);
    hide AllRows;
    RowsLieOnDates(w, m, rest, o);
    var i :| 0 <= i < |rest| && rest[i] == o.day;
  }

  /** From a blind first day on, two memos yield the same rows over the whole suffix exactly when that
      day offers every target that only one of them knows. */
  lemma {:induction false} BlindSuffix(w: World, m1: Memo, m2: Memo, dates: seq<Date>)
    requires Consecutive(w, dates) && NoClosedSnapshots(w) && dates != [] && Blind(w, dates[0])
    requires Past(m1, dates[0]) && Past(m2, dates[0])
    ensures AllRows(w, m1, dates) == AllRows(w, m2, dates)
            <==> SameKnown(w.snaps[dates[0]].current.Keys, m1.known, m2.known)
  {
    hide AllRows, DayRows, DayMemo, RowSet, PreviousOpen, NoClosedSnapshots, Alike, SameKnown;
    var d, rest := dates[0], dates[1..];
    BlindRows(w, m1, m2, d);
    FirstDay(w, m1, dates);
    FirstDay(w, m2, dates);
    ConsecutiveTail(w, dates);
    if DayRows(w, m1, d, Pred(w, d)) == DayRows(w, m2, d, Pred(w, d)) {
      if rest != [] {
        SameRowsAlike(w, m1, m2, d, rest[0]);
      }
      AlikeRuns(w, DayMemo(w, m1, d, Pred(w, d)), DayMemo(w, m2, d, Pred(w, d)), rest);
    } else {
      DifferentRows(w, m1, m2, dates);
    }
  }

  lemma {:induction false} DifferentRows(w: World, m1: Memo, m2: Memo, dates: seq<Date>)
    requires Offered(w, dates) && dates != [] && Blind(w, dates[0])
    requires !SameKnown(w.snaps[dates[0]].current.Keys, m1.known, m2.known)
    ensures AllRows(w, m1, dates) != AllRows(w, m2, dates)
  {
    hide AllRows, PreviousOpen;
    var d := dates[0];
    var t :| (t in m1.known) != (t in m2.known) && t !in w.snaps[d].current.Keys;
    RowOnFirstDay(w, m1, dates, t);
    RowOnFirstDay(w, m2, dates, t);
  }

  /** A restart from any memo at a blind first day yields the suffix of the full run exactly when that
      day offers every target that only one of the two knows. */
  lemma {:induction false} BlindRestartIsExact(
    w: World, before: seq<Date>, after: seq<Date>, obs: seq<Observation>, m: Memo)
    requires Consecutive(w, before + after) && Offered(w, before) && Consecutive(w, after) && after != []
    requires NoClosedSnapshots(w) && Blind(w, after[0]) && Past(m, after[0])
    requires forall x :: x in before ==> x < after[0]
    requires Lists(obs, AllRows(w, NO_MEMO, before))
    ensures AllRows(w, NO_MEMO, before + after) == AllRows(w, NO_MEMO, before) + AllRows(w, m, after)
            <==> SameKnown(w.snaps[after[0]].current.Keys, FoldFacts(map[], obs).Keys, m.known)
  {
    hide AllRows, MemoAfter, FoldFacts, PreviousOpen, Lists, NoClosedSnapshots, SameKnown, Blind, Past;
    var full := MemoAfter(w, NO_MEMO, before);
    SeedKnown(w, before, obs);
    assert forall i :: 0 <= i < |before| ==> before[i] in before;
    PastAfter(w, NO_MEMO, before, after[0]);
    RunSplits(w, NO_MEMO, before, after);
    BlindSuffix(w, full, m, after);
    var early, x, y := AllRows(w, NO_MEMO, before), AllRows(w, full, after), AllRows(w, m, after);
    forall o | o in early ensures o !in x && o !in y {
      NoDays(w, NO_MEMO);
      RowsLieOnDates(w, NO_MEMO, before, o);
      LateRow(w, full, after, o);
      LateRow(w, m, after, o);
    }
    SumCancels(early, x, y);
  }

  lemma {:induction false} LateRow(w: World, m: Memo, after: seq<Date>, o: Observation)
    requires Offered(w, after) && after != []
    ensures o in AllRows(w, m, after) ==> after[0] <= o.day
  {
    hide AllRows;
    if o in AllRows(w, m, after) {
      RowsLieOnDates(w, m, after, o);
      var i :| 0 <= i < |after| && after[i] == o.day;
    }
  }

  lemma {:induction false} SumCancels(a: set<Observation>, x: set<Observation>, y: set<Observation>)
    requires forall o :: o in a ==> o !in x && o !in y
    ensures a + x == a + y <==> x == y
  {
    if a + x == a + y {
      forall o ensures o in x <==> o in y {
        assert o in a + x <==> o in a + y;
      }
    }
  }

  // ---------------------------------------------------------------------------------------
  // The rows of a run can be listed

  lemma {:induction false} RowsCanBeListed(s: set<Observation>) returns (r: seq<Observation>)
    requires forall a, b :: a in s && b in s && a.day == b.day && a.target == b.target ==> a == b
    ensures Distinct(r) && forall o :: o in r <==> o in s
    decreases |s|
  {
    if s == {} {
      r := [];
    } else {
      var x := Member(s);
      var init := RowsCanBeListed(s - {x});
      r := init + [x];
      assert forall i :: 0 <= i < |init| ==> init[i] in init;
    }
  }

  /** A run yields one row per day and target. */
  lemma {:induction false} RowsAreUnique(w: World, m: Memo, dates: seq<Date>, a: Observation, b: Observation)
    requires Offered(w, dates) && a in AllRows(w, m, dates) && b in AllRows(w, m, dates)
    requires a.day == b.day && a.target == b.target
    ensures a == b
  {
    if dates == [] {
      NoDays(w, m);
    } else {
      LastStep(w, m, dates);
      hide AllRows, MemoAfter, DayRows, PreviousOpen;
      var init, d := dates[..|dates| - 1], dates[|dates| - 1];
      var rows := DayRows(w, MemoAfter(w, m, init), d, Pred(w, d));
      RowBelongs(w, m, init, d, rows, a);
      RowBelongs(w, m, init, d, rows, b);
      if a.day != d {
        RowsAreUnique(w, m, init, a, b);
      }
    }
  }

  lemma {:induction false} RowBelongs(
    w: World, m: Memo, init: seq<Date>, d: Date, rows: map<Target, Observation>, o: Observation)
    requires Offered(w, init) && d in w.snaps && (forall i :: 0 <= i < |init| ==> init[i] < d)
    requires rows == DayRows(w, MemoAfter(w, m, init), d, Pred(w, d))
    requires o in AllRows(w, m, init) + RowSet(rows)
    ensures if o.day == d then o.target in rows && o == rows[o.target] else o in AllRows(w, m, init)
  {
    hide AllRows, MemoAfter, DayRows, PreviousOpen;
    if o in RowSet(rows) {
      var t :| t in rows && rows[t] == o;
      DayRowShape(w, MemoAfter(w, m, init), d, Pred(w, d), t);
    } else {
      NoDays(w, m);
      RowsLieOnDates(w, m, init, o);
      var i :| 0 <= i < |init| && init[i] == o.day;
    }
  }
}
