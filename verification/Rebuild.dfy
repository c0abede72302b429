/** End to end: a published timeline after an incremental rebuild is the full recognition's timeline. */
module Rebuild {
  import opened Common
  import opened States
  import opened Timeline
  import opened Calendar
  import opened EventLog
  import opened Recognition
  import opened Restart

  /** Two worlds that differ only on or after `s`. */
  ghost predicate AgreeBefore(a: World, b: World, s: Date) {
    && a.calendar == b.calendar && a.rules == b.rules
    && forall d :: d < s ==> Get(a.snaps, d) == Get(b.snaps, d) && Get(a.closes, d) == Get(b.closes, d)
  }

  /** `dates` lists the snapshot days of a world in order. */
  ghost predicate DatesOf(w: World, dates: seq<Date>) {
    Offered(w, dates) && forall d :: d in w.snaps ==> d in dates
  }

  /** Two worlds that a recognition of day `d` cannot tell apart. */
  ghost predicate SameAround(a: World, b: World, d: Date) {
    && a.calendar == b.calendar && a.rules == b.rules
    && Get(a.snaps, d) == Get(b.snaps, d) && Get(a.closes, d) == Get(b.closes, d)
    && (Pred(a, d).Some? ==>
          && Get(a.snaps, Pred(a, d).value) == Get(b.snaps, Pred(a, d).value)
          && Get(a.closes, Pred(a, d).value) == Get(b.closes, Pred(a, d).value))
  }

  lemma {:induction false} SameJudgement(a: World, b: World, m: Memo, d: Date, t: Target, cur: Reading)
    requires SameAround(a, b, d)
    ensures Pred(a, d) == Pred(b, d)
    ensures Judge(a, m, d, Pred(a, d), t, cur) == Judge(b, m, d, Pred(b, d), t, cur)
    ensures BitAfter(a, d, Pred(a, d), t, cur) == BitAfter(b, d, Pred(b, d), t, cur)
  {
    hide PreviousOpen;
  }

  lemma {:induction false} SameRows(a: World, b: World, m: Memo, d: Date)
    requires SameAround(a, b, d) && d in a.snaps && d in b.snaps && a.snaps[d] == b.snaps[d]
    ensures DayRows(a, m, d, Pred(a, d)) == DayRows(b, m, d, Pred(b, d))
  {
    hide Judge, Fill, SameAround;
    forall t | t in a.snaps[d].current
      ensures Judge(a, m, d, Pred(a, d), t, a.snaps[d].current[t])
           == Judge(b, m, d, Pred(b, d), t, b.snaps[d].current[t])
    {
      SameJudgement(a, b, m, d, t, a.snaps[d].current[t]);
    }
  }

  lemma {:induction false} SameBits(a: World, b: World, d: Date)
    requires SameAround(a, b, d) && d in a.snaps && d in b.snaps && a.snaps[d] == b.snaps[d]
    ensures Bits(a, d, Pred(a, d)) == Bits(b, d, Pred(b, d))
  {
    hide BitAfter, SameAround;
    forall t | t in a.snaps[d].current
      ensures BitAfter(a, d, Pred(a, d), t, a.snaps[d].current[t])
           == BitAfter(b, d, Pred(b, d), t, b.snaps[d].current[t])
    {
      SameJudgement(a, b, NO_MEMO, d, t, a.snaps[d].current[t]);
    }
  }

  lemma {:induction false} SameDay(a: World, b: World, m: Memo, d: Date)
    requires SameAround(a, b, d) && d in a.snaps
    ensures d in b.snaps
    ensures DayRows(a, m, d, Pred(a, d)) == DayRows(b, m, d, Pred(b, d))
    ensures DayMemo(a, m, d, Pred(a, d)) == DayMemo(b, m, d, Pred(b, d))
  {
    assert Get(a.snaps, d) == Get(b.snaps, d);
    SameRows(a, b, m, d);
    SameBits(a, b, d);
    hide DayRows, Bits, PreviousOpen, SameAround;
  }

  lemma {:induction false} SameRuns(a: World, b: World, m: Memo, dates: seq<Date>)
    requires Offered(a, dates) && forall d :: d in dates ==> SameAround(a, b, d)
    ensures Offered(b, dates)
    ensures MemoAfter(a, m, dates) == MemoAfter(b, m, dates)
    ensures AllRows(a, m, dates) == AllRows(b, m, dates)
  {
    forall i | 0 <= i < |dates| ensures dates[i] in b.snaps {
      assert dates[i] in dates;
      assert Get(a.snaps, dates[i]) == Get(b.snaps, dates[i]);
    }
    if dates != [] {
      hide AllRows, MemoAfter, DayRows, DayMemo, RowSet, PreviousOpen, SameAround;
      var init, d := dates[..|dates| - 1], dates[|dates| - 1];
      assert d in dates;
      SameRuns(a, b, m, init);
      LastStep(a, m, dates);
      LastStep(b, m, dates);
      SameDay(a, b, MemoAfter(a, m, init), d);
    }
  }

  lemma {:induction false} AgreeAround(a: World, b: World, s: Date, d: Date)
    requires AgreeBefore(a, b, s) && d < s
    ensures SameAround(a, b, d)
  {
    hide PreviousOpen;
    if Pred(a, d).Some? {
      PreviousOpenIsProved(a.calendar, d, Pred(a, d).value);
    }
  }

  /** Worlds that agree before `s` are recognized alike before `s`. */
  lemma {:induction false} AgreeRuns(a: World, b: World, s: Date, dates: seq<Date>)
    requires AgreeBefore(a, b, s) && Offered(a, dates)
    requires forall i :: 0 <= i < |dates| ==> dates[i] < s
    ensures Offered(b, dates)
    ensures MemoAfter(a, NO_MEMO, dates) == MemoAfter(b, NO_MEMO, dates)
    ensures AllRows(a, NO_MEMO, dates) == AllRows(b, NO_MEMO, dates)
  {
    hide AllRows, MemoAfter, AgreeBefore, SameAround;
    forall d | d in dates ensures SameAround(a, b, d) {
      AgreeAround(a, b, s, d);
    }
    SameRuns(a, b, NO_MEMO, dates);
  }

  lemma {:induction false} MemoFree(w: World, m: Memo, dates: seq<Date>, lo: Date, o: Observation)
    requires Offered(w, dates) && o in AllRows(w, m, dates)
    requires forall i :: 0 <= i < |dates| ==> lo <= dates[i]
    ensures lo <= o.day && o.day in dates
  {
    if dates == [] {
      NoDays(w, m);
    } else {
      RowsLieOnDates(w, m, dates, o);
    }
  }

  /** Cutting a listed history at `start` lists the rows of the days before `start`. */
  lemma {:induction false} CutHistory(
    w: World, history: seq<Observation>, before: seq<Date>, after: seq<Date>, start: Date)
    requires Offered(w, before + after) && Offered(w, before) && Offered(w, after)
    requires forall i :: 0 <= i < |before| ==> before[i] < start
    requires forall i :: 0 <= i < |after| ==> start <= after[i]
    requires Lists(history, AllRows(w, NO_MEMO, before + after))
    ensures Lists(ObsBefore(history, start), AllRows(w, NO_MEMO, before))
  {
    hide AllRows, MemoAfter, ObsBefore;
    var head := ObsBefore(history, start);
    var early, late := AllRows(w, NO_MEMO, before), AllRows(w, MemoAfter(w, NO_MEMO, before), after);
    RunSplits(w, NO_MEMO, before, after);
    ObsBeforeIsPrefix(history, start) by { StrictIsSorted(history); }
    assert StrictlySorted(head);
    forall o ensures o in head <==> o in early {
      if o in early {
        EarlyRow(w, NO_MEMO, before, start, o);
        assert o in history;
        var i :| 0 <= i < |history| && history[i] == o;
        assert head[i] == o;
      } else if o in head {
        var i :| 0 <= i < |head| && head[i] == o;
        assert history[i].day < start;
        assert o in history;
        MemoFree(w, MemoAfter(w, NO_MEMO, before), after, start, o);
      }
    }
  }

  lemma {:induction false} EarlyRow(w: World, m: Memo, before: seq<Date>, start: Date, o: Observation)
    requires Offered(w, before) && o in AllRows(w, m, before)
    requires forall i :: 0 <= i < |before| ==> before[i] < start
    ensures o.day < start
  {
    if before == [] {
      NoDays(w, m);
    } else {
      RowsLieOnDates(w, m, before, o);
    }
  }

  lemma {:induction false} ListsJoin(
    a: seq<Observation>, b: seq<Observation>, x: set<Observation>, y: set<Observation>, start: Date)
    requires Lists(a, x) && Lists(b, y)
    requires forall o :: o in x ==> o.day < start
    requires forall o :: o in y ==> start <= o.day
    ensures Lists(a + b, x + y)
  {
    StrictJoin(a, b, start);
  }

  lemma {:induction false} SortLists(obs: seq<Observation>, rows: set<Observation>)
    requires Distinct(obs) && forall o :: o in obs <==> o in rows
    ensures Lists(Sort(obs), rows)
  {
    SortStrictly(obs);
    hide Sort, Distinct;
    forall o ensures o in Sort(obs) <==> o in rows {
      SortMembers(obs, o);
    }
  }

  /** The days of the old and of the new snapshots, cut at the first rewritten day. */
  ghost predicate CutAt(prior: World, w: World, before: seq<Date>, oldAfter: seq<Date>, after: seq<Date>, start: Date) {
    && AgreeBefore(prior, w, start)
    && Offered(prior, before + oldAfter) && Offered(prior, before) && Offered(prior, oldAfter)
    && DatesOf(w, before + after) && Offered(w, before) && Offered(w, after)
    && (forall i :: 0 <= i < |before| ==> before[i] < start)
    && (forall i :: 0 <= i < |oldAfter| ==> start <= oldAfter[i])
    && (forall i :: 0 <= i < |after| ==> start <= after[i])
  }

  /** The memo a restart at day `d` begins with: the anchors of the proven previous day, or nothing. */
  ghost function SeedOf(w: World, log: Log, d: Date): (m: Memo) {
    match Pred(w, d)
    case Some(p) => SeedMemo(SeedAt(log.events, p), p)
    case None => NO_MEMO
  }

  /** The targets such a restart knows. */
  ghost function SeededTargets(w: World, log: Log, d: Date): (known: set<Target>) {
    match Pred(w, d)
    case Some(p) => SeedAt(log.events, p).Keys
    case None => {}
  }

  /** When a restart at the first rewritten day `d` is as good as the full run: its predecessor lies
      before `start`, or the day offers every target that only one of the two knows. */
  ghost predicate SeedsSuffice(w: World, log: Log, start: Date, d: Date)
    requires d in w.snaps
  {
    || (Pred(w, d).Some? && Pred(w, d).value < start)
    || SameKnown(w.snaps[d].current.Keys, SeedAt(log.events, start - 1).Keys, SeededTargets(w, log, d))
  }

  lemma {:induction false} SeedOfShape(w: World, log: Log, d: Date)
    ensures SeedOf(w, log, d).known == SeededTargets(w, log, d) && Past(SeedOf(w, log, d), d)
  {
    hide PreviousOpen, SeedAt;
    if Pred(w, d).Some? {
      PreviousOpenIsProved(w.calendar, d, Pred(w, d).value);
    }
  }

  /** What a restarted `calculate` returns: the rows of the days from `start`, in any order. */
  ghost predicate RestartedRows(w: World, m: Memo, after: seq<Date>, suffix: seq<Observation>) {
    && Offered(w, after) && Distinct(suffix)
    && forall o :: o in suffix <==> o in AllRows(w, m, after)
  }

  lemma {:induction false} DatesAreConsecutive(w: World, dates: seq<Date>)
    requires DatesOf(w, dates)
    ensures Consecutive(w, dates)
  {
    forall i, x | 0 <= i < |dates| - 1 && x in w.snaps && x < dates[i + 1] ensures x <= dates[i] {
      assert x in dates;
      var k :| 0 <= k < |dates| && dates[k] == x;
    }
  }

  lemma {:induction false} TailIsConsecutive(w: World, before: seq<Date>, after: seq<Date>)
    requires DatesOf(w, before + after) && Offered(w, after) && after != []
    ensures Consecutive(w, after)
  {
    hide DatesOf, Offered;
    DatesAreConsecutive(w, before + after);
    forall i, x | 0 <= i < |after| - 1 && x in w.snaps && x < after[i + 1] ensures x <= after[i] {
      NeighboursInTail(w, before, after, i, x);
    }
  }

  lemma {:induction false} NeighboursInTail(w: World, before: seq<Date>, after: seq<Date>, i: nat, x: Date)
    requires Consecutive(w, before + after) && i < |after| - 1 && x in w.snaps && x < after[i + 1]
    ensures x <= after[i]
  {
    hide Offered;
    var dates, k := before + after, |before| + i;
    assert dates[k + 1] == after[i + 1] && dates[k] == after[i];
  }

  lemma {:induction false} TailCovers(w: World, before: seq<Date>, after: seq<Date>)
    requires DatesOf(w, before + after) && after != []
    ensures forall x :: x in w.snaps && x < after[0] ==> x in before
    ensures forall x :: x in before ==> x < after[0]
  {
    var dates := before + after;
    assert dates[|before|] == after[0];
    forall x | x in before ensures x < after[0] {
      var k :| 0 <= k < |before| && before[k] == x;
      assert dates[k] == x;
    }
    forall x | x in w.snaps && x < after[0] ensures x in before {
      assert x in dates;
      var k :| 0 <= k < |dates| && dates[k] == x;
      assert k < |before|;
    }
  }

  /** No published day lies between the proven predecessor and `start`. */
  lemma {:induction false} NoRowsInGap(
    seen: World, w: World, dates: seq<Date>, history: seq<Observation>, start: Date, first: Date, p: Date,
    o: Observation)
    requires Offered(seen, dates) && Lists(history, AllRows(seen, NO_MEMO, dates)) && o in history
    requires AgreeBefore(seen, w, start) && NoClosedSnapshots(w)
    requires Pred(w, first) == Some(p) && p < start <= first
    ensures o.day <= p || start <= o.day
  {
    hide AllRows, PreviousOpen;
    NoDays(seen, NO_MEMO);
    RowsLieOnDates(seen, NO_MEMO, dates, o);
    PreviousOpenIsProved(w.calendar, first, p);
    assert Get(seen.snaps, o.day) == Get(w.snaps, o.day) || start <= o.day;
    assert Get(w.calendar, o.day) != Some(Closed) || start <= o.day;
  }

  /** The suffix of the full run, from anchors of a predecessor before `start`. */
  lemma {:induction false} AnchoredSuffix(
    log: Log, history: seq<Observation>, prior: World, w: World,
    before: seq<Date>, oldAfter: seq<Date>, after: seq<Date>, start: Date)
    requires CutAt(prior, w, before, oldAfter, after, start) && after != []
    requires Represents(log, history) && Lists(history, AllRows(prior, NO_MEMO, before + oldAfter))
    requires NoClosedSnapshots(w) && Pred(w, after[0]).Some? && Pred(w, after[0]).value < start
    ensures AllRows(w, NO_MEMO, before + after)
         == AllRows(w, NO_MEMO, before) + AllRows(w, SeedOf(w, log, after[0]), after)
  {
    hide AllRows, MemoAfter, ObsBefore, PreviousOpen, SeedAt, FoldFacts, SeedMemo, NoClosedSnapshots, Represents;
    var p := Pred(w, after[0]).value;
    CutHistory(prior, history, before, oldAfter, start);
    AgreeRuns(prior, w, start, before);
    forall o | o in history ensures o.day <= p || start <= o.day {
      NoRowsInGap(prior, w, before + oldAfter, history, start, after[0], p, o);
    }
    AnchorsAgree(log, history, start, p);
    SeedsAreFacts(log, history, start - 1);
    TailIsConsecutive(w, before, after);
    TailCovers(w, before, after);
    DatesAreConsecutive(w, before + after);
    RestartYieldsSuffix(w, before, after, ObsBefore(history, start), p);
  }

  /** A predecessor at or after `start` is no snapshot day. */
  lemma {:induction false} LatePredecessorIsBlind(w: World, before: seq<Date>, after: seq<Date>, start: Date)
    requires DatesOf(w, before + after) && after != []
    requires forall i :: 0 <= i < |before| ==> before[i] < start
    requires Pred(w, after[0]).Some? ==> start <= Pred(w, after[0]).value
    ensures Blind(w, after[0])
  {
    TailCovers(w, before, after);
    hide PreviousOpen, DatesOf;
    if Pred(w, after[0]).Some? {
      var p := Pred(w, after[0]).value;
      PreviousOpenIsProved(w.calendar, after[0], p);
      assert p in w.snaps ==> p in before;
    }
  }

  /** Without such a predecessor, the restart yields the suffix of the full run exactly when the first
      rewritten day offers every target that only one of the two knows. */
  lemma {:induction false} BlindSuffixIsExact(
    log: Log, history: seq<Observation>, prior: World, w: World,
    before: seq<Date>, oldAfter: seq<Date>, after: seq<Date>, start: Date)
    requires CutAt(prior, w, before, oldAfter, after, start) && after != []
    requires Represents(log, history) && Lists(history, AllRows(prior, NO_MEMO, before + oldAfter))
    requires NoClosedSnapshots(w)
    requires Pred(w, after[0]).Some? ==> start <= Pred(w, after[0]).value
    ensures AllRows(w, NO_MEMO, before + after)
            == AllRows(w, NO_MEMO, before) + AllRows(w, SeedOf(w, log, after[0]), after)
            <==> SeedsSuffice(w, log, start, after[0])
  {
    hide AllRows, MemoAfter, ObsBefore, PreviousOpen, SeedAt, FoldFacts, NoClosedSnapshots, Represents, SameKnown;
    CutHistory(prior, history, before, oldAfter, start);
    AgreeRuns(prior, w, start, before);
    SeedsAreFacts(log, history, start - 1);
    TailIsConsecutive(w, before, after);
    TailCovers(w, before, after);
    DatesAreConsecutive(w, before + after);
    LatePredecessorIsBlind(w, before, after, start);
    SeedOfShape(w, log, after[0]);
    BlindRestartIsExact(w, before, after, ObsBefore(history, start), SeedOf(w, log, after[0]));
  }

  /** The targets a full run knows at the cut are those with an anchor before `start`. */
  lemma {:induction false} KnownAtCut(
    log: Log, history: seq<Observation>, prior: World, w: World,
    before: seq<Date>, oldAfter: seq<Date>, after: seq<Date>, start: Date)
    requires CutAt(prior, w, before, oldAfter, after, start)
    requires Represents(log, history) && Lists(history, AllRows(prior, NO_MEMO, before + oldAfter))
    ensures MemoAfter(w, NO_MEMO, before).known == SeedAt(log.events, start - 1).Keys
    ensures SeedAt(log.events, start - 1) == FoldFacts(map[], ObsBefore(history, start))
    ensures Lists(ObsBefore(history, start), AllRows(w, NO_MEMO, before))
  {
    hide AllRows, MemoAfter, ObsBefore, SeedAt, FoldFacts, Represents, Lists;
    CutHistory(prior, history, before, oldAfter, start);
    AgreeRuns(prior, w, start, before);
    SeedKnown(w, before, ObsBefore(history, start));
    SeedsAreFacts(log, history, start - 1);
  }

  /** With sufficient seeds, the restart yields the suffix of the full run. */
  lemma {:induction false} RestartIsSuffix(
    log: Log, history: seq<Observation>, prior: World, w: World,
    before: seq<Date>, oldAfter: seq<Date>, after: seq<Date>, start: Date)
    requires CutAt(prior, w, before, oldAfter, after, start) && after != []
    requires Represents(log, history) && Lists(history, AllRows(prior, NO_MEMO, before + oldAfter))
    requires NoClosedSnapshots(w) && SeedsSuffice(w, log, start, after[0])
    ensures AllRows(w, NO_MEMO, before + after)
         == AllRows(w, NO_MEMO, before) + AllRows(w, SeedOf(w, log, after[0]), after)
  {
    hide AllRows, PreviousOpen, SeedOf, NoClosedSnapshots, Represents, SeedAt;
    if Pred(w, after[0]).Some? && Pred(w, after[0]).value < start {
      AnchoredSuffix(log, history, prior, w, before, oldAfter, after, start);
    } else {
      BlindSuffixIsExact(log, history, prior, w, before, oldAfter, after, start);
    }
  }

  /** Incremental rebuild: when only days from `start` changed, no snapshot lies on a closed day and the
      seeds suffice, publishing the restarted rows leaves the log representing the recognition of the
      whole new history from scratch. */
  lemma {:induction false} IncrementalRebuild(
    log: Log, history: seq<Observation>, prior: World, w: World,
    before: seq<Date>, oldAfter: seq<Date>, after: seq<Date>,
    suffix: seq<Observation>, start: Date, through: Date, revision: int)
    requires CutAt(prior, w, before, oldAfter, after, start) && after != []
    requires Represents(log, history) && Lists(history, AllRows(prior, NO_MEMO, before + oldAfter))
    requires NoClosedSnapshots(w) && SeedsSuffice(w, log, start, after[0])
    requires RestartedRows(w, SeedOf(w, log, after[0]), after, suffix) && after[|after| - 1] <= through
    requires Publish(log, suffix, Some(start), through, revision).Accepted?
    ensures var rebuilt := ObsBefore(history, start) + Sort(suffix);
            && Represents(Publish(log, suffix, Some(start), through, revision).log, rebuilt)
            && Lists(rebuilt, AllRows(w, NO_MEMO, before + after))
  {
    hide AllRows, ObsBefore, Sort, Publish, PreviousOpen, SeedOf, NoClosedSnapshots, Represents, SeedAt,
         SeedsSuffice;
    RestartIsSuffix(log, history, prior, w, before, oldAfter, after, start);
    PublishedSuffix(log, history, prior, w, before, oldAfter, after, suffix, start, through, revision);
  }

  /** The history a partial publication leaves behind, whatever its seeds. */
  lemma {:induction false} PublishedSuffix(
    log: Log, history: seq<Observation>, prior: World, w: World,
    before: seq<Date>, oldAfter: seq<Date>, after: seq<Date>,
    suffix: seq<Observation>, start: Date, through: Date, revision: int)
    requires CutAt(prior, w, before, oldAfter, after, start) && after != []
    requires Represents(log, history) && Lists(history, AllRows(prior, NO_MEMO, before + oldAfter))
    requires RestartedRows(w, SeedOf(w, log, after[0]), after, suffix) && after[|after| - 1] <= through
    requires Publish(log, suffix, Some(start), through, revision).Accepted?
    ensures var rebuilt := ObsBefore(history, start) + Sort(suffix);
            && Represents(Publish(log, suffix, Some(start), through, revision).log, rebuilt)
            && Lists(rebuilt, AllRows(w, NO_MEMO, before) + AllRows(w, SeedOf(w, log, after[0]), after))
  {
    hide AllRows, MemoAfter, ObsBefore, Sort, Publish, PreviousOpen, SeedAt, FoldFacts, SeedOf, Distinct;
    var m := SeedOf(w, log, after[0]);
    CutHistory(prior, history, before, oldAfter, start);
    AgreeRuns(prior, w, start, before);
    var late := AllRows(w, m, after);
    SuffixFits(w, m, after, suffix, start, through);
    SortLists(suffix, late);
    SuffixRewrite(log, history, suffix, start, through, revision);
    forall o | o in AllRows(w, NO_MEMO, before) ensures o.day < start {
      EarlyRow(w, NO_MEMO, before, start, o);
    }
    ListsJoin(ObsBefore(history, start), Sort(suffix), AllRows(w, NO_MEMO, before), late, start);
  }

  lemma {:induction false} SuffixFits(
    w: World, m: Memo, after: seq<Date>, suffix: seq<Observation>, start: Date, through: Date)
    requires Offered(w, after) && after != [] && after[|after| - 1] <= through
    requires forall i :: 0 <= i < |after| ==> start <= after[i]
    requires forall o :: o in suffix <==> o in AllRows(w, m, after)
    ensures Fits(suffix, Some(start), through)
    ensures forall o :: o in AllRows(w, m, after) ==> start <= o.day
  {
    hide AllRows;
    forall o | o in AllRows(w, m, after) ensures start <= o.day <= through {
      RowsLieOnDates(w, m, after, o);
      var i :| 0 <= i < |after| && after[i] == o.day;
    }
  }

  /** A predecessor before `start` reads the same anchors as the day before `start`. */
  lemma {:induction false} AnchorsAgree(log: Log, history: seq<Observation>, start: Date, p: Date)
    requires Represents(log, history) && p < start
    requires forall o :: o in history ==> o.day <= p || start <= o.day
    ensures SeedAt(log.events, p) == SeedAt(log.events, start - 1)
  {
    hide *;
    SeedsAreFacts(log, history, p);
    SeedsAreFacts(log, history, start - 1);
    SameCut(history, p + 1, start);
  }

  lemma {:induction false} SameCut(obs: seq<Observation>, a: Date, b: Date)
    requires a <= b && forall o :: o in obs ==> o.day < a || b <= o.day
    ensures ObsBefore(obs, a) == ObsBefore(obs, b)
  {
    if obs != [] {
      assert obs[|obs| - 1] in obs;
      SameCut(obs[..|obs| - 1], a, b);
    }
  }

  /** Full rebuild: the log represents the recognition of the whole history from scratch. */
  lemma {:induction false} FullRecognition(
    log: Log, w: World, dates: seq<Date>, obs: seq<Observation>, through: Date, revision: int)
    requires WellFormed(log) && Offered(w, dates) && Distinct(obs)
    requires forall o :: o in obs <==> o in AllRows(w, NO_MEMO, dates)
    requires forall i :: 0 <= i < |dates| ==> dates[i] <= through
    requires Publish(log, obs, None, through, revision).Accepted?
    ensures Represents(Publish(log, obs, None, through, revision).log, Sort(obs))
    ensures Lists(Sort(obs), AllRows(w, NO_MEMO, dates))
  {
    hide AllRows, Sort, Publish, Distinct;
    forall o | o in obs ensures o.day <= through {
      EarlyRow(w, NO_MEMO, dates, through + 1, o);
    }
    FullRebuild(log, obs, through, revision);
    SortLists(obs, AllRows(w, NO_MEMO, dates));
  }
}
