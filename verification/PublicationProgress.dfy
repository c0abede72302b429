/** Every materialization can be carried out: the work its step is labelled with always exists. */
module PublicationProgress {
  import opened Common
  import opened States
  import opened Timeline
  import opened EventLog
  import opened Recognition
  import opened Restart
  import opened Averages
  import opened Requests
  import opened Snapshots
  import opened Publication
  import Calendar

  // ---------------------------------------------------------------------------------------
  // Snapshot rows

  ghost function BarKeys(bars: seq<Bar>): (r: set<Key>) {
    set i: int, t: IndicatorType | 0 <= i < |bars| :: (bars[i].day, t)
  }

  /** The table one materialization leaves. */
  ghost function FreshTable(
    rows: Rows, requests: set<Request>, bars: seq<Bar>, from: Option<Date>, end: Date, root: Root, mark: SourceMark)
    : (r: Rows)
  {
    map k: Key | k in rows.Keys + BarKeys(bars) && FreshRow(rows, requests, bars, from, end, root, mark, k).Some?
      :: FreshRow(rows, requests, bars, from, end, root, mark, k).value
  }

  ghost function FreshRow(
    rows: Rows, requests: set<Request>, bars: seq<Bar>, from: Option<Date>, end: Date, root: Root, mark: SourceMark,
    k: Key)
    : (r: Option<SnapshotRow>)
  {
    if Rewritten(k.0, from, end) then
      match ContentAt(requests, bars, k.0, k.1, root)
      case Some(entries) => Some(SnapshotRow(entries, mark))
      case None => None
    else Get(rows, k)
  }

  lemma {:induction false} FreshTableIsRewritten(
    rows: Rows, requests: set<Request>, bars: seq<Bar>, from: Option<Date>, end: Date, root: Root, mark: SourceMark)
    requires Ordered(bars)
    ensures var next := FreshTable(rows, requests, bars, from, end, root, mark);
            && RewrittenFrom(rows, next, requests, bars, from, end, root)
            && (forall k :: k in next && !Rewritten(k.0, from, end) ==> k in rows && next[k] == rows[k])
            && (forall k :: k in next && Rewritten(k.0, from, end) ==> next[k].source == mark)
  {
    hide ContentAt, Ordered, Rewritten;
    var next := FreshTable(rows, requests, bars, from, end, root, mark);
    forall d, t ensures Content(next, d, t) == RewrittenContent(rows, requests, bars, from, end, root, d, t) {
      if Rewritten(d, from, end) && ContentAt(requests, bars, d, t, root).Some? {
        RowsNeedBars(requests, bars, d, t, root);
        var b :| b in bars && b.day == d;
        var i :| 0 <= i < |bars| && bars[i] == b;
        assert (d, t) in BarKeys(bars);
      }
    }
  }

  // ---------------------------------------------------------------------------------------
  // Days and observations

  lemma {:induction false} SortedDaysExist(s: set<Date>) returns (r: seq<Date>)
    ensures Calendar.StrictlyIncreasing(r) && forall d :: d in r <==> d in s
    decreases |s|
  {
    if s == {} {
      r := [];
    } else {
      var m := Latest(s);
      var init := SortedDaysExist(s - {m});
      r := init + [m];
      assert forall i :: 0 <= i < |init| ==> init[i] in init;
    }
  }

  lemma {:induction false} RecognitionExists(w: World, log: Log, start: Option<Date>, latest: Date)
    returns (dates: seq<Date>, obs: seq<Observation>)
    ensures Recognized(w, log, start, latest, dates, obs)
  {
    hide AllRows, Clip, Calendar.PreviousOpen, SeedAt, Distinct;
    dates := SortedDaysExist(set d | d in w.snaps && Between(d, start, latest));
    var c, m := Clip(w, ReadFrom(w, start, dates), latest), SeedFor(w, log, start, dates);
    forall i | 0 <= i < |dates| ensures dates[i] in c.snaps {
      WindowInClip(w, start, latest, dates, i);
    }
    forall a, b | a in AllRows(c, m, dates) && b in AllRows(c, m, dates) && a.day == b.day && a.target == b.target
      ensures a == b
    {
      RowsAreUnique(c, m, dates, a, b);
    }
    obs := RowsCanBeListed(AllRows(c, m, dates));
  }

  /** Whatever the state and the task, a materialization has work to carry out. */
  lemma {:induction false} WorkExists(e: Setting, s: System, task: Task) returns (work: Work)
    requires Ordered(s.bars)
    ensures Computed(e, s, task, work)
  {
    hide PlanOf, RewrittenFrom, Recognized, WorldOf, Effective, AnyWritten, FreshTable, Upto, Ordered;
    var plan := PlanOf(s, task);
    work := Work(s.rows, [], []);
    if plan.Rebuild? {
      var mark := SourceMark(s.stream.sourceRevision, OrElse(s.stream.indicatorThrough, plan.latest));
      var bars := Upto(s.bars, plan.latest);
      UptoOrdered(s.bars, plan.latest);
      var rows := FreshTable(s.rows, Effective(s, task), bars, plan.start, plan.latest, e.root, mark);
      FreshTableIsRewritten(s.rows, Effective(s, task), bars, plan.start, plan.latest, e.root, mark);
      work := Work(rows, [], []);
      if AnyWritten(rows, plan.start, plan.latest) {
        var dates, obs :=
          RecognitionExists(WorldOf(e, rows, s.bars), s.log, StateStart(s, plan.start), plan.latest);
        work := Work(rows, dates, obs);
      }
    }
  }
}
