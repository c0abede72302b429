/** One analysis stream under source writes, configuration writes and materializations. */
module Publication {
  import opened Common
  import opened States
  import opened Timeline
  import opened EventLog
  import opened Averages
  import opened Requests
  import opened Snapshots
  import Calendar
  import Recognition
  import Restart

  /** The watermark row of one series. */
  datatype StreamRow = StreamRow(
    sourceRevision: nat, demandGeneration: nat,
    publishedRevision: int, publishedDemandGeneration: int,
    demandKey: Option<set<Request>>, dirtyFrom: Option<Date>, latestBar: Option<Date>,
    indicatorThrough: Option<Date>, stateThrough: Option<Date>)

  const NEW_STREAM := StreamRow(0, 0, -1, -1, None, None, None, None, None)

  /** Everything the three actors share: the stream row and the tables it guards. */
  datatype System = System(stream: StreamRow, bars: seq<Bar>, configured: set<Request>, rows: Rows, log: Log)

  const INITIAL := System(NEW_STREAM, [], {}, map[], EMPTY_LOG)

  /** One day's snapshot rows by type. */
  type DayRow = map<IndicatorType, map<Request, Entry>>

  /** What does not change: the calendar, the evaluators, and how a day's rows become state targets. */
  datatype Setting = Setting(calendar: Calendar.Table, rules: Recognition.Rules, root: Root,
                             project: DayRow -> Recognition.DaySnap)

  // ---------------------------------------------------------------------------------------
  // What recognition reads

  function DaysOf(rows: Rows): (r: set<Date>) { set k | k in rows :: k.0 }

  function RowsOn(rows: Rows, d: Date): (r: DayRow) {
    map t: IndicatorType | (d, t) in rows :: rows[(d, t)].variants
  }

  function CloseOn(upto: seq<Bar>, d: Date): (r: Option<real>) {
    if upto == [] || upto[|upto| - 1].day != d then None else Some(upto[|upto| - 1].candle.close)
  }

  function Closes(bars: seq<Bar>): (r: map<Date, real>) {
    map d | d in (set b | b in bars :: b.day) && CloseOn(Upto(bars, d), d).Some? :: CloseOn(Upto(bars, d), d).value
  }

  function WorldOf(e: Setting, rows: Rows, bars: seq<Bar>): (w: Recognition.World) {
    Recognition.World(map d | d in DaysOf(rows) :: e.project(RowsOn(rows, d)), Closes(bars), e.calendar, e.rules)
  }

  predicate Between(d: Date, lo: Option<Date>, hi: Date) { (lo.None? || lo.value <= d) && d <= hi }

  /** The part of the world that a query bounded by `lo` and `hi` returns. */
  function Clip(w: Recognition.World, lo: Option<Date>, hi: Date): (r: Recognition.World) {
    w.(snaps := map d | d in w.snaps && Between(d, lo, hi) :: w.snaps[d],
       closes := map d | d in w.closes && Between(d, lo, hi) :: w.closes[d])
  }

  /** `dates` lists the snapshot days of the window in order. */
  ghost predicate WindowDates(w: Recognition.World, start: Option<Date>, latest: Date, dates: seq<Date>) {
    && Calendar.StrictlyIncreasing(dates)
    && forall d :: d in dates <==> d in w.snaps && Between(d, start, latest)
  }

  /** The proven previous trading day of the first rewritten snapshot day. */
  ghost function SeedDate(w: Recognition.World, start: Option<Date>, dates: seq<Date>): (p: Option<Date>) {
    if start.None? || dates == [] then None else Recognition.Pred(w, dates[0])
  }

  ghost function ReadFrom(w: Recognition.World, start: Option<Date>, dates: seq<Date>): (lo: Option<Date>) {
    var p := SeedDate(w, start, dates);
    if p.Some? then p else start
  }

  /** Anchors are read only when the predecessor is proved. */
  ghost function SeedFor(w: Recognition.World, log: Log, start: Option<Date>, dates: seq<Date>): (m: Recognition.Memo) {
    var p := SeedDate(w, start, dates);
    if p.Some? then Restart.SeedMemo(SeedAt(log.events, p.value), p.value) else Recognition.NO_MEMO
  }

  /** The observations a state rebuild over the window publishes. */
  ghost predicate Recognized(
    w: Recognition.World, log: Log, start: Option<Date>, latest: Date, dates: seq<Date>, obs: seq<Observation>) {
    && WindowDates(w, start, latest, dates)
    && Recognition.Offered(Clip(w, ReadFrom(w, start, dates), latest), dates)
    && Distinct(obs)
    && forall o :: o in obs <==>
         o in Recognition.AllRows(Clip(w, ReadFrom(w, start, dates), latest), SeedFor(w, log, start, dates), dates)
  }

  /** A bounded query returns every day of its window. */
  lemma {:induction false} WindowInClip(
    w: Recognition.World, start: Option<Date>, latest: Date, dates: seq<Date>, i: nat)
    requires WindowDates(w, start, latest, dates) && i < |dates|
    ensures dates[i] in Clip(w, ReadFrom(w, start, dates), latest).snaps
  {
    hide Calendar.PreviousOpen;
    assert dates[i] in dates;
    var p := SeedDate(w, start, dates);
    if p.Some? {
      Calendar.PreviousOpenIsProved(w.calendar, dates[0], p.value);
    }
  }

  // ---------------------------------------------------------------------------------------
  // Materialization

  datatype Task = Task(end: Option<Date>, requests: set<Request>, force: bool)

  datatype Plan =
    | NoBars
    | StaleAnalysisTarget
    | UpToDate
    | Rebuild(start: Option<Date>, latest: Date)

  function Capped(bars: seq<Bar>, end: Option<Date>): (r: seq<Bar>) {
    if end.None? then bars else Upto(bars, end.value)
  }

  function Effective(s: System, task: Task): (r: set<Request>) { Merge(task.requests + s.configured) }

  function FirstAfter(bars: seq<Bar>, through: Date): (r: Date)
    requires bars != []
  {
    var n := CountUpto(bars, through);
    if n < |bars| then bars[n].day else bars[0].day
  }

  function OrElse(o: Option<Date>, d: Date): Date { if o.Some? then o.value else d }

  /** Full rebuild, partial rebuild, no-op or refusal. */
  function PlanOf(s: System, task: Task): (p: Plan) {
    var bars, st := Capped(s.bars, task.end), s.stream;
    if bars == [] then NoBars
    else
      var first, latest := bars[0].day, bars[|bars| - 1].day;
      if st.stateThrough.Some? && latest < st.stateThrough.value then StaleAnalysisTarget
      else if task.force || st.demandKey != Some(Effective(s, task)) || st.publishedRevision < 0
      then Rebuild(None, latest)
      else if st.dirtyFrom.Some? then Rebuild(st.dirtyFrom, latest)
      else
        var through := Min(OrElse(st.indicatorThrough, first), OrElse(st.stateThrough, first));
        if latest <= through && st.publishedRevision == st.sourceRevision then UpToDate
        else Rebuild(Some(FirstAfter(bars, through)), latest)
  }

  /** The values one materialization computed: the new rows, the recognized days, their observations. */
  datatype Work = Work(rows: Rows, dates: seq<Date>, obs: seq<Observation>)

  ghost predicate AnyWritten(rows: Rows, start: Option<Date>, latest: Date) {
    exists k :: k in rows && Rewritten(k.0, start, latest)
  }

  ghost predicate RowsRebuilt(s: System, eff: set<Request>, start: Option<Date>, latest: Date, rows: Rows, root: Root) {
    && RewrittenFrom(s.rows, rows, eff, Upto(s.bars, latest), start, latest, root)
    && (forall k :: k in rows && !Rewritten(k.0, start, latest) ==> k in s.rows && rows[k] == s.rows[k])
    && (forall k :: k in rows && Rewritten(k.0, start, latest) ==>
          rows[k].source == SourceMark(s.stream.sourceRevision, OrElse(s.stream.indicatorThrough, latest)))
  }

  /** State rebuilding covers everything while nothing was published yet. */
  function StateStart(s: System, start: Option<Date>): Option<Date> {
    if s.stream.stateThrough.None? then None else start
  }

  ghost predicate Computed(e: Setting, s: System, task: Task, work: Work) {
    var plan := PlanOf(s, task);
    plan.Rebuild? ==>
      && RowsRebuilt(s, Effective(s, task), plan.start, plan.latest, work.rows, e.root)
      && (if AnyWritten(work.rows, plan.start, plan.latest)
          then Recognized(WorldOf(e, work.rows, s.bars), s.log, StateStart(s, plan.start), plan.latest, work.dates,
                          work.obs)
          else work.obs == [] && work.dates == [])
  }

  /** Without a single indicator row the timeline is replaced by an empty one, whatever `start` was. */
  ghost function PublishedLog(s: System, start: Option<Date>, latest: Date, work: Work): (p: Published) {
    Publish(s.log, work.obs, if AnyWritten(work.rows, start, latest) then StateStart(s, start) else None, latest,
            s.stream.sourceRevision)
  }

  function Advanced(st: StreamRow, eff: set<Request>, latest: Date): (r: StreamRow) {
    var newest := Max(OrElse(st.latestBar, latest), latest);
    st.(demandKey := Some(eff), publishedRevision := st.sourceRevision,
        publishedDemandGeneration := st.demandGeneration,
        indicatorThrough := Some(latest), stateThrough := Some(latest), latestBar := Some(newest),
        dirtyFrom := if newest <= latest then None else st.dirtyFrom)
  }

  ghost function Materialized(s: System, task: Task, work: Work): (r: System) {
    match PlanOf(s, task)
    case NoBars => s
    case StaleAnalysisTarget => s
    case UpToDate => s.(stream := s.stream.(publishedDemandGeneration := s.stream.demandGeneration))
    case Rebuild(start, latest) =>
      match PublishedLog(s, start, latest, work)
      case StaleTarget => s
      case Accepted(log, _) =>
        s.(stream := Advanced(s.stream, Effective(s, task), latest), rows := work.rows, log := log)
  }

  // ---------------------------------------------------------------------------------------
  // Steps and runs

  datatype Step =
    | SourceWrite(day: Date, newest: Date, bars: seq<Bar>)
    | ConfigWrite(configured: set<Request>)
    | Materialize(task: Task, work: Work)

  ghost predicate AllCanonical(requests: set<Request>) {
    forall r :: r in requests ==> Canonical(r)
  }

  ghost predicate Allowed(e: Setting, s: System, step: Step) {
    match step
    case SourceWrite(day, newest, bars) =>
      && Ordered(bars) && SameBefore(s.bars, bars, day)
      && (forall b :: b in bars ==> b.day <= newest || exists was :: was in s.bars && was.day == b.day)
    case ConfigWrite(configured) => AllCanonical(configured)
    case Materialize(task, work) => AllCanonical(task.requests) && Computed(e, s, task, work)
  }

  function Earliest(o: Option<Date>, d: Date): (r: Option<Date>) { Some(if o.Some? then Min(o.value, d) else d) }

  function Newest(o: Option<Date>, d: Date): (r: Option<Date>) { Some(if o.Some? then Max(o.value, d) else d) }

  ghost function Next(s: System, step: Step): (r: System) {
    match step
    case SourceWrite(day, newest, bars) =>
      s.(bars := bars,
         stream := s.stream.(sourceRevision := s.stream.sourceRevision + 1,
                             dirtyFrom := Earliest(s.stream.dirtyFrom, day),
                             latestBar := Newest(s.stream.latestBar, newest)))
    case ConfigWrite(configured) =>
      s.(configured := configured, stream := s.stream.(demandGeneration := s.stream.demandGeneration + 1))
    case Materialize(task, work) => Materialized(s, task, work)
  }

  ghost function After(s: System, steps: seq<Step>): (r: System) {
    if steps == [] then s else Next(After(s, steps[..|steps| - 1]), steps[|steps| - 1])
  }

  ghost predicate AllowedRun(e: Setting, s: System, steps: seq<Step>) {
    steps == [] ||
    (AllowedRun(e, s, steps[..|steps| - 1]) && Allowed(e, After(s, steps[..|steps| - 1]), steps[|steps| - 1]))
  }

  predicate PublicationIsCurrent(st: StreamRow) {
    (st.sourceRevision == 0 && st.publishedRevision < 0)
    || (st.dirtyFrom.None? && st.publishedRevision == st.sourceRevision
        && st.publishedDemandGeneration == st.demandGeneration)
  }

  // ---------------------------------------------------------------------------------------
  // What every step keeps

  /** The watermarks bound the bars and the rows; unpublished bars are dirty. */
  ghost predicate Watermarks(s: System) {
    var st := s.stream;
    && Ordered(s.bars)
    && st.indicatorThrough == st.stateThrough
    && (st.publishedRevision >= 0 <==> st.stateThrough.Some?)
    && (st.demandKey.Some? <==> st.stateThrough.Some?)
    && (forall b :: b in s.bars ==> st.latestBar.Some? && b.day <= st.latestBar.value)
    && (forall b :: b in s.bars && (st.stateThrough.None? || st.stateThrough.value < b.day) ==>
          st.dirtyFrom.Some? && st.dirtyFrom.value <= b.day)
    && (st.dirtyFrom.None? && st.stateThrough.Some? ==>
          && st.publishedRevision == st.sourceRevision
          && st.latestBar.Some? && st.latestBar.value <= st.stateThrough.value)
    && (forall k :: k in s.rows ==> st.stateThrough.Some? && k.0 <= st.stateThrough.value)
  }

  /** A published demand generation stands for a request set that covers the configuration. */
  ghost predicate DemandCovered(s: System) {
    var st := s.stream;
    && AllCanonical(s.configured)
    && (st.demandKey.Some? ==> AllCanonical(st.demandKey.value))
    && st.publishedDemandGeneration <= st.demandGeneration
    && (st.publishedDemandGeneration == st.demandGeneration ==>
          st.demandKey.Some? && Merge(s.configured) <= st.demandKey.value)
  }

  predicate Clean(st: StreamRow, d: Date) {
    st.stateThrough.Some? && d <= st.stateThrough.value && (st.dirtyFrom.None? || d < st.dirtyFrom.value)
  }

  /** Published days before the dirty date hold the from-scratch rows of the present bars. */
  ghost predicate RowsFresh(e: Setting, s: System) {
    forall d, t :: Clean(s.stream, d) && s.stream.demandKey.Some? ==>
      Content(s.rows, d, t) == ContentAt(s.stream.demandKey.value, s.bars, d, t, e.root)
  }

  ghost predicate Sound(e: Setting, s: System) {
    Watermarks(s) && DemandCovered(s) && RowsFresh(e, s)
  }

  lemma {:induction false} InitialIsSound(e: Setting)
    ensures Sound(e, INITIAL)
  {
  }

  lemma {:induction false} SourceKeepsSound(e: Setting, s: System, day: Date, newest: Date, bars: seq<Bar>)
    requires Sound(e, s) && Allowed(e, s, SourceWrite(day, newest, bars))
    ensures Sound(e, Next(s, SourceWrite(day, newest, bars)))
  {
    hide ContentAt, SameBefore;
    var next := Next(s, SourceWrite(day, newest, bars));
    assert Watermarks(next) by { SourceKeepsWatermarks(e, s, day, newest, bars); }
    assert DemandCovered(next);
    hide Watermarks;
    assert Ordered(s.bars) by { SoundBars(e, s); }
    forall d, t | Clean(next.stream, d) && next.stream.demandKey.Some?
      ensures Content(next.rows, d, t) == ContentAt(next.stream.demandKey.value, next.bars, d, t, e.root)
    {
      assert Clean(s.stream, d);
      EarlierRowsKeep(s.stream.demandKey.value, s.bars, bars, day, d, t, e.root);
    }
  }

  lemma {:induction false} SoundBars(e: Setting, s: System)
    requires Sound(e, s)
    ensures Ordered(s.bars)
  {
  }

  /** A bar before the write's first day was there before. */
  lemma {:induction false} OldBar(was: seq<Bar>, bars: seq<Bar>, day: Date, b: Bar)
    requires Ordered(was) && Ordered(bars) && SameBefore(was, bars, day) && b in bars && b.day < day
    ensures b in was
  {
    UptoOrdered(bars, day - 1);
    UptoOrdered(was, day - 1);
    assert b in Upto(bars, day - 1);
  }

  lemma {:induction false} SourceKeepsWatermarks(e: Setting, s: System, day: Date, newest: Date, bars: seq<Bar>)
    requires Watermarks(s) && Allowed(e, s, SourceWrite(day, newest, bars))
    ensures Watermarks(Next(s, SourceWrite(day, newest, bars)))
  {
    hide SameBefore, Ordered;
    var st := Next(s, SourceWrite(day, newest, bars)).stream;
    forall b | b in bars && (st.stateThrough.None? || st.stateThrough.value < b.day)
      ensures st.dirtyFrom.value <= b.day
    {
      if b.day < day {
        OldBar(s.bars, bars, day, b);
      }
    }
  }

  lemma {:induction false} ConfigKeepsSound(e: Setting, s: System, configured: set<Request>)
    requires Sound(e, s) && Allowed(e, s, ConfigWrite(configured))
    ensures Sound(e, Next(s, ConfigWrite(configured)))
  {
    hide ContentAt, Ordered, Canonical;
    var next := Next(s, ConfigWrite(configured));
    assert RowsFresh(e, next) by {
      forall d, t | Clean(next.stream, d) && next.stream.demandKey.Some?
        ensures Content(next.rows, d, t) == ContentAt(next.stream.demandKey.value, next.bars, d, t, e.root)
      {
        assert Clean(s.stream, d);
      }
    }
  }

  lemma {:induction false} PlanFacts(s: System, task: Task)
    requires Watermarks(s) && PlanOf(s, task).Rebuild?
    ensures var latest := PlanOf(s, task).latest;
            && (s.stream.stateThrough.Some? ==> s.stream.stateThrough.value <= latest)
            && (exists b :: b in s.bars && b.day == latest)
            && (PlanOf(s, task).start.Some? ==>
                  && s.stream.demandKey == Some(Effective(s, task)) && s.stream.stateThrough.Some?
                  && (s.stream.dirtyFrom.Some? ==> PlanOf(s, task).start == s.stream.dirtyFrom))
  {
    hide CountUpto;
    var bars := Capped(s.bars, task.end);
    assert bars[|bars| - 1] in bars;
    assert bars[|bars| - 1] in s.bars by {
      if task.end.Some? { UptoOrdered(s.bars, task.end.value); }
    }
  }

  lemma {:induction false} AdvanceKeepsWatermarks(e: Setting, s: System, task: Task, work: Work, log: Log)
    requires Watermarks(s) && PlanOf(s, task).Rebuild? && Computed(e, s, task, work)
    ensures Watermarks(s.(stream := Advanced(s.stream, Effective(s, task), PlanOf(s, task).latest), rows := work.rows,
                          log := log))
  {
    PlanFacts(s, task);
    hide PlanOf, RewrittenFrom, Recognized, Effective, WorldOf, Ordered;
    var plan := PlanOf(s, task);
    forall k | k in work.rows ensures k.0 <= plan.latest {
      if !Rewritten(k.0, plan.start, plan.latest) {
        assert k in s.rows;
      }
    }
  }

  /** A published day outside the rewritten window still holds the from-scratch row. */
  lemma {:induction false} KeptRowIsFresh(e: Setting, s: System, start: Date, d: Date, t: IndicatorType)
    requires Sound(e, s) && s.stream.demandKey.Some? && s.stream.stateThrough.Some? && d < start
    requires s.stream.dirtyFrom.Some? ==> start == s.stream.dirtyFrom.value
    ensures Content(s.rows, d, t) == ContentAt(s.stream.demandKey.value, s.bars, d, t, e.root)
  {
    hide ContentAt, Ordered, AllCanonical;
    if d <= s.stream.stateThrough.value {
      assert Clean(s.stream, d);
    } else {
      assert (d, t) !in s.rows;
      if ContentAt(s.stream.demandKey.value, s.bars, d, t, e.root).Some? {
        RowsNeedBars(s.stream.demandKey.value, s.bars, d, t, e.root);
      }
    }
  }

  /** After a rebuild every published day holds the from-scratch row. */
  lemma {:induction false} RebuiltRowIsFresh(e: Setting, s: System, task: Task, work: Work, d: Date, t: IndicatorType)
    requires Sound(e, s) && PlanOf(s, task).Rebuild? && Computed(e, s, task, work) && d <= PlanOf(s, task).latest
    ensures Content(work.rows, d, t) == ContentAt(Effective(s, task), s.bars, d, t, e.root)
  {
    PlanFacts(s, task);
    var plan, eff := PlanOf(s, task), Effective(s, task);
    SoundBars(e, s);
    RowAfter(e, s, task, work, d, t);
    hide *;
    if plan.start.None? || plan.start.value <= d {
      UptoTwice(s.bars, d, plan.latest);
      SameUpto(eff, Upto(s.bars, plan.latest), s.bars, d, t, e.root);
    } else {
      KeptRowIsFresh(e, s, plan.start.value, d, t);
    }
  }

  lemma {:induction false} RowAfter(e: Setting, s: System, task: Task, work: Work, d: Date, t: IndicatorType)
    requires PlanOf(s, task).Rebuild? && Computed(e, s, task, work) && d <= PlanOf(s, task).latest
    ensures var plan := PlanOf(s, task);
            Content(work.rows, d, t) ==
            if plan.start.None? || plan.start.value <= d
            then ContentAt(Effective(s, task), Upto(s.bars, plan.latest), d, t, e.root)
            else Content(s.rows, d, t)
  {
    hide PlanOf, Recognized, WorldOf, Effective, ContentAt, Content;
    var plan := PlanOf(s, task);
    assert RewrittenFrom(s.rows, work.rows, Effective(s, task), Upto(s.bars, plan.latest), plan.start, plan.latest,
                         e.root);
    assert Content(work.rows, d, t)
        == RewrittenContent(s.rows, Effective(s, task), Upto(s.bars, plan.latest), plan.start, plan.latest, e.root, d,
                            t);
  }

  lemma {:induction false} AdvanceKeepsRows(e: Setting, s: System, task: Task, work: Work, log: Log)
    requires Sound(e, s) && PlanOf(s, task).Rebuild? && Computed(e, s, task, work)
    ensures RowsFresh(e, s.(stream := Advanced(s.stream, Effective(s, task), PlanOf(s, task).latest), rows := work.rows,
                            log := log))
  {
    hide PlanOf, Computed, Effective, ContentAt, Content, Sound;
    var next := s.(stream := Advanced(s.stream, Effective(s, task), PlanOf(s, task).latest), rows := work.rows,
                   log := log);
    forall d, t | Clean(next.stream, d) && next.stream.demandKey.Some?
      ensures Content(next.rows, d, t) == ContentAt(next.stream.demandKey.value, next.bars, d, t, e.root)
    {
      RebuiltRowIsFresh(e, s, task, work, d, t);
    }
  }

  lemma {:induction false} AdvanceKeepsDemand(s: System, task: Task, latest: Date, rows: Rows, log: Log)
    requires DemandCovered(s) && AllCanonical(task.requests)
    ensures DemandCovered(s.(stream := Advanced(s.stream, Effective(s, task), latest), rows := rows, log := log))
    ensures s.stream.demandKey == Some(Effective(s, task)) ==>
            DemandCovered(s.(stream := s.stream.(publishedDemandGeneration := s.stream.demandGeneration)))
  {
    MergeIsCanonical(task.requests + s.configured);
    hide DEFAULTS, Canonical;
  }

  lemma {:induction false} MergeIsCanonical(requests: set<Request>)
    requires AllCanonical(requests)
    ensures AllCanonical(Merge(requests))
  {
    assert forall p :: p in {5, 10} ==> Period(p);
    assert |{5, 10}| == 2;
    assert AllCanonical(DEFAULTS);
    hide DEFAULTS, Canonical;
  }

  lemma {:induction false} UpToDateFacts(s: System, task: Task)
    requires Watermarks(s) && PlanOf(s, task).UpToDate?
    ensures s.stream.demandKey == Some(Effective(s, task)) && s.stream.dirtyFrom.None?
  {
  }

  lemma {:induction false} UpToDateKeepsSound(e: Setting, s: System, task: Task)
    requires Sound(e, s) && AllCanonical(task.requests) && PlanOf(s, task).UpToDate?
    ensures Sound(e, s.(stream := s.stream.(publishedDemandGeneration := s.stream.demandGeneration)))
  {
    UpToDateFacts(s, task);
    AdvanceKeepsDemand(s, task, 0, s.rows, s.log);
    hide PlanOf, Effective, ContentAt, Content, Ordered, DemandCovered;
    var next := s.(stream := s.stream.(publishedDemandGeneration := s.stream.demandGeneration));
    forall d, t | Clean(next.stream, d)
      ensures Content(next.rows, d, t) == ContentAt(next.stream.demandKey.value, next.bars, d, t, e.root)
    {
      assert Clean(s.stream, d);
    }
  }

  lemma {:induction false} MaterializeKeepsSound(e: Setting, s: System, task: Task, work: Work)
    requires Sound(e, s) && Allowed(e, s, Materialize(task, work))
    ensures Sound(e, Next(s, Materialize(task, work)))
  {
    hide PlanOf, Computed, Effective, Sound, PublishedLog, AllCanonical;
    if PlanOf(s, task).UpToDate? {
      UpToDateKeepsSound(e, s, task);
    } else if PlanOf(s, task).Rebuild? {
      var plan := PlanOf(s, task);
      var p := PublishedLog(s, plan.start, plan.latest, work);
      if p.Accepted? {
        SoundParts(e, s);
        AdvanceKeepsWatermarks(e, s, task, work, p.log);
        AdvanceKeepsRows(e, s, task, work, p.log);
        AdvanceKeepsDemand(s, task, plan.latest, work.rows, p.log);
        SoundWhole(e, Next(s, Materialize(task, work)));
      }
    }
  }

  lemma {:induction false} SoundParts(e: Setting, s: System)
    requires Sound(e, s)
    ensures Watermarks(s) && DemandCovered(s) && RowsFresh(e, s)
  {
  }

  lemma {:induction false} SoundWhole(e: Setting, s: System)
    requires Watermarks(s) && DemandCovered(s) && RowsFresh(e, s)
    ensures Sound(e, s)
  {
  }

  lemma {:induction false} RunKeepsSound(e: Setting, steps: seq<Step>)
    requires AllowedRun(e, INITIAL, steps)
    ensures Sound(e, After(INITIAL, steps))
  {
    InitialIsSound(e);
    if steps != [] {
      var init, step := steps[..|steps| - 1], steps[|steps| - 1];
      RunKeepsSound(e, init);
      hide Sound, Allowed, Next;
      match step
      case SourceWrite(day, newest, bars) => SourceKeepsSound(e, After(INITIAL, init), day, newest, bars);
      case ConfigWrite(configured) => ConfigKeepsSound(e, After(INITIAL, init), configured);
      case Materialize(task, work) => MaterializeKeepsSound(e, After(INITIAL, init), task, work);
    }
  }

  /** Every interleaving: a published stream that reads as current was computed from a request set
      covering the configuration, and its snapshots are those of a from-scratch computation over the
      present bars, no more and no fewer. */
  lemma {:induction false} CurrentSnapshotsAreFresh(e: Setting, steps: seq<Step>)
    requires AllowedRun(e, INITIAL, steps)
    requires var st := After(INITIAL, steps).stream; st.publishedRevision >= 0 && PublicationIsCurrent(st)
    ensures var s := After(INITIAL, steps);
            && s.stream.demandKey.Some? && Merge(s.configured) <= s.stream.demandKey.value
            && forall d, t :: Content(s.rows, d, t) == ContentAt(s.stream.demandKey.value, s.bars, d, t, e.root)
  {
    RunKeepsSound(e, steps);
    var s := After(INITIAL, steps);
    hide After, ContentAt, AllowedRun, Content;
    assert Watermarks(s) && DemandCovered(s);
    forall d, t ensures Content(s.rows, d, t) == ContentAt(s.stream.demandKey.value, s.bars, d, t, e.root) {
      KeptRowIsFresh(e, s, d + 1, d, t);
    }
  }

  /** Under these writers a clean stream never reaches the last branch of the plan. */
  lemma {:induction false} CleanStreamsAreUpToDate(e: Setting, steps: seq<Step>, task: Task)
    requires AllowedRun(e, INITIAL, steps)
    ensures var s := After(INITIAL, steps);
            var plan := PlanOf(s, task);
            plan.Rebuild? && plan.start.Some? ==> plan.start == s.stream.dirtyFrom
  {
    RunKeepsSound(e, steps);
    var s := After(INITIAL, steps);
    hide After, AllowedRun, CountUpto, RowsFresh, DemandCovered;
    var bars := Capped(s.bars, task.end);
    if bars != [] {
      assert bars[|bars| - 1] in s.bars by {
        assert bars[|bars| - 1] in bars;
        if task.end.Some? { UptoOrdered(s.bars, task.end.value); }
      }
    }
  }
}
