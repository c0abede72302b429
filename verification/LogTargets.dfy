/** What an event consumer may rely on, target by target, over every publication of a log. */
module LogTargets {
  import opened Common
  import opened States
  import opened Timeline
  import opened EventLog
  import opened LogRuns

  /** Recognition carries every target of a batch to its last day. */
  ghost predicate Reaches(b: Batch) {
    forall o :: o in b.obs ==> exists x :: x in b.obs && x.target == o.target && x.day == b.through
  }

  /** Every valid event lies at or before its target's current row. */
  ghost predicate TargetBounded(log: Log) {
    forall c :: c in ValidChanges(log.events) ==> c.target in log.current && c.day <= log.current[c.target].day
  }

  /** Every ENTER event carries an active status. */
  ghost predicate EntersActive(events: seq<Event>) {
    forall e :: e in events && e.change.kind == Enter ==> e.change.fact.status == Active
  }

  ghost predicate Ready(s: Stream) {
    LiveBounded(s) && TargetBounded(s.log) && EntersActive(s.log.events) && AnnouncedOnce(s.log.events)
  }

  // ---------------------------------------------------------------------------------------
  // Current rows

  lemma {:induction false} LastRowIsLatest(facts: Facts, obs: seq<Observation>, revision: int, o: Observation)
    requires Sorted(obs) && o in obs
    ensures o.target in LastRows(facts, obs, revision) && o.day <= LastRows(facts, obs, revision)[o.target].day
  {
    var init, last := obs[..|obs| - 1], obs[|obs| - 1];
    hide FoldFacts, FactAfter;
    var i :| 0 <= i < |obs| && obs[i] == o;
    if i < |obs| - 1 {
      assert init[i] == o;
      assert o in init;
      LastRowIsLatest(facts, init, revision, o);
      assert NotAfter(obs[i], obs[|obs| - 1]);
    }
  }

  /** The rows one publication leaves: refreshed for the targets of the batch, else as they were. */
  ghost function NextRows(
    log: Log, obs: seq<Observation>, start: Option<Date>, revision: int): (r: map<Target, CurrentRow>) {
    (if start.None? then map[] else log.current) + LastRows(Anchors(log, start), Sort(obs), revision)
  }

  lemma {:induction false} PublishedRows(
    log: Log, obs: seq<Observation>, start: Option<Date>, through: Date, revision: int)
    requires Publish(log, obs, start, through, revision).Accepted?
    ensures Publish(log, obs, start, through, revision).log.current == NextRows(log, obs, start, revision)
  {
    hide LastRows, Sort, FoldChanges, WindowChanges, Invalidate, Numbered, Anchors;
  }

  lemma {:induction false} RowOfTarget(
    log: Log, obs: seq<Observation>, start: Option<Date>, revision: int, o: Observation)
    requires o in obs
    ensures var rows := NextRows(log, obs, start, revision); o.target in rows && o.day <= rows[o.target].day
  {
    hide LastRows, Sort, Anchors;
    SortSorts(obs);
    SortMembers(obs, o);
    LastRowIsLatest(Anchors(log, start), Sort(obs), revision, o);
  }

  /** A row is refreshed to a day of the batch, or left as it was. */
  lemma {:induction false} RowOrigin(log: Log, obs: seq<Observation>, start: Option<Date>, revision: int, t: Target)
    requires t in NextRows(log, obs, start, revision)
    ensures var row := NextRows(log, obs, start, revision)[t];
            || (exists o :: o in obs && o.target == t && o.day == row.day)
            || (start.Some? && t in log.current && row == log.current[t])
  {
    hide LastRows, Sort, Anchors;
    var rows := LastRows(Anchors(log, start), Sort(obs), revision);
    LastRowsFrom(Anchors(log, start), Sort(obs), revision, t);
    if t in rows {
      var o :| o in Sort(obs) && o.target == t && o.day == rows[t].day;
      SortMembers(obs, o);
    }
  }

  lemma {:induction false} BoundedChange(
    log: Log, obs: seq<Observation>, start: Option<Date>, through: Date, revision: int, c: Change)
    requires TargetBounded(log) && Fits(obs, start, through)
    requires c in Kept(ValidChanges(log.events), start) || c in FoldChanges(Anchors(log, start), Sort(obs))
    ensures var rows := NextRows(log, obs, start, revision); c.target in rows && c.day <= rows[c.target].day
  {
    hide ValidChanges, FoldChanges, Sort, Anchors, LastRows;
    if c in FoldChanges(Anchors(log, start), Sort(obs)) {
      FoldChangesDays(Anchors(log, start), Sort(obs));
      var o :| o in Sort(obs) && o.day == c.day && o.target == c.target;
      SortMembers(obs, o);
      RowOfTarget(log, obs, start, revision, o);
    } else {
      ChangesBeforeMembers(ValidChanges(log.events), start.value);
      RowOrigin(log, obs, start, revision, c.target);
    }
  }

  lemma {:induction false} PublishKeepsBounded(
    log: Log, obs: seq<Observation>, start: Option<Date>, through: Date, revision: int)
    requires WellFormed(log) && TargetBounded(log) && Fits(obs, start, through)
    requires Publish(log, obs, start, through, revision).Accepted?
    ensures TargetBounded(Publish(log, obs, start, through, revision).log)
  {
    hide ValidChanges, FoldChanges, Sort, Anchors, LastRows, Publish, WellFormed, Kept, NextRows, Fits;
    PublishedTimeline(log, obs, start, through, revision);
    PublishedRows(log, obs, start, through, revision);
    var next := Publish(log, obs, start, through, revision).log;
    forall c | c in ValidChanges(next.events) ensures c.target in next.current && c.day <= next.current[c.target].day {
      BoundedChange(log, obs, start, through, revision, c);
    }
  }

  // ---------------------------------------------------------------------------------------
  // Events

  lemma {:induction false} FoldEntersActive(facts: Facts, obs: seq<Observation>, c: Change)
    requires c in FoldChanges(facts, obs) && c.kind == Enter
    ensures c.fact.status == Active
  {
    var init, o := obs[..|obs| - 1], obs[|obs| - 1];
    if c in FoldChanges(facts, init) {
      FoldEntersActive(facts, init, c);
    }
  }

  lemma {:induction false} PublishKeepsEnters(s: Stream, b: Batch)
    requires EntersActive(s.log.events) && Publish(s.log, b.obs, b.start, b.through, b.revision).Accepted?
    ensures EntersActive(Publish(s.log, b.obs, b.start, b.through, b.revision).log.events)
  {
    NextEvents(s, b);
    hide Publish, FoldChanges, Sort, Anchors, Through;
    var next := Publish(s.log, b.obs, b.start, b.through, b.revision).log;
    var changes := FoldChanges(Anchors(s.log, b.start), Sort(b.obs));
    forall e | e in next.events && e.change.kind == Enter ensures e.change.fact.status == Active {
      if e !in s.log.events {
        var prior := Invalidate(s.log.events, b.start, b.through);
        if e in prior {
          var i :| 0 <= i < |prior| && prior[i] == e;
          assert s.log.events[i] in s.log.events;
        } else {
          var added := Numbered(changes, s.log.sequence, Through(s.log.current), b.revision);
          var i :| 0 <= i < |added| && added[i] == e;
          FoldEntersActive(Anchors(s.log, b.start), Sort(b.obs), e.change);
        }
      }
    }
  }

  lemma {:induction false} MaterializeKeepsReady(s: Stream, b: Batch)
    requires Ready(s) && Proper(b)
    ensures Ready(Materialize(s, b))
  {
    hide Publish, LiveBounded, Proper, TargetBounded, EntersActive, AnnouncedOnce;
    LiveStaysBounded(s, b);
    StepAnnouncesOnce(s, b);
    if Publish(s.log, b.obs, b.start, b.through, b.revision).Accepted? {
      assert WellFormed(s.log) && Fits(b.obs, b.start, b.through) by { BoundedParts(s, b); }
      PublishKeepsBounded(s.log, b.obs, b.start, b.through, b.revision);
      PublishKeepsEnters(s, b);
    }
  }

  lemma {:induction false} BoundedParts(s: Stream, b: Batch)
    requires LiveBounded(s) && Proper(b)
    ensures WellFormed(s.log) && Fits(b.obs, b.start, b.through)
  {
  }

  /** Events are never dropped, renumbered or revived, and new ones take higher numbers. */
  ghost predicate Continues(a: Log, b: Log) {
    && |a.events| <= |b.events| && a.sequence <= b.sequence
    && (forall i :: 0 <= i < |a.events| ==> SameEvent(a.events[i], b.events[i]))
    && (forall i :: |a.events| <= i < |b.events| ==> a.sequence < b.events[i].number)
  }

  predicate SameEvent(a: Event, b: Event) {
    a.number == b.number && a.change == b.change && a.restated == b.restated && (b.valid ==> a.valid)
  }

  lemma {:induction false} MaterializeContinues(s: Stream, b: Batch)
    ensures Continues(s.log, Materialize(s, b).log)
  {
    if Publish(s.log, b.obs, b.start, b.through, b.revision).Accepted? {
      hide LastRows, Sort, FoldChanges, WindowChanges, Anchors, Through;
    }
  }

  /** Current rows only move forward: each stays, or jumps to the new watermark. */
  lemma {:induction false} RowsMoveForward(s: Stream, b: Batch, t: Target)
    requires Proper(b) && Reaches(b) && t in Materialize(s, b).log.current
    ensures var next := Materialize(s, b);
            || (t in s.log.current && next.log.current[t].day == s.log.current[t].day)
            || (next.stateThrough == Some(b.through) && next.log.current[t].day == b.through
                && (s.stateThrough.Some? ==> s.stateThrough.value <= b.through))
  {
    hide Publish, NextRows, Reaches, Proper;
    var p := Publish(s.log, b.obs, b.start, b.through, b.revision);
    if p.Accepted? && (s.stateThrough.Some? ==> s.stateThrough.value <= b.through) {
      PublishedRows(s.log, b.obs, b.start, b.through, b.revision);
      RowOrigin(s.log, b.obs, b.start, b.revision, t);
      if o :| o in b.obs && o.target == t && o.day == p.log.current[t].day {
        RowReaches(s.log, b, o);
      }
    }
  }

  lemma {:induction false} RowReaches(log: Log, b: Batch, o: Observation)
    requires Proper(b) && Reaches(b) && o in b.obs
    ensures var rows := NextRows(log, b.obs, b.start, b.revision);
            o.target in rows && (o.day == rows[o.target].day ==> o.day == b.through)
  {
    hide NextRows, Distinct;
    var x :| x in b.obs && x.target == o.target && x.day == b.through;
    hide Reaches;
    RowOfTarget(log, b.obs, b.start, b.revision, x);
    BatchEnds(b, o);
  }

  lemma {:induction false} BatchEnds(b: Batch, o: Observation)
    requires Proper(b) && o in b.obs
    ensures o.day <= b.through
  {
  }

  lemma {:induction false} FreshIsReady()
    ensures Ready(FRESH_STREAM)
  {
  }
}
