/** What one publication stores, spoken of events and rows alone: which new events are live, what they
    say of the day they were observed on, and what the current rows show. */
module StoredRows {
  import opened Common
  import opened States
  import opened Timeline
  import opened EventLog
  import opened LogRuns
  import opened LogHistory
  import opened AlertReplay

  // ---------------------------------------------------------------------------------------
  // New events

  /** Every current row lies before a day, and there is one. */
  ghost predicate PastEveryRow(current: map<Target, CurrentRow>, day: Date) {
    current != map[] && forall t: Target :: t in current ==> current[t].day < day
  }

  lemma {:induction false} NewEventAt(
    log: Log, obs: seq<Observation>, start: Option<Date>, through: Date, revision: int, i: nat)
    requires Publish(log, obs, start, through, revision).Accepted?
    requires i < |Publish(log, obs, start, through, revision).log.events|
    ensures var next := Publish(log, obs, start, through, revision).log;
            && |log.events| <= |next.events|
            && (i < |log.events| ==> SameButValid(next.events[i], log.events[i]))
            && (i >= |log.events| ==>
                  var e := next.events[i];
                  && e.number == log.sequence + 1 + (i - |log.events|) && e.valid && e.revision == revision
                  && e.change in FoldChanges(Anchors(log, start), Sort(obs))
                  && (e.restated <==> !PastEveryRow(log.current, e.change.day)))
  {
    hide LastRows, Sort, FoldChanges, WindowChanges, Anchors;
    var previous := Through(log.current);
    if i >= |log.events| {
      var e := Publish(log, obs, start, through, revision).log.events[i];
      var changes := FoldChanges(Anchors(log, start), Sort(obs));
      assert e == Numbered(changes, log.sequence, previous, revision)[i - |log.events|];
    }
  }

  /** The same event, perhaps revised meanwhile. */
  predicate SameButValid(a: Event, b: Event) { a == b.(valid := a.valid) && (a.valid ==> b.valid) }

  /** After any publication the events numbered past the old sequence are the written ones: numbered
      without a gap, valid, of this revision, and live exactly when rows exist and all lie before them. */
  lemma {:induction false} NewEventsAreLive(
    log: Log, obs: seq<Observation>, start: Option<Date>, through: Date, revision: int, e: Event)
    requires WellFormed(log) && Publish(log, obs, start, through, revision).Accepted?
    requires e in Publish(log, obs, start, through, revision).log.events && log.sequence < e.number
    ensures e.valid && e.revision == revision
    ensures e.number <= log.sequence + Publish(log, obs, start, through, revision).written
    ensures !e.restated <==>
              log.current != map[] && forall t: Target :: t in log.current ==> log.current[t].day < e.change.day
  {
    var events := Publish(log, obs, start, through, revision).log.events;
    var i :| 0 <= i < |events| && events[i] == e;
    NewEventAt(log, obs, start, through, revision, i);
    OldNumbers(log);
    EventsCount(log, obs, start, through, revision);
    hide Publish, WellFormed, FoldChanges, Sort, Anchors;
  }

  lemma {:induction false} OldNumbers(log: Log)
    requires WellFormed(log)
    ensures forall i :: 0 <= i < |log.events| ==> log.events[i].number <= log.sequence
  {
    hide ValidChanges;
  }

  lemma {:induction false} EventsCount(
    log: Log, obs: seq<Observation>, start: Option<Date>, through: Date, revision: int)
    requires Publish(log, obs, start, through, revision).Accepted?
    ensures var r := Publish(log, obs, start, through, revision);
            && |r.log.events| == |log.events| + r.written && r.log.sequence == log.sequence + r.written
  {
    hide LastRows, Sort, FoldChanges, WindowChanges, Anchors, Through;
  }

  /** A valid change dated past every current row is a new event of this publication, and live. */
  lemma {:induction false} LateChangeIsLive(
    log: Log, obs: seq<Observation>, start: Option<Date>, through: Date, revision: int, c: Change)
    requires WellFormed(log) && Publish(log, obs, start, through, revision).Accepted?
    requires c in ValidChanges(Publish(log, obs, start, through, revision).log.events)
    requires PastEveryRow(log.current, c.day)
    ensures exists e :: e in Publish(log, obs, start, through, revision).log.events && e.valid && e.change == c
                        && log.sequence < e.number && !e.restated
  {
    hide Publish, FoldChanges, Sort, Anchors, ValidChanges, WellFormed, PastEveryRow;
    var events := Publish(log, obs, start, through, revision).log.events;
    ValidEvent(events, c);
    var e :| e in events && e.valid && e.change == c;
    var i :| 0 <= i < |events| && events[i] == e;
    NewEventAt(log, obs, start, through, revision, i);
    OldChanges(log, c.day);
  }

  lemma {:induction false} OldChanges(log: Log, day: Date)
    requires WellFormed(log) && PastEveryRow(log.current, day)
    ensures forall i :: 0 <= i < |log.events| && log.events[i].valid ==> log.events[i].change.day < day
  {
    hide ValidChanges;
    forall i | 0 <= i < |log.events| && log.events[i].valid ensures log.events[i].change.day < day {
      ValidIn(log.events, log.events[i]);
    }
  }

  lemma {:induction false} ValidEvent(events: seq<Event>, c: Change)
    requires c in ValidChanges(events)
    ensures exists e :: e in events && e.valid && e.change == c
  {
    var init, last := events[..|events| - 1], events[|events| - 1];
    if c in ValidChanges(init) {
      ValidEvent(init, c);
    }
    assert events == init + [last];
  }

  /** An ENTER change dated past every current row is among the alerts that consumers replay. */
  lemma {:induction false} EnterIsAnnounced(
    log: Log, obs: seq<Observation>, start: Option<Date>, through: Date, revision: int, c: Change, after: Date)
    requires WellFormed(log) && Publish(log, obs, start, through, revision).Accepted?
    requires c in ValidChanges(Publish(log, obs, start, through, revision).log.events) && c.kind == Enter
    requires PastEveryRow(log.current, c.day) && after < c.day
    ensures exists a :: a in EntersAfter(Publish(log, obs, start, through, revision).log.events, c.target, after)
                        && a.day == c.day && a.event.Some? && log.sequence < a.event.value
  {
    hide Publish, ValidChanges, EntersAfter, WellFormed, PastEveryRow;
    LateChangeIsLive(log, obs, start, through, revision, c);
    var events := Publish(log, obs, start, through, revision).log.events;
    var e :| e in events && e.valid && e.change == c && log.sequence < e.number && !e.restated;
    EntersAfterMembers(events, c.target, after, AlertOf(e));
  }

  /** Every run: the alerts that a publication adds are exactly the ENTER changes of its timeline dated
      past every current row before it. */
  lemma {:induction false} NewAlertsAreLateEnters(bs: seq<Batch>, b: Batch, t: Target, after: Date, day: Date)
    requires forall x :: x in bs ==> Proper(x)
    requires var s := Run(FRESH_STREAM, bs);
             Publish(s.log, b.obs, b.start, b.through, b.revision).Accepted?
    ensures var s := Run(FRESH_STREAM, bs);
            var events := Publish(s.log, b.obs, b.start, b.through, b.revision).log.events;
            (exists a :: a in EntersAfter(events, t,
                                          after) && a.day == day && a.event.Some? && s.log.sequence < a.event.value)
            ==> after < day && PastEveryRow(s.log.current, day)
                && exists c :: c in ValidChanges(events) && c.target == t && c.day == day && c.kind == Enter
    ensures var s := Run(FRESH_STREAM, bs);
            var events := Publish(s.log, b.obs, b.start, b.through, b.revision).log.events;
            after < day && PastEveryRow(s.log.current, day)
            && (exists c :: c in ValidChanges(events) && c.target == t && c.day == day && c.kind == Enter)
            ==> exists a :: a in EntersAfter(events, t,
                                             after) && a.day == day && a.event.Some? && s.log.sequence < a.event.value
  {
    RunRepresents(bs);
    hide Run, History, StrictlySorted, Publish, ValidChanges, EntersAfter, PastEveryRow, FoldChanges;
    var s := Run(FRESH_STREAM, bs);
    RepresentsWell(s.log, History(bs));
    var events := Publish(s.log, b.obs, b.start, b.through, b.revision).log.events;
    if c :| c in ValidChanges(events) && c.target == t && c.day == day && c.kind == Enter {
      if after < day && PastEveryRow(s.log.current, day) {
        EnterIsAnnounced(s.log, b.obs, b.start, b.through, b.revision, c, after);
      }
    }
    if a :| a in EntersAfter(events, t, after) && a.day == day && a.event.Some? && s.log.sequence < a.event.value {
      EntersAfterMembers(events, t, after, a);
      var e :| e in events && e.valid && e.change.target == t && after < e.change.day && IsLiveEnter(e)
               && a == AlertOf(e);
      LiveMeansPast(s.log, b, e);
      ValidIn(events, e);
    }
  }

  lemma {:induction false} LiveMeansPast(log: Log, b: Batch, e: Event)
    requires WellFormed(log) && Publish(log, b.obs, b.start, b.through, b.revision).Accepted?
    requires e in Publish(log, b.obs, b.start, b.through, b.revision).log.events && log.sequence < e.number
    requires !e.restated
    ensures PastEveryRow(log.current, e.change.day)
  {
    NewEventsAreLive(log, b.obs, b.start, b.through, b.revision, e);
    hide Publish, WellFormed;
  }

  // ---------------------------------------------------------------------------------------
  // Changes and current rows are observations

  /** A change says what was observed of its target on its day. */
  lemma {:induction false} ChangeIsObservation(facts: Facts, obs: seq<Observation>, c: Change)
    requires c in FoldChanges(facts, obs)
    ensures exists o :: o in obs && o.day == c.day && o.target == c.target && o.status == c.fact.status
                        && o.transition == c.transition && o.detail == c.detail
  {
    var init, last := obs[..|obs| - 1], obs[|obs| - 1];
    assert obs == init + [last];
    if c in FoldChanges(facts, init) {
      ChangeIsObservation(facts, init, c);
      var o :| o in init && o.day == c.day && o.target == c.target && o.status == c.fact.status
               && o.transition == c.transition && o.detail == c.detail;
      assert o in obs;
    } else {
      assert last in obs;
    }
  }

  /** Every run: a valid event says what the run's history observed of its target on its day. */
  lemma {:induction false} EventsAreObservations(bs: seq<Batch>, e: Event)
    requires (forall b :: b in bs ==> Proper(b)) && e in Run(FRESH_STREAM, bs).log.events && e.valid
    ensures exists o :: o in History(bs) && o.day == e.change.day && o.target == e.change.target
                        && o.status == e.change.fact.status && o.transition == e.change.transition
                        && o.detail == e.change.detail
  {
    RunRepresents(bs);
    hide Run, History, StrictlySorted, FoldChanges, ValidChanges;
    ValidIn(Run(FRESH_STREAM, bs).log.events, e);
    ChangeIsObservation(map[], History(bs), e.change);
  }

  /** `o` is the last observation of its target. */
  ghost predicate IsLastOf(obs: seq<Observation>, o: Observation) {
    o in obs && forall x :: x in obs && x.target == o.target ==> x.day <= o.day
  }

  /** A row shows an observation: its day, status, edge and metadata. */
  predicate Shows(row: CurrentRow, o: Observation) {
    row.day == o.day && row.fact.status == o.status && row.transition == o.transition && row.detail == o.detail
  }

  lemma {:induction false} LastRowShows(facts: Facts, obs: seq<Observation>, revision: int, o: Observation)
    requires StrictlySorted(obs) && IsLastOf(obs, o)
    ensures var rows := LastRows(facts, obs, revision);
            && o.target in rows && Shows(rows[o.target], o) && rows[o.target].revision == revision
            && o.target in FoldFacts(facts, obs) && rows[o.target].fact == FoldFacts(facts, obs)[o.target]
  {
    var init, last := obs[..|obs| - 1], obs[|obs| - 1];
    assert obs == init + [last];
    LastDominates(obs, o);
    if o.target == last.target {
      assert last in obs;
      assert o == last;
      hide StrictlySorted, FactAfter;
    } else {
      assert o in init;
      assert StrictlySorted(init);
      LastRowShows(facts, init, revision, o);
      hide StrictlySorted, FactAfter;
    }
  }

  lemma {:induction false} LastOfExists(obs: seq<Observation>, t: Target) returns (o: Observation)
    requires StrictlySorted(obs) && exists x :: x in obs && x.target == t
    ensures IsLastOf(obs, o) && o.target == t
  {
    var init, last := obs[..|obs| - 1], obs[|obs| - 1];
    assert obs == init + [last];
    if last.target == t {
      o := last;
      assert last in obs;
      forall x | x in obs ensures x.day <= last.day {
        LastDominates(obs, x);
      }
    } else {
      assert StrictlySorted(init);
      var x :| x in obs && x.target == t;
      assert x in init;
      o := LastOfExists(init, t);
    }
  }

  /** Every run: after an accepted publication a target of the batch shows its last observation there,
      with the fact its last valid event carries; other targets keep their row or, when everything was
      replaced, have none. */
  lemma {:induction false} CurrentRowsShowLastRows(bs: seq<Batch>, b: Batch, t: Target)
    requires (forall x :: x in bs ==> Proper(x)) && Proper(b) && !LogHistory.Refused(Run(FRESH_STREAM, bs), b)
    ensures var s, next := Run(FRESH_STREAM, bs).log, Run(FRESH_STREAM, bs + [b]).log;
            if exists o :: o in b.obs && o.target == t then
              && t in next.current && next.current[t].revision == b.revision
              && (exists o :: IsLastOf(b.obs, o) && o.target == t && Shows(next.current[t], o))
              && RankOne(next.events, t, b.through).Some?
              && RankOne(next.events, t, b.through).value.change.fact == next.current[t].fact
            else
              Get(next.current, t) == if b.start.None? then None else Get(s.current, t)
  {
    RunRepresents(bs);
    StepOfRun(bs, b);
    hide Run, History, StrictlySorted, Publish, RankOne, FoldChanges, Proper, Distinct;
    PublishedRowsShow(Run(FRESH_STREAM, bs), History(bs), b, t);
  }

  lemma {:induction false} StepOfRun(bs: seq<Batch>, b: Batch)
    requires !LogHistory.Refused(Run(FRESH_STREAM, bs), b)
    ensures var s := Run(FRESH_STREAM, bs);
            && Publish(s.log, b.obs, b.start, b.through, b.revision).Accepted?
            && Run(FRESH_STREAM, bs + [b]).log == Publish(s.log, b.obs, b.start, b.through, b.revision).log
  {
    hide Publish;
    assert (bs + [b])[..|bs|] == bs;
  }

  lemma {:induction false} RowsOfBatch(log: Log, b: Batch)
    requires Publish(log, b.obs, b.start, b.through, b.revision).Accepted?
    ensures Publish(log, b.obs, b.start, b.through, b.revision).log.current
         == (if b.start.None? then map[] else log.current) + LastRows(Anchors(log, b.start), Sort(b.obs), b.revision)
  {
    hide LastRows, Sort, FoldChanges, WindowChanges, Invalidate, Numbered, Anchors, Through;
  }

  lemma {:induction false} PublishedRowsShow(s: Stream, history: seq<Observation>, b: Batch, t: Target)
    requires Represents(s.log, history) && StrictlySorted(history) && Proper(b)
    requires Publish(s.log, b.obs, b.start, b.through, b.revision).Accepted?
    ensures var next := Publish(s.log, b.obs, b.start, b.through, b.revision).log;
            if exists o :: o in b.obs && o.target == t then
              && t in next.current && next.current[t].revision == b.revision
              && (exists o :: IsLastOf(b.obs, o) && o.target == t && Shows(next.current[t], o))
              && RankOne(next.events, t, b.through).Some?
              && RankOne(next.events, t, b.through).value.change.fact == next.current[t].fact
            else
              Get(next.current, t) == if b.start.None? then None else Get(s.log.current, t)
  {
    RowsOfBatch(s.log, b);
    ProperParts(b);
    hide Publish, LastRows, Sort, Anchors, StrictlySorted, Proper, RankOne, Represents;
    var next := Publish(s.log, b.obs, b.start, b.through, b.revision).log;
    var anchors, tail := Anchors(s.log, b.start), Sort(b.obs);
    forall o ensures o in tail <==> o in b.obs { SortMembers(b.obs, o); }
    LastRowsFrom(anchors, tail, b.revision, t);
    if exists o :: o in b.obs && o.target == t {
      var o := LastOfExists(tail, t);
      LastRowShows(anchors, tail, b.revision, o);
      assert IsLastOf(b.obs, o);
      PublishedFact(s, history, b, t);
    }
  }

  lemma {:induction false} ProperParts(b: Batch)
    requires Proper(b)
    ensures StrictlySorted(Sort(b.obs)) && Fits(b.obs, b.start, b.through)
  {
    SortStrictly(b.obs);
  }

  lemma {:induction false} StartsInside(b: Batch)
    requires Proper(b) && b.obs != []
    ensures b.start.Some? ==> b.start.value <= b.through
  {
    var o := b.obs[0];
    assert o in b.obs;
  }

  lemma {:induction false} AnchorsAre(log: Log, start: Option<Date>)
    ensures Anchors(log, start) == if start.Some? then SeedAt(log.events, start.value - 1) else map[]
  {
    hide SeedAt;
  }

  /** The history before and after one accepted batch. */
  lemma {:induction false} RewrittenBy(s: Stream, history: seq<Observation>, b: Batch) returns (head: seq<Observation>)
    requires Represents(s.log, history) && StrictlySorted(history) && Proper(b) && b.obs != []
    requires Publish(s.log, b.obs, b.start, b.through, b.revision).Accepted?
    ensures Represents(Publish(s.log, b.obs, b.start, b.through, b.revision).log, head + Sort(b.obs))
    ensures Anchors(s.log, b.start) == FoldFacts(map[], head)
    ensures forall o :: o in head ==> o.day <= b.through
  {
    hide *;
    ProperParts(b);
    StartsInside(b);
    AnchorsAre(s.log, b.start);
    if b.start.None? {
      head := [];
      FoldNothing(map[]);
      RepresentsWell(s.log, history);
      FullRebuild(s.log, b.obs, b.through, b.revision);
      assert [] + Sort(b.obs) == Sort(b.obs);
    } else {
      head := ObsBefore(history, b.start.value);
      SuffixRewrite(s.log, history, b.obs, b.start.value, b.through, b.revision);
      SeedsAreFacts(s.log, history, b.start.value - 1);
      CutIsStrict(history, b.start.value);
    }
  }

  lemma {:induction false} SortedWithin(obs: seq<Observation>, start: Option<Date>, through: Date)
    requires Fits(obs, start, through)
    ensures forall o :: o in Sort(obs) ==> o.day <= through
  {
    hide Sort;
    forall o | o in Sort(obs) ensures o.day <= through { SortMembers(obs, o); }
  }

  lemma {:induction false} BothWithin(head: seq<Observation>, tail: seq<Observation>, through: Date)
    requires (forall o :: o in head ==> o.day <= through) && forall o :: o in tail ==> o.day <= through
    ensures ObsBefore(head + tail, through + 1) == head + tail
  {
    hide *;
    forall i | 0 <= i < |head + tail| ensures (head + tail)[i].day < through + 1 {
      if i < |head| {
        assert head[i] in head;
      } else {
        assert tail[i - |head|] in tail;
      }
    }
    AllObsBefore(head + tail, through + 1);
  }

  /** The last valid event of a target of the batch carries the folded fact. */
  lemma {:induction false} PublishedFact(s: Stream, history: seq<Observation>, b: Batch, t: Target)
    requires Represents(s.log, history) && StrictlySorted(history) && Proper(b) && b.obs != []
    requires Publish(s.log, b.obs, b.start, b.through, b.revision).Accepted?
    requires t in FoldFacts(Anchors(s.log, b.start), Sort(b.obs))
    ensures var r := RankOne(Publish(s.log, b.obs, b.start, b.through, b.revision).log.events, t, b.through);
            r.Some? && r.value.change.fact == FoldFacts(Anchors(s.log, b.start), Sort(b.obs))[t]
  {
    hide *;
    var head := RewrittenBy(s, history, b);
    ProperParts(b);
    SortedWithin(b.obs, b.start, b.through);
    var next, tail := Publish(s.log, b.obs, b.start, b.through, b.revision).log, Sort(b.obs);
    FoldSplits(map[], head, tail);
    SeedsAreFacts(next, head + tail, b.through);
    BothWithin(head, tail, b.through);
    SeedAtAnchor(next.events, t, b.through);
  }

  lemma {:induction false} SeedAtAnchor(events: seq<Event>, t: Target, day: Date)
    requires t in SeedAt(events, day)
    ensures RankOne(events, t, day).Some? && RankOne(events, t, day).value.change.fact == SeedAt(events, day)[t]
  {
    hide RankOne;
  }
}
