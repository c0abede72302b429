/** The repository object: it folds a batch into events and replaces a timeline suffix in place. */
module StateRepository {
  import opened Common
  import opened States
  import opened Timeline
  import opened EventLog

  class StateEventRepository {
    var events: seq<Event>
    var current: map<Target, CurrentRow>
    var sequence: nat
    var generation: nat

    ghost function View(): (log: Log)
      reads this
    {
      Log(events, current, sequence, generation)
    }

    constructor ()
      ensures View() == EMPTY_LOG
    {
      events, current, sequence, generation := [], map[], 0, 0;
    }

    /** The latest day of any current row. */
    method PreviousThrough() returns (latest: Option<Date>)
      ensures latest == Through(current)
    {
      latest := None;
      var rest := current.Keys;
      while rest != {}
        invariant rest <= current.Keys
        invariant latest.None? ==> rest == current.Keys
        invariant latest.Some? ==>
          (exists t :: t in current && current[t].day == latest.value)
          && (forall t :: t in current.Keys - rest ==> current[t].day <= latest.value)
        decreases |rest|
      {
        ghost var known := Member(rest);
        var t :| t in rest;
        if latest.None? || latest.value < current[t].day {
          latest := Some(current[t].day);
        }
        rest := rest - {t};
      }
      if latest.None? {
        assert current.Keys == {};
        assert current == map[];
      } else {
        assert forall t :: t in current ==> t in current.Keys - rest;
      }
    }

    /** Replaces the valid timeline from `start` (everything when absent) and the current rows. */
    method Publish(obs: seq<Observation>, start: Option<Date>, through: Date, revision: int)
      returns (written: Option<nat>)
      modifies this
      ensures var r := EventLog.Publish(old(View()), obs, start, through, revision);
              if r.StaleTarget? then written == None && View() == old(View())
              else View() == r.log && written == Some(r.written)
    {
      hide LastRows, FoldChanges, Sort, SeedAt, Invalidate, Numbered, WindowChanges, Through;
      var previous := PreviousThrough();
      if previous.Some? && through < previous.value {
        return None;
      }
      var ordered := Sort(obs);
      var anchors: Facts := map[];
      if start.Some? {
        anchors := SeedAt(events, start.value - 1);
      }
      var changes, last := FoldBatch(anchors, ordered, revision);
      var same := WindowChanges(events, start, through) == changes;
      if !same || previous != Some(through) {
        generation := generation + 1;
      }
      if !same {
        var added := Number(changes, previous, revision);
        events := Invalidate(events, start, through) + added;
        sequence := sequence + |changes|;
      }
      if start.None? {
        current := map[];
      }
      current := current + last;
      written := Some(if same then 0 else |changes|);
    }

    /** The pass over the sorted batch: running facts, emitted changes and last rows. */
    method FoldBatch(anchors: Facts, ordered: seq<Observation>, revision: int)
      returns (changes: seq<Change>, last: map<Target, CurrentRow>)
      ensures changes == FoldChanges(anchors, ordered)
      ensures last == LastRows(anchors, ordered, revision)
    {
      var facts := anchors;
      changes, last := [], map[];
      for i := 0 to |ordered|
        invariant facts == FoldFacts(anchors, ordered[..i])
        invariant changes == FoldChanges(anchors, ordered[..i])
        invariant last == LastRows(anchors, ordered[..i], revision)
      {
        var o := ordered[i];
        assert ordered[..i + 1][..i] == ordered[..i];
        var prior := Get(facts, o.target);
        var kind := KindOf(prior, o);
        var fact := FactAfter(prior, o);
        last := last[o.target := CurrentRow(o.day, fact, o.transition, o.detail, revision)];
        if kind.Some? {
          changes := changes + [Change(o.day, o.target, kind.value, fact, o.transition, o.detail)];
        }
        facts := facts[o.target := fact];
      }
      assert ordered[..|ordered|] == ordered;
    }

    /** Allocates the next sequence numbers; days already published become restatements. */
    method Number(changes: seq<Change>, previous: Option<Date>, revision: int) returns (added: seq<Event>)
      ensures added == Numbered(changes, sequence, previous, revision)
    {
      added := [];
      var next := sequence;
      for i := 0 to |changes|
        invariant next == sequence + i
        invariant added == Numbered(changes[..i], sequence, previous, revision)
      {
        next := next + 1;
        var restated := previous.None? || changes[i].day <= previous.value;
        added := added + [Event(next, changes[i], true, restated, revision)];
      }
      assert changes[..|changes|] == changes;
    }
  }
}
