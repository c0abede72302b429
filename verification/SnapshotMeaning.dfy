/** What published snapshot rows say: which variants they hold, what links them to the day before, and which
    of them read as restated. */
module SnapshotMeaning {
  import opened Common
  import opened States
  import opened Averages
  import opened Requests
  import opened Snapshots
  import opened Publication
  import opened AlertReplay
  import Kdj

  // ---------------------------------------------------------------------------------------
  // One variant and the day before

  /** The change of each field that both days have; nothing when they share none. */
  ghost predicate IsDelta(values: Values, previous: Option<Values>, delta: Option<Values>) {
    && (delta.None? <==> forall f :: f in values ==> previous.None? || f !in previous.value)
    && (delta.Some? ==>
          && previous.Some?
          && (forall f :: f in delta.value <==> f in values && f in previous.value)
          && (forall f :: f in delta.value ==> values[f] - delta.value[f] == previous.value[f]))
  }

  lemma {:induction false} DeltaIsChange(values: Values, previous: Option<Values>)
    ensures IsDelta(values, previous, Delta(values, previous))
  {
    if previous.Some? {
      var p := previous.value;
      var m := map f | f in values && f in p :: values[f] - p[f];
      if f :| f in values && f in p {
        assert f in m;
      } else {
        assert m == map[];
      }
    }
  }

  /** The values that a table holds of a request on a day. */
  ghost function HeldValues(rows: Rows, d: Date, q: Request): (v: Option<Values>) {
    if (d, TypeOf(q)) in rows && q in rows[(d, TypeOf(q))].variants
    then Some(rows[(d, TypeOf(q))].variants[q].values) else None
  }

  lemma {:induction false} FreshRow(rows: Rows, key: set<Request>, bars: seq<Bar>, root: Root, i: nat, q: Request)
    requires FreshRows(rows, key, bars, root) && Ordered(bars) && i < |bars|
    ensures var k := (bars[i].day, TypeOf(q));
            && (k in rows && q in rows[k].variants
                <==> q in key && Calculated(q, Candles(bars[..i + 1]), root).Some?)
            && (k in rows ==> rows[k].variants != map[])
            && (k in rows && q in rows[k].variants ==>
                  EntryOf(q, Candles(bars[..i + 1]), root) == Some(rows[k].variants[q]))
  {
    var d, t := bars[i].day, TypeOf(q);
    UptoAt(bars, i);
    EntryExists(key, Candles(bars[..i + 1]), q, root);
    hide EntriesOf, EntryOf, Upto;
    assert Content(rows, d, t) == ContentAt(key, bars, d, t, root);
  }

  lemma {:induction false} EntryExists(key: set<Request>, candles: seq<Kdj.Candle>, q: Request, root: Root)
    requires candles != []
    ensures var entries := EntriesOf(key, candles, TypeOf(q), root);
            && (q in entries <==> q in key && Calculated(q, candles, root).Some?)
            && (q in entries ==> EntryOf(q, candles, root) == Some(entries[q]))
  {
    hide Calculated, Delta;
  }

  /** In a table of from-scratch rows a variant shows the values of its request over the bars so far; its
      previous values are those the table holds of the bar before, its delta the change between the two. */
  lemma {:induction false} VariantLinks(
    rows: Rows, key: set<Request>, bars: seq<Bar>, root: Root, i: nat, q: Request)
    requires FreshRows(rows, key, bars, root) && Ordered(bars) && 0 < i < |bars|
    requires var k := (bars[i].day, TypeOf(q)); k in rows && q in rows[k].variants
    ensures var entry := rows[(bars[i].day, TypeOf(q))].variants[q];
            && Some(entry.values) == Calculated(q, Candles(bars[..i + 1]), root)
            && entry.previous == HeldValues(rows, bars[i - 1].day, q)
            && IsDelta(entry.values, entry.previous, entry.delta)
  {
    hide Calculated, Delta, FreshRows, Ordered, IsDelta;
    var candles := Candles(bars[..i + 1]);
    FreshRow(rows, key, bars, root, i, q);
    FreshRow(rows, key, bars, root, i - 1, q);
    assert candles[..i] == Candles(bars[..i]);
    var entry := rows[(bars[i].day, TypeOf(q))].variants[q];
    DeltaIsChange(entry.values, entry.previous);
  }

  // ---------------------------------------------------------------------------------------
  // Every run

  lemma {:induction false} CurrentRowsAreFresh(e: Setting, steps: seq<Step>)
    requires AllowedRun(e, INITIAL, steps)
    requires var st := After(INITIAL, steps).stream; st.publishedRevision >= 0 && PublicationIsCurrent(st)
    ensures var s := After(INITIAL, steps);
            && s.stream.demandKey.Some? && FreshRows(s.rows, s.stream.demandKey.value, s.bars, e.root)
            && Ordered(s.bars) && AllCanonical(s.stream.demandKey.value)
            && Merge(s.configured) <= s.stream.demandKey.value
  {
    CurrentSnapshotsAreFresh(e, steps);
    RunKeepsSound(e, steps);
    hide After, AllowedRun, Content, ContentAt, Canonical;
  }

  /** Every interleaving: in a current published stream each variant of a bar's rows links to the bar before
      it, and its delta undone gives that bar's values. */
  lemma {:induction false} CurrentVariantsLink(e: Setting, steps: seq<Step>, i: nat, q: Request)
    requires AllowedRun(e, INITIAL, steps)
    requires var st := After(INITIAL, steps).stream; st.publishedRevision >= 0 && PublicationIsCurrent(st)
    requires var s := After(INITIAL, steps);
             && 0 < i < |s.bars|
             && (s.bars[i].day, TypeOf(q)) in s.rows && q in s.rows[(s.bars[i].day, TypeOf(q))].variants
    ensures var s := After(INITIAL, steps);
            var entry := s.rows[(s.bars[i].day, TypeOf(q))].variants[q];
            && entry.previous == HeldValues(s.rows, s.bars[i - 1].day, q)
            && IsDelta(entry.values, entry.previous, entry.delta)
  {
    CurrentRowsAreFresh(e, steps);
    hide After, AllowedRun, FreshRows, Ordered, IsDelta, HeldValues, AllCanonical;
    var s := After(INITIAL, steps);
    VariantLinks(s.rows, s.stream.demandKey.value, s.bars, e.root, i, q);
  }

  /** Every interleaving: in a current published stream the rows of a bar hold a requested variant, other
      than a bundle of averages, exactly when the bars up to it are as many as the request needs. */
  lemma {:induction false} CurrentVariantsExist(e: Setting, steps: seq<Step>, i: nat, q: Request)
    requires AllowedRun(e, INITIAL, steps)
    requires var st := After(INITIAL, steps).stream; st.publishedRevision >= 0 && PublicationIsCurrent(st)
    requires var s := After(INITIAL, steps);
             i < |s.bars| && s.stream.demandKey.Some? && q in s.stream.demandKey.value && !q.MaRequest?
    ensures Canonical(q)
    ensures var s := After(INITIAL, steps);
            && (HeldValues(s.rows, s.bars[i].day, q).Some? <==> Needs(q) <= i + 1)
            && ((s.bars[i].day, TypeOf(q)) in s.rows ==> s.rows[(s.bars[i].day, TypeOf(q))].variants != map[])
  {
    CurrentRowsAreFresh(e, steps);
    hide After, AllowedRun, FreshRows, Calculated, Needs, Complete;
    var s := After(INITIAL, steps);
    var candles := Candles(s.bars[..i + 1]);
    FreshRow(s.rows, s.stream.demandKey.value, s.bars, e.root, i, q);
    assert Kdj.Ranged(candles);
    CompleteFromNeeds(q, candles, e.root);
    CalculatedWhenComplete(q, candles, e.root);
  }

  lemma {:induction false} CalculatedWhenComplete(q: Request, candles: seq<Kdj.Candle>, root: Root)
    requires !q.MaRequest?
    ensures Calculated(q, candles, root).Some? <==> Complete(q, candles, root)
  {
  }

  // ---------------------------------------------------------------------------------------
  // Restated rows

  /** A rewritten row reads as restated to a value rule exactly when nothing had been published before, or
      its day lies at or before the watermark of the publication before; other rows read as they did. */
  lemma {:induction false} RewrittenRowsReadAsRestated(
    e: Setting, s: System, task: Task, work: Work, k: Key, value: Option<real>)
    requires Sound(e, s) && PlanOf(s, task).Rebuild? && Computed(e, s, task, work) && k in work.rows
    ensures var plan, row := PlanOf(s, task), ValueRow(k.0, value,
                                                       RestatedThrough(work.rows[k].source.restatedThrough));
            if Rewritten(k.0, plan.start, plan.latest) then
              && work.rows[k].source.revision == s.stream.sourceRevision
              && (Restated(row) <==> s.stream.stateThrough.None? || k.0 <= s.stream.stateThrough.value)
            else k in s.rows && work.rows[k] == s.rows[k]
  {
    SoundParts(e, s);
    hide PlanOf, Sound, RewrittenFrom, Recognition.AllRows, WorldOf, Effective, Ordered;
  }
}
