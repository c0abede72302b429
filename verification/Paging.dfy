/** Keyset paging over the event log, guarded by the generation number. */
module Paging {
  import opened Common
  import opened Timeline
  import opened EventLog
  import opened LogRuns

  /** The valid, selected events past a cursor, in sequence order. */
  function Select(events: seq<Event>, sel: Event -> bool, after: nat): (r: seq<Event>) {
    if events == [] then []
    else
      var e := events[|events| - 1];
      Select(events[..|events| - 1], sel, after) + if e.valid && sel(e) && after < e.number then [e] else []
  }

  datatype Page = Page(items: seq<Event>, next: Option<nat>)

  /** One request: fetch `limit + 1` rows, return `limit`, and a cursor when more remain. */
  function ReadPage(log: Log, sel: Event -> bool, after: nat, limit: nat): (p: Page)
    requires limit >= 1
  {
    var rows := Select(log.events, sel, after);
    if |rows| > limit then Page(rows[..limit], Some(rows[limit - 1].number)) else Page(rows, None)
  }

  /** The rows a query returns are the valid selected events past its cursor, no others. */
  lemma {:induction false} SelectMembers(events: seq<Event>, sel: Event -> bool, after: nat)
    ensures forall e :: e in Select(events, sel, after) <==> e in events && e.valid && sel(e) && after < e.number
  {
    if events != [] {
      SelectMembers(events[..|events| - 1], sel, after);
      assert events == events[..|events| - 1] + [events[|events| - 1]];
    }
  }

  /** Rows in the order of their numbers, each once. */
  ghost predicate InSequence(rows: seq<Event>) {
    forall i, j :: 0 <= i < j < |rows| ==> rows[i].number < rows[j].number
  }

  /** They come in the order of their numbers. */
  lemma {:induction false} SelectAscends(events: seq<Event>, sequence: nat, sel: Event -> bool, after: nat)
    requires NumbersIncrease(events, sequence)
    ensures InSequence(Select(events, sel, after))
  {
    hide Select;
    SelectStep(events, sel, after);
    if events != [] {
      var init, e := events[..|events| - 1], events[|events| - 1];
      SelectAscends(init, sequence, sel, after);
      SelectMembers(init, sel, after);
      var rows := Select(init, sel, after);
      forall i | 0 <= i < |rows| ensures rows[i].number < e.number {
        assert rows[i] in init;
        var k :| 0 <= k < |init| && init[k] == rows[i];
        assert events[k] == rows[i];
      }
    }
  }

  /** Moving the cursor to a returned row leaves exactly the rows behind it. */
  lemma {:induction false} SelectAfter(events: seq<Event>, sequence: nat, sel: Event -> bool, after: nat, k: nat)
    requires NumbersIncrease(events, sequence) && k < |Select(events, sel, after)|
    ensures Select(events, sel, Select(events, sel, after)[k].number) == Select(events, sel, after)[k + 1..]
  {
    hide Select;
    SelectStep(events, sel, after);
    var init, e := events[..|events| - 1], events[|events| - 1];
    var rows, head := Select(events, sel, after), Select(init, sel, after);
    SelectMembers(init, sel, after);
    SelectStep(events, sel, rows[k].number);
    if k < |head| {
      SelectAfter(init, sequence, sel, after, k);
      assert rows[k] == head[k] && head[k] in init;
      assert head[k].number < e.number;
      assert rows[k + 1..] == head[k + 1..] + rows[|head|..];
    } else {
      assert rows[k] == e;
      NothingAfter(init, sequence, sel, e.number);
    }
  }

  lemma {:induction false} SelectStep(events: seq<Event>, sel: Event -> bool, after: nat)
    ensures events == [] ==> Select(events, sel, after) == []
    ensures events != [] ==>
            var init, e := events[..|events| - 1], events[|events| - 1];
            Select(events, sel, after)
            == Select(init, sel, after) + if e.valid && sel(e) && after < e.number then [e] else []
  {
  }

  lemma {:induction false} NothingAfter(events: seq<Event>, sequence: nat, sel: Event -> bool, after: nat)
    requires forall i :: 0 <= i < |events| ==> events[i].number <= after
    ensures Select(events, sel, after) == []
  {
    if events != [] {
      NothingAfter(events[..|events| - 1], sequence, sel, after);
    }
  }

  /** A later log of the same generation holds the same events. */
  ghost predicate Grows(a: Log, b: Log) {
    a.generation <= b.generation && (a.generation == b.generation ==> a.events == b.events)
  }

  lemma {:induction false} PublicationGrows(s: Stream, b: Batch)
    ensures Grows(s.log, Materialize(s, b).log)
  {
    hide LastRows, Timeline.Sort, Timeline.FoldChanges, WindowChanges, Invalidate, Numbered, Anchors, Through;
  }

  lemma {:induction false} RunGrows(s: Stream, bs: seq<Batch>, n: nat, m: nat)
    requires n <= m <= |bs|
    ensures Grows(Run(s, bs[..n]).log, Run(s, bs[..m]).log)
    decreases m
  {
    hide Run, Materialize;
    if n < m {
      RunGrows(s, bs, n, m - 1);
      RunStep(s, bs, m);
      PublicationGrows(Run(s, bs[..m - 1]), bs[m - 1]);
    }
  }

  lemma {:induction false} RunStep(s: Stream, bs: seq<Batch>, m: nat)
    requires 0 < m <= |bs|
    ensures Run(s, bs[..m]) == Materialize(Run(s, bs[..m - 1]), bs[m - 1])
  {
    hide Materialize;
    assert bs[..m][..m - 1] == bs[..m - 1];
  }

  /** The day the default history window ends at: the latest current row, else the watermark. */
  ghost function LatestDay(s: Stream): (d: Option<Date>) {
    if s.log.current == map[] then s.stateThrough else Through(s.log.current)
  }

  /** A publication that leaves the generation leaves that day too. */
  lemma {:induction false} GenerationKeepsLatest(s: Stream, b: Batch)
    requires Proper(b) && Materialize(s, b).log.generation == s.log.generation
    ensures LatestDay(Materialize(s, b)) == LatestDay(s)
  {
    hide LastRows, Timeline.Sort, Timeline.FoldChanges, WindowChanges, Invalidate, Numbered, Anchors;
    if Materialize(s, b) != s {
      CurrentReaches(s.log, b.obs, b.start, b.through, b.revision);
      assert Through(s.log.current) == Some(b.through);
      if o :| o in b.obs && o.day == b.through {
        assert Through(Materialize(s, b).log.current) == Some(b.through);
      }
    }
  }

  /** Over any run an unchanged generation keeps the events and the window's last day. */
  lemma {:induction false} RunKeepsLatest(s: Stream, bs: seq<Batch>, n: nat, m: nat)
    requires n <= m <= |bs| && forall b :: b in bs ==> Proper(b)
    requires Run(s, bs[..n]).log.generation == Run(s, bs[..m]).log.generation
    ensures LatestDay(Run(s, bs[..n])) == LatestDay(Run(s, bs[..m]))
    decreases m
  {
    hide Run, Materialize, LatestDay, Proper;
    if n < m {
      RunGrows(s, bs, n, m - 1);
      RunStep(s, bs, m);
      PublicationGrows(Run(s, bs[..m - 1]), bs[m - 1]);
      RunKeepsLatest(s, bs, n, m - 1);
      assert bs[m - 1] in bs;
      GenerationKeepsLatest(Run(s, bs[..m - 1]), bs[m - 1]);
    }
  }

  /** What one request sees. */
  datatype View = View(log: Log, latest: Option<Date>)

  /** The events of a window that may depend on the latest day. */
  function Selection(window: (Option<Date>, Event) -> bool, latest: Option<Date>): (sel: Event -> bool) {
    e => window(latest, e)
  }

  /** Reading page after page while publications go on: either the generation moved and the reader
      must restart, or the pages together are every event of the first view's window, once each.
      `views[i]` is what the i-th request sees; `Unfinished` means the requests ran out. */
  datatype Reading = Complete(items: seq<Event>) | Restart | Unfinished

  method ReadAll(views: seq<View>, window: (Option<Date>, Event) -> bool, limit: nat,
                 ghost s: Stream, ghost bs: seq<Batch>, ghost cuts: seq<nat>)
    returns (r: Reading)
    requires limit >= 1 && |views| == |cuts| > 0 && forall b :: b in bs ==> Proper(b)
    requires forall i :: 0 <= i < |cuts| ==> cuts[0] <= cuts[i] <= |bs| && Sees(views[i], Run(s, bs[..cuts[i]]))
    requires NumbersIncrease(views[0].log.events, views[0].log.sequence)
    ensures var all := Select(views[0].log.events, Selection(window, views[0].latest), 0);
            && (r.Complete? ==> r.items == all)
            && IsWindow(all, views[0], window)
            && (r.Unfinished? ==> |all| > |views| * limit)
    ensures r.Restart? ==> exists i :: 0 <= i < |views| && views[i].log.generation != views[0].log.generation
  {
    hide *;
    WindowIsSelected(views[0], window);
    var items, after, i := [], 0, 0;
    ghost var sel := Selection(window, views[0].latest);
    while i < |views|
      invariant 0 <= i <= |views|
      invariant items + Select(views[0].log.events, sel, after) == Select(views[0].log.events, sel, 0)
      invariant |items| == i * limit && (i > 0 ==> Select(views[0].log.events, sel, after) != [])
    {
      if views[i].log.generation != views[0].log.generation {
        return Restart;
      }
      NextPage(i, limit);
      var page := ReadPage(views[i].log, Selection(window, views[i].latest), after, limit);
      OnePage(views[0], views[i], window, after, limit, s, bs, cuts[0], cuts[i]);
      items := items + page.items;
      if page.next.None? {
        return Complete(items);
      }
      after := page.next.value;
      i := i + 1;
    }
    r := Unfinished;
  }

  /** Under an unchanged generation a page of a later view continues the first one. */
  lemma {:induction false} OnePage(
    first: View, later: View, window: (Option<Date>, Event) -> bool, after: nat, limit: nat,
    s: Stream, bs: seq<Batch>, n: nat, m: nat)
    requires limit >= 1 && n <= m <= |bs| && (forall b :: b in bs ==> Proper(b))
    requires Sees(first, Run(s, bs[..n])) && Sees(later, Run(s, bs[..m]))
    requires later.log.generation == first.log.generation
    requires NumbersIncrease(first.log.events, first.log.sequence)
    ensures var sel := Selection(window, first.latest);
            var rows, page := Select(first.log.events, sel, after),
                              ReadPage(later.log, Selection(window, later.latest), after, limit);
            if page.next.None? then page.items == rows
            else var rest := Select(first.log.events, sel, page.next.value);
                 rows == page.items + rest && |page.items| == limit && rest != []
  {
    hide Run, Select, ReadPage, NumbersIncrease, LatestDay, Proper, Selection;
    RunGrows(s, bs, n, m);
    RunKeepsLatest(s, bs, n, m);
    PageSplits(first.log, Selection(window, first.latest), after, limit);
    SamePage(later.log, first.log, Selection(window, first.latest), after, limit);
  }

  /** Exactly the valid events of the view's window, in the order of their numbers. */
  ghost predicate IsWindow(all: seq<Event>, v: View, window: (Option<Date>, Event) -> bool) {
    InSequence(all) && forall e :: e in all <==> e in v.log.events && e.valid && window(v.latest, e)
  }

  lemma {:induction false} WindowIsSelected(v: View, window: (Option<Date>, Event) -> bool)
    requires NumbersIncrease(v.log.events, v.log.sequence)
    ensures IsWindow(Select(v.log.events, Selection(window, v.latest), 0), v, window)
  {
    SelectMembers(v.log.events, Selection(window, v.latest), 0);
    SelectAscends(v.log.events, v.log.sequence, Selection(window, v.latest), 0);
    hide Select, InSequence;
  }

  ghost predicate Sees(v: View, s: Stream) { v.log == s.log && v.latest == LatestDay(s) }

  lemma {:induction false} NextPage(i: nat, limit: nat)
    ensures (i + 1) * limit == i * limit + limit
  {
  }

  lemma {:induction false} SamePage(a: Log, b: Log, sel: Event -> bool, after: nat, limit: nat)
    requires limit >= 1 && a.events == b.events
    ensures ReadPage(a, sel, after, limit) == ReadPage(b, sel, after, limit)
  {
  }

  /** A page and the rows behind its cursor are the rows behind the cursor before it. */
  lemma {:induction false} PageSplits(log: Log, sel: Event -> bool, after: nat, limit: nat)
    requires limit >= 1 && NumbersIncrease(log.events, log.sequence)
    ensures var rows, page := Select(log.events, sel, after), ReadPage(log, sel, after, limit);
            if page.next.None? then page.items == rows
            else var rest := Select(log.events, sel, page.next.value);
                 rows == page.items + rest && |page.items| == limit && rest != []
  {
    var rows := Select(log.events, sel, after);
    hide Select;
    if |rows| > limit {
      SelectAfter(log.events, log.sequence, sel, after, limit - 1);
      assert rows == rows[..limit] + rows[limit..];
    }
  }
}
