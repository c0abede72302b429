/** Daily state recognition over persisted snapshots, from scratch or restarted from anchors. */
module Recognition {
  import opened Common
  import opened States
  import opened Calendar

  /** What a state evaluator says of two consecutive readings. */
  datatype Signal = Signal(active: bool, edge: bool) | Refusal(code: string)

  /** The registered evaluators and their modes, left arbitrary. */
  datatype Rules = Rules(
    signal: (Target, Reading, Reading, Option<real>, Option<real>) -> Signal,
    edgeMode: Target -> bool)

  /** The snapshots of one day: the targets it offers, and what the next day can look back on.
      The two differ: an MA pair is found in any wider bundle of the previous day, and a variant that day
      does not have is looked back on through the default variant of its type. */
  datatype DaySnap = DaySnap(current: map<Target, Reading>, lookback: map<Target, Reading>)

  datatype World = World(
    snaps: map<Date, DaySnap>, closes: map<Date, real>, calendar: Table, rules: Rules)

  /** Statuses computed so far, targets seen so far, and the engine's in-process edge bits. */
  datatype Memo = Memo(status: map<(Date, Target), Status>, known: set<Target>, lastActive: map<Target, bool>)

  const NO_MEMO := Memo(map[], {}, map[])

  // ---------------------------------------------------------------------------------------
  // One day

  /** The engine's guess when neither a status nor an edge bit is at hand. */
  function InferPreviousActive(rules: Rules, t: Target, previous: Reading): bool {
    match previous.previousValues
    case None => false
    case Some(v) =>
      match rules.signal(t, previous, Reading(v, None), None, None)
      case Signal(active, _) => active
      case Refusal(_) => false
  }

  function WasActive(rules: Rules, t: Target, previous: Reading, prior: Option<Status>, bit: Option<bool>): bool {
    match prior
    case Some(status) => status == Active
    case None => match bit case Some(b) => b case None => InferPreviousActive(rules, t, previous)
  }

  /** The reading of `t` on the proven previous trading day, if both exist. */
  function Lookback(snaps: map<Date, DaySnap>, previous: Option<Date>, t: Target): (r: Option<Reading>) {
    if previous.Some? && previous.value in snaps then Get(snaps[previous.value].lookback, t) else None
  }

  /** The observation of a target that the day's snapshots offer. */
  function Judge(w: World, memo: Memo, d: Date, previous: Option<Date>, t: Target, cur: Reading): (o: Observation) {
    if previous.None? then
      Observation(d, t, Unknown, false, Unproven(CalendarUnavailable, Some(cur), None))
    else if Lookback(w.snaps, previous, t).None? then
      Observation(d, t, Unknown, false, Unproven(MissingPreviousDay, Some(cur), previous))
    else
      var p, prev := previous.value, Lookback(w.snaps, previous, t).value;
      var prior := Get(memo.status, (p, t));
      var price, before := Get(w.closes, d), Get(w.closes, p);
      match w.rules.signal(t, cur, prev, price, before)
      case Refusal(code) => Observation(d, t, Unknown, false, Unproven(Refused(code), Some(cur), previous))
      case Signal(active, edge) =>
        var was := WasActive(w.rules, t, prev, prior, Get(memo.lastActive, t));
        var transition := active && edge && !was && (w.rules.edgeMode(t) || prior == Some(Inactive));
        Observation(d, t, if active then Active else Inactive, transition, Evaluated(cur, prev, price, before))
  }

  /** A known target that the day does not offer becomes UNKNOWN. */
  function Fill(d: Date, t: Target): (o: Observation) {
    Observation(d, t, Unknown, false, Unproven(MissingCurrentIndicator, None, None))
  }

  /** The engine records an edge bit for every target it was asked about. */
  function BitAfter(w: World, d: Date, previous: Option<Date>, t: Target, cur: Reading): (b: Option<bool>) {
    var prev := Lookback(w.snaps, previous, t);
    if prev.None? then None
    else
      match w.rules.signal(t, cur, prev.value, Get(w.closes, d), Get(w.closes, previous.value))
      case Refusal(_) => Some(false)
      case Signal(active, _) => Some(active)
  }

  function DayRows(w: World, memo: Memo, d: Date, previous: Option<Date>): (rows: map<Target, Observation>)
    requires d in w.snaps
  {
    map t | t in w.snaps[d].current.Keys + memo.known ::
      if t in w.snaps[d].current then Judge(w, memo, d, previous, t, w.snaps[d].current[t]) else Fill(d, t)
  }

  function Bits(w: World, d: Date, previous: Option<Date>): (bits: map<Target, bool>)
    requires d in w.snaps
    ensures bits.Keys <= w.snaps[d].current.Keys
  {
    map t | t in w.snaps[d].current.Keys && BitAfter(w, d, previous, t, w.snaps[d].current[t]).Some? ::
      BitAfter(w, d, previous, t, w.snaps[d].current[t]).value
  }

  function DayStatuses(d: Date, rows: map<Target, Observation>): (m: map<(Date, Target), Status>) {
    map t | t in rows :: (d, t) := rows[t].status
  }

  function DayMemo(w: World, memo: Memo, d: Date, previous: Option<Date>): (m: Memo)
    requires d in w.snaps
  {
    var rows := DayRows(w, memo, d, previous);
    Memo(
      memo.status + DayStatuses(d, rows),
      memo.known + rows.Keys,
      memo.lastActive + Bits(w, d, previous))
  }

  // ---------------------------------------------------------------------------------------
  // A run over ascending days

  ghost function Pred(w: World, d: Date): Option<Date> {
    PreviousOpen(w.calendar, d)
  }

  ghost predicate Offered(w: World, dates: seq<Date>) {
    && (forall i :: 0 <= i < |dates| ==> dates[i] in w.snaps)
    && StrictlyIncreasing(dates)
  }

  ghost function MemoAfter(w: World, memo: Memo, dates: seq<Date>): (m: Memo)
    requires Offered(w, dates)
  {
    if dates == [] then memo
    else
      var d := dates[|dates| - 1];
      DayMemo(w, MemoAfter(w, memo, dates[..|dates| - 1]), d, Pred(w, d))
  }

  ghost function RowSet(rows: map<Target, Observation>): set<Observation> {
    set t | t in rows :: rows[t]
  }

  /** Every observation of a run. */
  ghost function AllRows(w: World, memo: Memo, dates: seq<Date>): (s: set<Observation>)
    requires Offered(w, dates)
  {
    if dates == [] then {}
    else
      var init, d := dates[..|dates| - 1], dates[|dates| - 1];
      AllRows(w, memo, init) + RowSet(DayRows(w, MemoAfter(w, memo, init), d, Pred(w, d)))
  }

  lemma {:induction false} RunSplits(w: World, memo: Memo, a: seq<Date>, b: seq<Date>)
    requires Offered(w, a + b) && Offered(w, a) && Offered(w, b)
    ensures MemoAfter(w, memo, a + b) == MemoAfter(w, MemoAfter(w, memo, a), b)
    ensures AllRows(w, memo, a + b) == AllRows(w, memo, a) + AllRows(w, MemoAfter(w, memo, a), b)
  {
    hide DayRows, DayMemo, PreviousOpen, RowSet;
    if b == [] {
      assert a + b == a;
    } else {
      assert (a + b)[..|a + b| - 1] == a + b[..|b| - 1];
      RunSplits(w, memo, a, b[..|b| - 1]);
    }
  }

  /** What the memo keeps before a day: only earlier statuses, and edge bits of known targets only. */
  ghost predicate Past(memo: Memo, d: Date) {
    && (forall k :: k in memo.status ==> k.0 < d)
    && memo.lastActive.Keys <= memo.known
  }

  lemma {:induction false} DayMemoFacts(w: World, memo: Memo, d: Date, previous: Option<Date>, t: Target)
    requires d in w.snaps && Past(memo, d)
    ensures var m, rows := DayMemo(w, memo, d, previous), DayRows(w, memo, d, previous);
            && m.known == memo.known + w.snaps[d].current.Keys
            && rows.Keys == m.known
            && Get(m.status, (d, t)) == (if t in rows then Some(rows[t].status) else None)
            && Past(m, d + 1)
  {
    hide Judge, Bits;
    var m, rows := DayMemo(w, memo, d, previous), DayRows(w, memo, d, previous);
    assert rows.Keys == w.snaps[d].current.Keys + memo.known;
    assert t !in rows ==> (d, t) !in memo.status;
  }

  lemma {:induction false} PastAfter(w: World, memo: Memo, dates: seq<Date>, d: Date)
    requires Offered(w, dates)
    requires forall i :: 0 <= i < |dates| ==> dates[i] < d
    requires memo.lastActive.Keys <= memo.known
    requires forall k :: k in memo.status ==> k.0 < if dates == [] then d else dates[0]
    ensures Past(MemoAfter(w, memo, dates), d)
  {
    hide DayRows, DayMemo, PreviousOpen;
    if dates != [] {
      var init, last := dates[..|dates| - 1], dates[|dates| - 1];
      PastAfter(w, memo, init, last);
      var m := MemoAfter(w, memo, init);
      DayMemoFacts(w, m, last, Pred(w, last), 0);
    }
  }
}
