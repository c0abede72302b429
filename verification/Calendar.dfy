/** The fail-closed predecessor of a trading day. */
module Calendar {
  import opened Common

  datatype DayStatus = Open | Closed | Unconfirmed

  type Table = map<Date, DayStatus>

  /** One stored calendar row. */
  datatype Row = Row(day: Date, status: DayStatus)

  /** `p` is proved to be the trading day right before `target`. */
  ghost predicate IsPrevious(cal: Table, target: Date, p: Date) {
    && Get(cal, target) == Some(Open) && Get(cal, p) == Some(Open) && p < target
    && forall d :: p < d < target ==> Get(cal, d) == Some(Closed)
  }

  ghost function DaysUpTo(cal: Table, d: Date): set<Date> {
    set k | k in cal && k <= d
  }

  lemma {:induction false} FewerDays(cal: Table, d: Date)
    requires d in cal
    ensures |DaysUpTo(cal, d - 1)| < |DaysUpTo(cal, d)|
  {
    assert DaysUpTo(cal, d) == DaysUpTo(cal, d - 1) + {d};
  }

  /** Walks back over recorded closed days to the first open one. */
  ghost function WalkBack(cal: Table, d: Date): (r: Option<Date>)
    decreases |DaysUpTo(cal, d)|
  {
    if Get(cal, d) == Some(Open) then Some(d)
    else if Get(cal, d) == Some(Closed) then
      FewerDays(cal, d);
      WalkBack(cal, d - 1)
    else None
  }

  /** The simple definition: an open day's predecessor by walking back. */
  ghost function PreviousOpen(cal: Table, target: Date): (r: Option<Date>) {
    if Get(cal, target) == Some(Open) then WalkBack(cal, target - 1) else None
  }

  lemma {:induction false} WalkBackFinds(cal: Table, d: Date, p: Date)
    ensures WalkBack(cal, d) == Some(p) <==>
            p <= d && Get(cal, p) == Some(Open) && forall x :: p < x <= d ==> Get(cal, x) == Some(Closed)
    decreases |DaysUpTo(cal, d)|
  {
    if Get(cal, d) == Some(Closed) {
      FewerDays(cal, d);
      WalkBackFinds(cal, d - 1, p);
      if p <= d - 1 && forall x :: p < x <= d - 1 ==> Get(cal, x) == Some(Closed) {
        assert forall x :: p < x <= d ==> Get(cal, x) == Some(Closed);
      }
    } else if Get(cal, d) != Some(Open) && p < d {
      assert !forall x :: p < x <= d ==> Get(cal, x) == Some(Closed);
    }
  }

  /** Walking back finds `p` exactly when the calendar proves `p`. */
  lemma {:induction false} PreviousOpenIsProved(cal: Table, target: Date, p: Date)
    ensures PreviousOpen(cal, target) == Some(p) <==> IsPrevious(cal, target, p)
  {
    WalkBackFinds(cal, target - 1, p);
  }

  lemma {:induction false} NoPredecessor(cal: Table, target: Date)
    requires forall p :: !IsPrevious(cal, target, p)
    ensures PreviousOpen(cal, target) == None
  {
    var r := PreviousOpen(cal, target);
    if r.Some? {
      PreviousOpenIsProved(cal, target, r.value);
    }
  }

  // ---------------------------------------------------------------------------------------
  // The production form: one ordered query, bisection and a forward gap scan

  ghost predicate Ascending(rows: seq<Row>) {
    forall i, j :: 0 <= i < j < |rows| ==> rows[i].day < rows[j].day
  }

  /** The calendar as a lookup table. */
  ghost function AsTable(rows: seq<Row>): (cal: Table)
    requires Ascending(rows)
  {
    map i | 0 <= i < |rows| :: rows[i].day := rows[i].status
  }

  /** The rows up to a day, in day order. */
  function Query(table: seq<Row>, last: Date): (rows: seq<Row>) {
    if table == [] then []
    else Query(table[..|table| - 1], last) + if table[|table| - 1].day <= last then [table[|table| - 1]] else []
  }

  lemma {:induction false} QueryIsPrefix(table: seq<Row>, last: Date)
    requires Ascending(table)
    ensures Query(table, last) <= table
    ensures forall i :: 0 <= i < |table| ==> (table[i].day <= last <==> i < |Query(table, last)|)
  {
    if table != [] {
      QueryIsPrefix(table[..|table| - 1], last);
    }
  }

  ghost predicate StrictlyIncreasing(s: seq<Date>) {
    forall i, j :: 0 <= i < j < |s| ==> s[i] < s[j]
  }

  /** Index of the first element not below `x`. */
  method BisectLeft(s: seq<Date>, x: Date) returns (k: nat)
    requires StrictlyIncreasing(s)
    ensures k <= |s|
    ensures forall i :: 0 <= i < k ==> s[i] < x
    ensures forall i :: k <= i < |s| ==> x <= s[i]
    ensures forall d :: d in s && d < x ==> k > 0 && d <= s[k - 1]
  {
    var lo, hi := 0, |s|;
    while lo < hi
      invariant 0 <= lo <= hi <= |s|
      invariant forall i :: 0 <= i < lo ==> s[i] < x
      invariant forall i :: hi <= i < |s| ==> x <= s[i]
    {
      var mid := (lo + hi) / 2;
      if s[mid] < x { lo := mid + 1; } else { hi := mid; }
    }
    k := lo;
  }

  /** The two containers built from the rows: a dictionary and the open days in order. */
  method Index(rows: seq<Row>) returns (byDate: Table, opens: seq<Date>)
    requires Ascending(rows)
    ensures forall d :: d in byDate <==> exists i :: 0 <= i < |rows| && rows[i].day == d
    ensures forall i :: 0 <= i < |rows| ==> rows[i].day in byDate && byDate[rows[i].day] == rows[i].status
    ensures StrictlyIncreasing(opens)
    ensures forall d :: d in opens <==> d in byDate && byDate[d] == Open
  {
    byDate, opens := map[], [];
    for n := 0 to |rows|
      invariant forall d :: d in byDate <==> exists i :: 0 <= i < n && rows[i].day == d
      invariant forall i :: 0 <= i < n ==> rows[i].day in byDate && byDate[rows[i].day] == rows[i].status
      invariant StrictlyIncreasing(opens)
      invariant forall d :: d in opens <==> d in byDate && byDate[d] == Open
    {
      assert rows[n].day !in byDate;
      forall i | 0 <= i < |opens| ensures opens[i] < rows[n].day {
        assert opens[i] in opens;
      }
      byDate := byDate[rows[n].day := rows[n].status];
      if rows[n].status == Open {
        opens := opens + [rows[n].day];
      }
    }
  }

  /** Scans forward from the day after `previous`; true when every day before `target` is closed. */
  method GapIsClosed(byDate: Table, previous: Date, target: Date) returns (complete: bool)
    requires previous < target
    ensures complete <==> forall d :: previous < d < target ==> Get(byDate, d) == Some(Closed)
  {
    var current := previous + 1;
    complete := true;
    while current < target
      invariant previous < current <= target
      invariant forall d :: previous < d < current ==> Get(byDate, d) == Some(Closed)
    {
      if Get(byDate, current) != Some(Closed) {
        return false;
      }
      current := current + 1;
    }
  }

  /** Whatever the scan concludes from the latest open day before `target` is what walking back finds. */
  lemma {:induction false} LatestOpenDecides(cal: Table, target: Date, previous: Date)
    requires Get(cal, target) == Some(Open) && Get(cal, previous) == Some(Open) && previous < target
    requires forall d :: previous < d < target ==> Get(cal, d) != Some(Open)
    ensures PreviousOpen(cal, target) ==
            if forall d :: previous < d < target ==> Get(cal, d) == Some(Closed) then Some(previous) else None
  {
    if forall d :: previous < d < target ==> Get(cal, d) == Some(Closed) {
      PreviousOpenIsProved(cal, target, previous);
    } else {
      forall p ensures !IsPrevious(cal, target, p) {
      }
      NoPredecessor(cal, target);
    }
  }

  lemma {:induction false} LookupAgrees(table: seq<Row>, rows: seq<Row>, byDate: Table, last: Date, d: Date)
    requires Ascending(table) && rows == Query(table, last) && d <= last
    requires forall d :: d in byDate <==> exists i :: 0 <= i < |rows| && rows[i].day == d
    requires forall i :: 0 <= i < |rows| ==> rows[i].day in byDate && byDate[rows[i].day] == rows[i].status
    ensures Get(byDate, d) == Get(AsTable(table), d)
  {
    QueryIsPrefix(table, last);
    if d in byDate {
      var i :| 0 <= i < |rows| && rows[i].day == d;
      assert AsTable(table)[table[i].day] == table[i].status;
    } else {
      forall i | 0 <= i < |table| ensures table[i].day != d {
        assert i < |rows| ==> rows[i].day in byDate;
      }
    }
  }

  /** Resolves the predecessor of every requested day from one query over the stored calendar. */
  method PreviousOpenDates(table: seq<Row>, targets: seq<Date>) returns (result: map<Date, Option<Date>>)
    requires Ascending(table)
    ensures forall t :: t in result <==> t in targets
    ensures forall t :: t in targets ==> result[t] == PreviousOpen(AsTable(table), t)
  {
    result := map[];
    if targets == [] { return; }
    var last := targets[0];
    for i := 1 to |targets|
      invariant forall k :: 0 <= k < i ==> targets[k] <= last
    {
      if last < targets[i] { last := targets[i]; }
    }
    var rows := Query(table, last);
    QueryIsPrefix(table, last);
    var byDate, opens := Index(rows);
    ghost var cal := AsTable(table);
    forall d | d <= last ensures Get(byDate, d) == Get(cal, d) {
      LookupAgrees(table, rows, byDate, last, d);
    }
    hide AsTable, PreviousOpen, Query;
    for i := 0 to |targets|
      invariant forall t :: t in result <==> t in targets[..i]
      invariant forall t :: t in result ==> result[t] == PreviousOpen(cal, t)
    {
      var p := Predecessor(byDate, opens, targets[i], cal);
      result := result[targets[i] := p];
      assert targets[..i + 1] == targets[..i] + [targets[i]];
    }
    assert targets[..|targets|] == targets;
  }

  lemma {:induction false} OpenDaysListed(byDate: Table, opens: seq<Date>, target: Date, cal: Table)
    requires forall d :: d <= target ==> Get(byDate, d) == Get(cal, d)
    requires forall d :: d in opens <==> d in byDate && byDate[d] == Open
    ensures forall d :: d < target && Get(cal, d) == Some(Open) ==> d in opens
  {
    forall d | d < target && Get(cal, d) == Some(Open) ensures d in opens {
      assert Get(byDate, d) == Get(cal, d);
    }
  }

  /** The body of the per-target loop. */
  method Predecessor(byDate: Table, opens: seq<Date>, target: Date, ghost cal: Table) returns (p: Option<Date>)
    requires forall d :: d <= target ==> Get(byDate, d) == Get(cal, d)
    requires StrictlyIncreasing(opens)
    requires forall d :: d in opens <==> d in byDate && byDate[d] == Open
    ensures p == PreviousOpen(cal, target)
  {
    hide WalkBack;
    if Get(byDate, target) != Some(Open) {
      return None;
    }
    var k := BisectLeft(opens, target);
    OpenDaysListed(byDate, opens, target, cal);
    if k == 0 {
      NoPredecessor(cal, target);
      return None;
    }
    var previous := opens[k - 1];
    assert previous in opens && Get(byDate, previous) == Get(cal, previous);
    var complete := GapIsClosed(byDate, previous, target);
    LatestOpenDecides(cal, target, previous);
    p := if complete then Some(previous) else None;
  }
}
