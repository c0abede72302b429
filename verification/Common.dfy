/** Vocabulary shared by every component: calendar days, optional values and finite maxima. */
module Common {

  /** A calendar day, counted from a fixed origin; `d + 1` is the next calendar day. */
  type Date = int

  datatype Option<+T> = None | Some(value: T)

  /** Looks a key up the way the source uses `dict.get`. */
  function Get<K, V>(m: map<K, V>, k: K): (r: Option<V>)
    ensures r.Some? <==> k in m
  {
    if k in m then Some(m[k]) else None
  }

  /** A finite set is empty or has a member. */
  lemma {:induction false} Inhabited<T>(s: set<T>)
    ensures s == {} || exists x :: x in s
  {
    if forall x :: x !in s {
      assert s == {};
    }
  }

  lemma {:induction false} Member<T>(s: set<T>) returns (x: T)
    requires s != {}
    ensures x in s
  {
    Inhabited(s);
    x :| x in s;
  }

  ghost predicate IsLatest(s: set<Date>, m: Date) {
    m in s && forall y :: y in s ==> y <= m
  }

  /** A non-empty finite set of days has a latest one. */
  lemma {:induction false} LatestExists(s: set<Date>)
    requires s != {}
    ensures exists m :: IsLatest(s, m)
    decreases |s|
  {
    var x := Member(s);
    var rest := s - {x};
    assert forall y :: y in s ==> y in rest || y == x;
    if rest == {} {
      assert IsLatest(s, x);
    } else {
      LatestExists(rest);
      var z :| IsLatest(rest, z);
      assert IsLatest(s, if x <= z then z else x);
    }
  }

  ghost function Latest(s: set<Date>): (m: Date)
    requires s != {}
    ensures m in s
    ensures forall y :: y in s ==> y <= m
  {
    LatestExists(s);
    var x :| IsLatest(s, x);
    x
  }

  function Min(a: int, b: int): int { if a <= b then a else b }

  function Max(a: int, b: int): int { if a <= b then b else a }
}
