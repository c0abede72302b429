/** Refresh-token families: rotation, replay detection and revocation. */
module Tokens {
  import opened Common

  type Time = int

  /** Tokens and families are opaque random values; a token stands for its hash. */
  type Token = nat

  type Family = nat

  datatype Session = Session(
    user: nat, family: Family, issued: Time, expires: Time,
    used: Option<Time>, revoked: Option<Time>, replacedBy: Option<Token>)

  type Sessions = map<Token, Session>

  predicate Live(s: Session) { s.used.None? && s.revoked.None? }

  function Issue(user: nat, family: Family, now: Time, ttl: nat): (s: Session) {
    Session(user, family, now, now + ttl, None, None, None)
  }

  /** Every token of the family that is not revoked yet becomes revoked now. */
  function RevokeFamily(ss: Sessions, family: Family, now: Time): (r: Sessions) {
    map t | t in ss :: if ss[t].family == family && ss[t].revoked.None? then ss[t].(revoked := Some(now)) else ss[t]
  }

  predicate Spent(s: Session, now: Time) { s.used.Some? || s.revoked.Some? || s.expires <= now }

  datatype Step =
    | Login(user: nat, token: Token, family: Family, now: Time)
    | Refresh(presented: Token, token: Token, now: Time, active: bool)
    | Logout(presented: Token, now: Time)

  function LoggedIn(ss: Sessions, user: nat, token: Token, family: Family, now: Time, ttl: nat): (r: Sessions) {
    if token in ss then ss else ss[token := Issue(user, family, now, ttl)]
  }

  /** Rotation, or revocation of the family when the token is spent or its user is not active. A
      colliding new token violates the unique key and changes nothing. */
  function Refreshed(ss: Sessions, presented: Token, token: Token, now: Time, active: bool, ttl: nat): (r: Sessions) {
    if presented !in ss then ss
    else
      var s := ss[presented];
      if Spent(s, now) || !active then RevokeFamily(ss, s.family, now)
      else if token in ss then ss
      else ss[presented := s.(used := Some(now), replacedBy := Some(token))][token := Issue(s.user, s.family, now, ttl)]
  }

  function LoggedOut(ss: Sessions, presented: Token, now: Time): (r: Sessions) {
    if presented in ss then RevokeFamily(ss, ss[presented].family, now) else ss
  }

  function Next(ss: Sessions, step: Step, ttl: nat): (r: Sessions) {
    match step
    case Login(user, token, family, now) => LoggedIn(ss, user, token, family, now, ttl)
    case Refresh(presented, token, now, active) => Refreshed(ss, presented, token, now, active, ttl)
    case Logout(presented, now) => LoggedOut(ss, presented, now)
  }

  function After(ss: Sessions, steps: seq<Step>, ttl: nat): (r: Sessions) {
    if steps == [] then ss else Next(After(ss, steps[..|steps| - 1], ttl), steps[|steps| - 1], ttl)
  }

  /** Each login draws a family identifier that no session has. */
  ghost predicate FreshFamilies(ss: Sessions, steps: seq<Step>, ttl: nat) {
    steps == [] ||
    (var init, step := steps[..|steps| - 1], steps[|steps| - 1];
     FreshFamilies(ss, init, ttl) && (step.Login? ==> NoMember(After(ss, init, ttl), step.family)))
  }

  ghost predicate NoMember(ss: Sessions, family: Family) {
    forall t :: t in ss ==> ss[t].family != family
  }

  // ---------------------------------------------------------------------------------------
  // One chain per family

  /** `c` lists the family in rotation order: each token but the last was used and names the next. */
  ghost predicate IsChain(ss: Sessions, family: Family, c: seq<Token>) {
    && c != [] && (forall i, j :: 0 <= i < j < |c| ==> c[i] != c[j])
    && (forall t :: t in c <==> t in ss && ss[t].family == family)
    && (forall i :: 0 <= i < |c| - 1 ==> ss[c[i]].used.Some? && ss[c[i]].replacedBy == Some(c[i + 1]))
    && ss[c[|c| - 1]].used.None? && ss[c[|c| - 1]].replacedBy.None?
  }

  /** A family is revoked as a whole or not at all. */
  ghost predicate RevokedTogether(ss: Sessions, family: Family) {
    forall t, u :: t in ss && u in ss && ss[t].family == family && ss[u].family == family ==>
      (ss[t].revoked.Some? <==> ss[u].revoked.Some?)
  }

  ghost predicate FamilyOk(ss: Sessions, family: Family) {
    NoMember(ss, family) || (RevokedTogether(ss, family) && exists c :: IsChain(ss, family, c))
  }

  ghost predicate Dead(ss: Sessions, family: Family) {
    !NoMember(ss, family) && forall t :: t in ss && ss[t].family == family ==> ss[t].revoked.Some?
  }

  lemma {:induction false} ChainSurvivesRevocation(ss: Sessions, family: Family, now: Time, f: Family, c: seq<Token>)
    requires IsChain(ss, f, c)
    ensures IsChain(RevokeFamily(ss, family, now), f, c)
  {
    var r := RevokeFamily(ss, family, now);
    forall t ensures t in c <==> t in r && r[t].family == f {}
    assert forall i :: 0 <= i < |c| ==> c[i] in c;
  }

  lemma {:induction false} RevokeKeepsOk(ss: Sessions, family: Family, now: Time, f: Family)
    requires FamilyOk(ss, f)
    ensures FamilyOk(RevokeFamily(ss, family, now), f)
  {
    hide IsChain;
    if !NoMember(ss, f) {
      var c :| IsChain(ss, f, c);
      ChainSurvivesRevocation(ss, family, now, f, c);
    }
  }

  lemma {:induction false} RevokeKills(ss: Sessions, t: Token, now: Time)
    requires t in ss
    ensures Dead(RevokeFamily(ss, ss[t].family, now), ss[t].family)
  {
    var r := RevokeFamily(ss, ss[t].family, now);
    assert t in r && r[t].family == ss[t].family;
  }

  lemma {:induction false} LoginKeepsOk(
    ss: Sessions, user: nat, token: Token, family: Family, now: Time, ttl: nat, f: Family)
    requires FamilyOk(ss, f) && NoMember(ss, family)
    ensures FamilyOk(LoggedIn(ss, user, token, family, now, ttl), f)
  {
    var r := LoggedIn(ss, user, token, family, now, ttl);
    if token !in ss {
      if f == family {
        assert IsChain(r, f, [token]);
      } else if !NoMember(ss, f) {
        var c :| IsChain(ss, f, c);
        SameMembers(ss, r, f, c);
      }
    }
  }

  /** A change outside a family leaves its chain. */
  lemma {:induction false} SameMembers(ss: Sessions, r: Sessions, f: Family, c: seq<Token>)
    requires IsChain(ss, f, c)
    requires forall t :: (t in ss && ss[t].family == f) || (t in r && r[t].family == f) ==>
               t in ss && t in r && r[t] == ss[t]
    ensures IsChain(r, f, c)
  {
    assert forall i :: 0 <= i < |c| ==> c[i] in c;
    assert forall t :: t in c <==> t in r && r[t].family == f;
  }

  lemma {:induction false} UnusedIsLast(ss: Sessions, f: Family, c: seq<Token>, t: Token)
    requires IsChain(ss, f, c) && t in ss && ss[t].family == f && ss[t].used.None?
    ensures t == c[|c| - 1]
  {
    assert t in c;
    var i :| 0 <= i < |c| && c[i] == t;
    assert i == |c| - 1;
  }

  lemma {:induction false} RotateChain(ss: Sessions, presented: Token, token: Token, now: Time, ttl: nat, c: seq<Token>)
    requires presented in ss && token !in ss && !Spent(ss[presented], now) && IsChain(ss, ss[presented].family, c)
    ensures IsChain(Refreshed(ss, presented, token, now, true, ttl), ss[presented].family, c + [token])
  {
    var f := ss[presented].family;
    var r := Refreshed(ss, presented, token, now, true, ttl);
    UnusedIsLast(ss, f, c, presented);
    var d := c + [token];
    assert forall i :: 0 <= i < |c| ==> c[i] in c;
    forall t ensures t in d <==> t in r && r[t].family == f {
      assert t in c <==> t in ss && ss[t].family == f;
    }
    forall i | 0 <= i < |d| - 1 ensures r[d[i]].used.Some? && r[d[i]].replacedBy == Some(d[i + 1]) {
      assert d[i] == c[i];
    }
  }

  lemma {:induction false} RotateKeepsOk(ss: Sessions, presented: Token, token: Token, now: Time, ttl: nat, f: Family)
    requires presented in ss && token !in ss && !Spent(ss[presented], now) && FamilyOk(ss, f)
    ensures FamilyOk(Refreshed(ss, presented, token, now, true, ttl), f)
  {
    var r := Refreshed(ss, presented, token, now, true, ttl);
    if !NoMember(ss, f) {
      var c :| IsChain(ss, f, c);
      if f == ss[presented].family {
        RotateChain(ss, presented, token, now, ttl, c);
        hide IsChain;
        assert RevokedTogether(r, f);
      } else {
        SameMembers(ss, r, f, c);
        hide IsChain;
        assert RevokedTogether(r, f);
      }
    }
  }

  lemma {:induction false} StepKeepsOk(ss: Sessions, step: Step, ttl: nat, f: Family)
    requires FamilyOk(ss, f) && (step.Login? ==> NoMember(ss, step.family))
    ensures FamilyOk(Next(ss, step, ttl), f)
  {
    hide FamilyOk, RevokeFamily, Spent;
    match step
    case Login(user, token, family, now) => LoginKeepsOk(ss, user, token, family, now, ttl, f);
    case Refresh(presented, token, now, active) =>
      if presented in ss {
        RevokeKeepsOk(ss, ss[presented].family, now, f);
        if !Spent(ss[presented], now) && active && token !in ss {
          RotateKeepsOk(ss, presented, token, now, ttl, f);
        }
      }
    case Logout(presented, now) =>
      if presented in ss {
        RevokeKeepsOk(ss, ss[presented].family, now, f);
      }
  }

  lemma {:induction false} RunKeepsOk(steps: seq<Step>, ttl: nat, f: Family)
    requires FreshFamilies(map[], steps, ttl)
    ensures FamilyOk(After(map[], steps, ttl), f)
  {
    if steps != [] {
      RunKeepsOk(steps[..|steps| - 1], ttl, f);
      hide FamilyOk, Next, NoMember;
      StepKeepsOk(After(map[], steps[..|steps| - 1], ttl), steps[|steps| - 1], ttl, f);
    }
  }

  // ---------------------------------------------------------------------------------------
  // Main results

  /** Over every run each family is one replacement chain. */
  lemma {:induction false} FamiliesAreChains(steps: seq<Step>, ttl: nat, t: Token)
    requires FreshFamilies(map[], steps, ttl) && t in After(map[], steps, ttl)
    ensures var ss := After(map[], steps, ttl); exists c :: IsChain(ss, ss[t].family, c)
  {
    RunKeepsOk(steps, ttl, After(map[], steps, ttl)[t].family);
    hide After, IsChain;
  }

  /** Over every run a family has at most one token that is neither used nor revoked. */
  lemma {:induction false} OneLiveToken(steps: seq<Step>, ttl: nat, t: Token, u: Token)
    requires FreshFamilies(map[], steps, ttl)
    requires var ss := After(map[], steps, ttl);
             t in ss && u in ss && ss[t].family == ss[u].family && Live(ss[t]) && Live(ss[u])
    ensures t == u
  {
    var ss := After(map[], steps, ttl);
    FamiliesAreChains(steps, ttl, t);
    var c :| IsChain(ss, ss[t].family, c);
    UnusedIsLast(ss, ss[t].family, c, t);
    UnusedIsLast(ss, ss[t].family, c, u);
  }

  /** Presenting a spent token, or any known token at logout, kills its whole family. */
  lemma {:induction false} ReplayAndLogoutKill(
    ss: Sessions, presented: Token, token: Token, now: Time, active: bool, ttl: nat)
    requires presented in ss
    ensures Dead(LoggedOut(ss, presented, now), ss[presented].family)
    ensures Spent(ss[presented], now) || !active ==>
            Dead(Refreshed(ss, presented, token, now, active, ttl), ss[presented].family)
  {
    RevokeKills(ss, presented, now);
    hide RevokeFamily, Dead;
  }

  lemma {:induction false} DeadStaysDead(ss: Sessions, step: Step, ttl: nat, f: Family)
    requires Dead(ss, f) && (step.Login? ==> NoMember(ss, step.family))
    ensures Dead(Next(ss, step, ttl), f)
  {
    var t :| t in ss && ss[t].family == f;
    var r := Next(ss, step, ttl);
    assert t in r && r[t].family == f;
  }

  /** Once dead, a family never has a live token again, whatever follows. */
  lemma {:induction false} DeadForever(steps: seq<Step>, ttl: nat, n: nat, f: Family)
    requires FreshFamilies(map[], steps, ttl) && n <= |steps| && Dead(After(map[], steps[..n], ttl), f)
    ensures Dead(After(map[], steps, ttl), f)
    ensures var ss := After(map[], steps, ttl);
            forall t :: t in ss && ss[t].family == f ==> !Live(ss[t])
    decreases |steps|
  {
    if n == |steps| {
      assert steps[..n] == steps;
    } else {
      var init := steps[..|steps| - 1];
      assert init[..n] == steps[..n];
      DeadForever(init, ttl, n, f);
      hide Next, NoMember;
      DeadStaysDead(After(map[], init, ttl), steps[|steps| - 1], ttl, f);
    }
  }

  // ---------------------------------------------------------------------------------------
  // Owners and lifetimes

  /** The session that replaced a used one: the same user and family, opened in the moment of its use. */
  predicate Replaces(ss: Sessions, s: Session) {
    && s.used.Some? && s.replacedBy.Some? && s.replacedBy.value in ss
    && ss[s.replacedBy.value].user == s.user && ss[s.replacedBy.value].family == s.family
    && ss[s.replacedBy.value].issued == s.used.value
  }

  ghost predicate SessionOk(ss: Sessions, s: Session, ttl: nat) {
    s.expires == s.issued + ttl && (s.used.Some? ==> s.used.value < s.expires && Replaces(ss, s))
  }

  ghost predicate Owned(ss: Sessions, ttl: nat) {
    && (forall t :: t in ss ==> SessionOk(ss, ss[t], ttl))
    && (forall t, u :: t in ss && u in ss && ss[t].family == ss[u].family ==> ss[t].user == ss[u].user)
  }

  lemma {:induction false} RevokeKeepsOwned(ss: Sessions, family: Family, now: Time, ttl: nat)
    requires Owned(ss, ttl)
    ensures Owned(RevokeFamily(ss, family, now), ttl)
  {
    var r := RevokeFamily(ss, family, now);
    forall t | t in r ensures SessionOk(r, r[t], ttl) {
      assert SessionOk(ss, ss[t], ttl);
    }
  }

  lemma {:induction false} LoginKeepsOwned(ss: Sessions, user: nat, token: Token, family: Family, now: Time, ttl: nat)
    requires Owned(ss, ttl) && NoMember(ss, family)
    ensures Owned(LoggedIn(ss, user, token, family, now, ttl), ttl)
  {
    var r := LoggedIn(ss, user, token, family, now, ttl);
    forall t | t in r ensures SessionOk(r, r[t], ttl) {
      assert t in ss ==> SessionOk(ss, ss[t], ttl);
    }
  }

  lemma {:induction false} RotateKeepsOwned(ss: Sessions, presented: Token, token: Token, now: Time, ttl: nat)
    requires Owned(ss, ttl) && presented in ss && token !in ss && !Spent(ss[presented], now)
    ensures Owned(Refreshed(ss, presented, token, now, true, ttl), ttl)
  {
    var r := Refreshed(ss, presented, token, now, true, ttl);
    forall t | t in r ensures SessionOk(r, r[t], ttl) {
      assert t in ss ==> SessionOk(ss, ss[t], ttl);
    }
  }

  lemma {:induction false} StepKeepsOwned(ss: Sessions, step: Step, ttl: nat)
    requires Owned(ss, ttl) && (step.Login? ==> NoMember(ss, step.family))
    ensures Owned(Next(ss, step, ttl), ttl)
  {
    hide Owned, RevokeFamily, Spent;
    match step
    case Login(user, token, family, now) => LoginKeepsOwned(ss, user, token, family, now, ttl);
    case Refresh(presented, token, now, active) =>
      if presented in ss {
        RevokeKeepsOwned(ss, ss[presented].family, now, ttl);
        if !Spent(ss[presented], now) && active && token !in ss {
          RotateKeepsOwned(ss, presented, token, now, ttl);
        }
      }
    case Logout(presented, now) =>
      if presented in ss {
        RevokeKeepsOwned(ss, ss[presented].family, now, ttl);
      }
  }

  lemma {:induction false} RunKeepsOwned(steps: seq<Step>, ttl: nat)
    requires FreshFamilies(map[], steps, ttl)
    ensures Owned(After(map[], steps, ttl), ttl)
  {
    if steps != [] {
      RunKeepsOwned(steps[..|steps| - 1], ttl);
      hide Owned, Next, NoMember;
      StepKeepsOwned(After(map[], steps[..|steps| - 1], ttl), steps[|steps| - 1], ttl);
    }
  }

  /** Over every run a family belongs to one user, a token was used only within its lifetime, and what
      replaced it belongs to the same user and family. */
  lemma {:induction false} TokensStayOwned(steps: seq<Step>, ttl: nat, t: Token, u: Token)
    requires FreshFamilies(map[], steps, ttl)
    requires var ss := After(map[], steps, ttl); t in ss && u in ss && ss[t].family == ss[u].family
    ensures var ss := After(map[], steps, ttl);
            && ss[t].user == ss[u].user && ss[t].expires == ss[t].issued + ttl
            && (ss[t].used.Some? ==> ss[t].used.value < ss[t].issued + ttl && Replaces(ss, ss[t]))
  {
    RunKeepsOwned(steps, ttl);
    hide After, Replaces;
    assert SessionOk(After(map[], steps, ttl), After(map[], steps, ttl)[t], ttl);
  }

  /** After every run: presenting a token that is used, revoked, or as old as its lifetime, or whose user is not
      active, kills its family; any other token is used up for a live one of the same user and family with a
      lifetime of its own, and nothing else changes, unless the new token collides. */
  lemma {:induction false} RefreshIsExact(
    steps: seq<Step>, ttl: nat, presented: Token, token: Token, now: Time, active: bool)
    requires FreshFamilies(map[], steps, ttl) && presented in After(map[], steps, ttl)
    ensures var ss := After(map[], steps, ttl);
            var s, r := ss[presented], Refreshed(ss, presented, token, now, active, ttl);
            if s.used.Some? || s.revoked.Some? || s.issued + ttl <= now || !active then Dead(r, s.family)
            else if token in ss then r == ss
            else
              && r.Keys == ss.Keys + {token} && (forall t :: t in ss && t != presented ==> r[t] == ss[t])
              && r[presented] == s.(used := Some(now), replacedBy := Some(token))
              && Live(r[token]) && r[token].user == s.user && r[token].family == s.family
              && r[token].issued == now && r[token].expires == now + ttl && r[token].replacedBy.None?
  {
    RunKeepsOwned(steps, ttl);
    var ss := After(map[], steps, ttl);
    hide After, Dead, RevokeFamily;
    assert SessionOk(ss, ss[presented], ttl);
    ReplayAndLogoutKill(ss, presented, token, now, active, ttl);
  }

  // ---------------------------------------------------------------------------------------
  // The service object

  class AuthService {
    var sessions: Sessions
    const ttl: nat

    constructor (ttl: nat)
      ensures sessions == map[] && this.ttl == ttl
    {
      sessions := map[];
      this.ttl := ttl;
    }

    /** Opens a new family with its first token. */
    method IssueTokens(user: nat, token: Token, family: Family, now: Time) returns (ok: bool)
      modifies this
      ensures sessions == Next(old(sessions), Login(user, token, family, now), ttl)
      ensures ok <==> token !in old(sessions)
      ensures ok ==> token in sessions && Live(sessions[token]) && sessions[token].user == user
                     && sessions[token].family == family && sessions[token].expires == now + ttl
    {
      if token in sessions {
        return false;
      }
      sessions := sessions[token := Issue(user, family, now, ttl)];
      return true;
    }

    /** Afterwards no token of the family is unrevoked; earlier revocation times stand, and nothing else
        of any session changes. */
    method Revoke(family: Family, now: Time)
      modifies this
      ensures sessions.Keys == old(sessions).Keys
      ensures forall t :: t in sessions && sessions[t].family == family ==> sessions[t].revoked.Some?
      ensures forall t :: t in sessions && old(sessions)[t].family != family ==> sessions[t] == old(sessions)[t]
      ensures forall t :: t in sessions ==> sessions[t] == old(sessions)[t].(revoked := sessions[t].revoked)
      ensures forall t :: t in sessions && sessions[t].revoked != old(sessions)[t].revoked ==>
        old(sessions)[t].revoked.None? && sessions[t].revoked == Some(now)
    {
      sessions := map t | t in sessions ::
        if sessions[t].family == family && sessions[t].revoked.None?
        then sessions[t].(revoked := Some(now)) else sessions[t];
    }

    /** Rotates an unspent token of an active user; otherwise revokes the family. */
    method RefreshTokens(presented: Token, token: Token, now: Time, active: bool) returns (ok: bool)
      modifies this
      ensures sessions == Next(old(sessions), Refresh(presented, token, now, active), ttl)
      ensures ok <==> presented in old(sessions) && !Spent(old(sessions)[presented], now) && active
                      && token !in old(sessions)
      ensures ok ==> token in sessions && Live(sessions[token]) && !Live(sessions[presented])
    {
      if presented !in sessions {
        return false;
      }
      var s := sessions[presented];
      if Spent(s, now) || !active {
        Revoke(s.family, now);
        assert sessions == RevokeFamily(old(sessions), s.family, now);
        return false;
      }
      if token in sessions {
        return false;
      }
      sessions := sessions[presented := s.(used := Some(now), replacedBy := Some(token))];
      sessions := sessions[token := Issue(s.user, s.family, now, ttl)];
      return true;
    }

    /** Revokes the family of a known token; an unknown token changes nothing. */
    method LogOut(presented: Token, now: Time)
      modifies this
      ensures sessions == Next(old(sessions), Logout(presented, now), ttl)
    {
      if presented in sessions {
        Revoke(sessions[presented].family, now);
        assert sessions == RevokeFamily(old(sessions), old(sessions)[presented].family, now);
      }
    }
  }
}
