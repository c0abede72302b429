/** Delivery of one outbox row by concurrent workers: retries, ambiguous commits, outcome recovery. */
module Delivery {
  import opened Common

  type Time = int

  const MAX_AUTO_ATTEMPTS := 5
  const RETRY_BASE_SECONDS := 60
  const COMMIT_RECOVERY_ATTEMPTS := 2
  const PENDING_RECOVERY_WINDOW := 300
  const INVALID_CONTENT := "INVALID_NOTIFICATION_CONTENT"

  datatype DeliveryStatus = PENDING | SENT | FAILED

  /** The durable fields that a claim remembers and an outcome replaces. */
  datatype Row = Row(status: DeliveryStatus, attempts: nat, code: Option<string>, nextRetry: Option<Time>)

  const FRESH_ROW := Row(PENDING, 0, None, None)

  /** What the provider did with one message. */
  datatype Reply = Delivered | Rejected(code: string, transient: bool)

  function Pow2(n: nat): (r: nat)
    ensures r >= 1
  {
    if n == 0 then 1 else 2 * Pow2(n - 1)
  }

  /** The outcome of one attempt; transient failures back off exponentially while attempts remain. */
  function Outcome(row: Row, reply: Reply, now: Time): (r: Row) {
    var n := row.attempts + 1;
    match reply
    case Delivered => Row(SENT, n, None, None)
    case Rejected(code, transient) =>
      Row(FAILED, n, Some(code),
          if transient && n < MAX_AUTO_ATTEMPTS then Some(now + RETRY_BASE_SECONDS * Pow2(n - 1)) else None)
  }

  /** Content that cannot be delivered fails without an attempt. */
  function Undeliverable(row: Row): (r: Row) { Row(FAILED, row.attempts, Some(INVALID_CONTENT), None) }

  /** First dispatch, automatic recovery, or a user's retry. */
  datatype Mode = Dispatch | Recover | Manual

  predicate OldPending(row: Row, created: Time, now: Time) {
    row.status == PENDING && now >= created + PENDING_RECOVERY_WINDOW
  }

  predicate DueFailure(row: Row, now: Time) {
    row.status == FAILED && row.nextRetry.Some? && row.nextRetry.value <= now && row.attempts < MAX_AUTO_ATTEMPTS
  }

  predicate Eligible(row: Row, created: Time, mode: Mode, now: Time) {
    match mode
    case Dispatch => row.status == PENDING
    case Recover => DueFailure(row, now) || OldPending(row, created, now)
    case Manual => row.status == FAILED || OldPending(row, created, now)
  }

  // ---------------------------------------------------------------------------------------
  // Workers

  /** How a commit ends: seen to succeed, raised without effect, raised although it took effect, or
      never answered because the worker died before sending it. */
  datatype Commit = Clean | Lost | Landed | Crash

  /** A worker whose commit raised: its claim, what the provider answered, its cached outcome and its
      remaining recovery tries. */
  datatype Ticket = Ticket(mode: Mode, now: Time, reply: Reply, baseline: Row, outcome: Row, tries: nat, since: nat)

  /** One durable outcome: whose it was, when it was claimed, what the provider answered, which row it
      replaced and which row it wrote. */
  datatype Record = Record(claim: nat, mode: Mode, now: Time, reply: Reply, before: Row, after: Row)

  datatype System = System(
    row: Row, deliverable: bool, created: Time, claims: nat, sends: nat,
    records: seq<Record>, tickets: map<nat, Ticket>)

  function NewSystem(deliverable: bool, created: Time): (s: System) {
    System(FRESH_ROW, deliverable, created, 0, 0, [], map[])
  }

  datatype Step =
    | Claim(mode: Mode, now: Time, reply: Reply, commit: Commit)
    | Revisit(claim: nat, readable: bool, commit: Commit)
    | Die(claim: nat)

  /** A cached outcome becomes durable. */
  function Write(s: System, claim: nat, t: Ticket): (r: System) {
    s.(row := t.outcome, records := s.records + [Record(claim, t.mode, t.now, t.reply, s.row, t.outcome)])
  }

  function Hold(s: System, claim: nat, t: Ticket): (r: System) { s.(tickets := s.tickets[claim := t]) }

  function Release(s: System, claim: nat): (r: System) { s.(tickets := s.tickets - {claim}) }

  function Spend(s: System, claim: nat): (r: System)
    requires claim in s.tickets
  {
    var t := s.tickets[claim];
    if t.tries <= 1 then Release(s, claim) else Hold(s, claim, t.(tries := t.tries - 1))
  }

  /** A worker locks the row, sends when the content allows, and commits. */
  function Claimed(s: System, mode: Mode, now: Time, reply: Reply, commit: Commit): (r: System) {
    if !Eligible(s.row, s.created, mode, now) then s
    else
      var claim := s.claims;
      var outcome := if s.deliverable then Outcome(s.row, reply, now) else Undeliverable(s.row);
      var ticket := Ticket(mode, now, reply, s.row, outcome, COMMIT_RECOVERY_ATTEMPTS, |s.records|);
      var open := s.(claims := s.claims + 1, sends := if s.deliverable then s.sends + 1 else s.sends);
      // A retry that finds malformed content commits without outcome recovery.
      var recovers := s.deliverable || mode != Manual;
      match commit
      case Clean => Write(open, claim, ticket)
      case Landed =>
        var written := Write(open, claim, ticket);
        if recovers then Hold(written, claim, ticket) else written
      case Lost => if recovers then Hold(open, claim, ticket) else open
      case Crash => open
  }

  /** One recovery try: a changed terminal row is a winner, else the cached outcome is written. */
  function Revisited(s: System, claim: nat, readable: bool, commit: Commit): (r: System) {
    if claim !in s.tickets then s
    else
      var t := s.tickets[claim];
      if !readable then Spend(s, claim)
      else if s.row.status != PENDING && s.row != t.baseline then Release(s, claim)
      else
        match commit
        case Clean => Release(Write(s, claim, t), claim)
        case Landed => Spend(Write(s, claim, t), claim)
        case Lost => Spend(s, claim)
        case Crash => Release(s, claim)
  }

  function Next(s: System, step: Step): (r: System) {
    match step
    case Claim(mode, now, reply, commit) => Claimed(s, mode, now, reply, commit)
    case Revisit(claim, readable, commit) => Revisited(s, claim, readable, commit)
    case Die(claim) => Release(s, claim)
  }

  function After(s: System, steps: seq<Step>): (r: System) {
    if steps == [] then s else Next(After(s, steps[..|steps| - 1]), steps[|steps| - 1])
  }

  // ---------------------------------------------------------------------------------------
  // What every step keeps

  /** A durable PENDING row was never attempted; a retry time means a failure with attempts left. */
  ghost predicate RowOk(row: Row) {
    && (row.status == PENDING ==> row == FRESH_ROW)
    && (row.nextRetry.Some? ==> row.status == FAILED && 0 < row.attempts < MAX_AUTO_ATTEMPTS)
  }

  /** Attempts count the durable deliveries. */
  ghost predicate Counted(s: System) {
    if s.deliverable then s.row.attempts == |s.records|
    else s.row == if s.records == [] then FRESH_ROW else Undeliverable(FRESH_ROW)
  }

  ghost predicate RecordsOk(s: System) {
    && s.row == (if s.records == [] then FRESH_ROW else s.records[|s.records| - 1].after)
    && (forall i :: 0 <= i < |s.records| ==> s.records[i].claim < s.claims)
    && (forall i, j :: 0 <= i < j < |s.records| && s.deliverable ==> s.records[i].claim != s.records[j].claim)
    && (forall i :: 0 <= i < |s.records| ==> s.records[i].before.status != SENT)
    && (forall i :: 0 <= i < |s.records| && s.deliverable ==>
          s.records[i].before.attempts == i && RowOk(s.records[i].before))
    && (forall i :: 0 <= i < |s.records| && s.records[i].mode == Recover && s.records[i].before.status == FAILED ==>
          s.records[i].before.nextRetry.Some?)
  }

  /** The claim test is free of ABA: the row equals the baseline exactly when nothing became durable since. */
  ghost predicate TicketOk(s: System, claim: nat, t: Ticket) {
    && claim < s.claims && 1 <= t.tries && t.since <= |s.records|
    && RowOk(t.baseline) && RowOk(t.outcome) && t.baseline.status != SENT && t.outcome.status != PENDING
    && (if s.deliverable then t.baseline.attempts == t.since && t.outcome.attempts == t.since + 1
        else t.baseline == FRESH_ROW && t.since == 0 && t.outcome == Undeliverable(FRESH_ROW))
    && (t.mode == Recover && t.baseline.status == FAILED ==> t.baseline.nextRetry.Some?)
    && (s.row == t.baseline <==> |s.records| == t.since)
    && (forall i :: 0 <= i < |s.records| && s.deliverable && s.records[i].claim == claim ==> t.since <= i)
  }

  ghost predicate Sound(s: System) {
    && RowOk(s.row) && Counted(s) && RecordsOk(s)
    && (forall c :: c in s.tickets ==> TicketOk(s, c, s.tickets[c]))
  }

  lemma {:induction false} NewIsSound(deliverable: bool, created: Time)
    ensures Sound(NewSystem(deliverable, created))
  {
  }

  lemma {:induction false} OutcomeIsOk(row: Row, reply: Reply, now: Time)
    ensures RowOk(Outcome(row, reply, now)) && Outcome(row, reply, now).status != PENDING
    ensures Outcome(row, reply, now).attempts == row.attempts + 1
  {
    hide Pow2;
  }

  /** Writing over the row that was claimed. */
  lemma {:induction false} WriteKeepsSound(s: System, claim: nat, t: Ticket)
    requires Sound(s) && claim < s.claims && RowOk(t.outcome) && t.outcome.status != PENDING && s.row.status != SENT
    requires if s.deliverable then t.outcome.attempts == s.row.attempts + 1 else t.outcome == Undeliverable(FRESH_ROW)
    requires t.mode == Recover && s.row.status == FAILED ==> s.row.nextRetry.Some?
    requires forall i :: 0 <= i < |s.records| && s.deliverable ==> s.records[i].claim != claim
    ensures Sound(Write(s, claim, t))
  {
    var next := Write(s, claim, t);
    assert RecordsOk(next);
    hide RecordsOk;
    forall c | c in next.tickets ensures TicketOk(next, c, next.tickets[c]) {
      assert TicketOk(s, c, s.tickets[c]);
    }
  }

  lemma {:induction false} HoldKeepsSound(s: System, claim: nat, t: Ticket)
    requires Sound(s) && TicketOk(s, claim, t)
    ensures Sound(Hold(s, claim, t))
  {
    hide RecordsOk, RowOk;
    var next := Hold(s, claim, t);
    assert RecordsOk(next) by { SameRecords(s, next); }
    forall c | c in next.tickets ensures TicketOk(next, c, next.tickets[c]) {
      assert c == claim || TicketOk(s, c, s.tickets[c]);
    }
  }

  lemma {:induction false} SameRecords(s: System, next: System)
    requires RecordsOk(s) && next.records == s.records && next.row == s.row && next.claims >= s.claims
    requires next.deliverable == s.deliverable
    ensures RecordsOk(next)
  {
  }

  lemma {:induction false} ReleaseKeepsSound(s: System, claim: nat)
    requires Sound(s)
    ensures Sound(Release(s, claim))
  {
    hide RecordsOk, RowOk;
    var next := Release(s, claim);
    assert RecordsOk(next) by { SameRecords(s, next); }
    forall c | c in next.tickets ensures TicketOk(next, c, next.tickets[c]) {
      assert TicketOk(s, c, s.tickets[c]);
    }
  }

  lemma {:induction false} SpendKeepsSound(s: System, claim: nat)
    requires Sound(s) && claim in s.tickets
    ensures Sound(Spend(s, claim))
  {
    hide RecordsOk, RowOk;
    var t := s.tickets[claim];
    assert TicketOk(s, claim, t);
    if t.tries <= 1 {
      ReleaseKeepsSound(s, claim);
    } else {
      HoldKeepsSound(s, claim, t.(tries := t.tries - 1));
    }
  }

  lemma {:induction false} OpenKeepsSound(s: System, sends: nat)
    requires Sound(s)
    ensures Sound(s.(claims := s.claims + 1, sends := sends))
  {
    hide RowOk;
    var next := s.(claims := s.claims + 1, sends := sends);
    assert RecordsOk(next) by { SameRecords(s, next); }
    hide RecordsOk;
    forall c | c in next.tickets ensures TicketOk(next, c, next.tickets[c]) {
      assert TicketOk(s, c, s.tickets[c]);
    }
  }

  lemma {:induction false} ClaimKeepsSound(s: System, mode: Mode, now: Time, reply: Reply, commit: Commit)
    requires Sound(s)
    ensures Sound(Claimed(s, mode, now, reply, commit))
  {
    hide Outcome, Sound, TicketOk, Eligible, Undeliverable, Hold, Write, RowOk;
    if Eligible(s.row, s.created, mode, now) {
      var claim := s.claims;
      var outcome := if s.deliverable then Outcome(s.row, reply, now) else Undeliverable(s.row);
      var ticket := Ticket(mode, now, reply, s.row, outcome, COMMIT_RECOVERY_ATTEMPTS, |s.records|);
      var open := s.(claims := s.claims + 1, sends := if s.deliverable then s.sends + 1 else s.sends);
      OpenKeepsSound(s, open.sends);
      ClaimFacts(s, mode, now, reply);
      if s.deliverable || mode != Manual {
        NewTicket(s, mode, now, reply);
      }
      WriteKeepsSound(open, claim, ticket);
      if s.deliverable || mode != Manual {
        HoldKeepsSound(Write(open, claim, ticket), claim, ticket);
        HoldKeepsSound(open, claim, ticket);
      }
    }
  }

  /** What an eligible claim is about to write. */
  lemma {:induction false} ClaimFacts(s: System, mode: Mode, now: Time, reply: Reply)
    requires Sound(s) && Eligible(s.row, s.created, mode, now)
    ensures var outcome := if s.deliverable then Outcome(s.row, reply, now) else Undeliverable(s.row);
            && RowOk(outcome) && outcome.status != PENDING && s.row.status != SENT
            && (if s.deliverable then outcome.attempts == s.row.attempts + 1 else outcome == Undeliverable(FRESH_ROW))
            && (mode == Recover && s.row.status == FAILED ==> s.row.nextRetry.Some?)
            && (forall i :: 0 <= i < |s.records| ==> s.records[i].claim != s.claims)
  {
    OutcomeIsOk(s.row, reply, now);
    ClaimIsNew(s);
    hide Outcome, RecordsOk;
  }

  lemma {:induction false} NewTicket(s: System, mode: Mode, now: Time, reply: Reply)
    requires Sound(s) && Eligible(s.row, s.created, mode, now) && (s.deliverable || mode != Manual)
    ensures var outcome := if s.deliverable then Outcome(s.row, reply, now) else Undeliverable(s.row);
            var ticket := Ticket(mode, now, reply, s.row, outcome, COMMIT_RECOVERY_ATTEMPTS, |s.records|);
            var open := s.(claims := s.claims + 1, sends := if s.deliverable then s.sends + 1 else s.sends);
            && TicketOk(open, s.claims, ticket)
            && TicketOk(Write(open, s.claims, ticket), s.claims, ticket)
  {
    ClaimFacts(s, mode, now, reply);
    hide Outcome, RecordsOk;
    assert s.deliverable || s.row == FRESH_ROW;
  }

  lemma {:induction false} ClaimIsNew(s: System)
    requires Sound(s)
    ensures forall i :: 0 <= i < |s.records| ==> s.records[i].claim != s.claims
  {
  }

  lemma {:induction false} RevisitKeepsSound(s: System, claim: nat, readable: bool, commit: Commit)
    requires Sound(s)
    ensures Sound(Revisited(s, claim, readable, commit))
  {
    if claim in s.tickets {
      var t := s.tickets[claim];
      assert TicketOk(s, claim, t);
      hide RecordsOk;
      ReleaseKeepsSound(s, claim);
      SpendKeepsSound(s, claim);
      if readable && (s.row.status == PENDING || s.row == t.baseline) {
        assert s.row == t.baseline by { PendingIsUntouched(s, claim); }
        WriteKeepsSound(s, claim, t);
        var written := Write(s, claim, t);
        ReleaseKeepsSound(written, claim);
        SpendKeepsSound(written, claim);
      }
    }
  }

  /** The recovery writes only over the row it claimed: a PENDING row is the claimed one. */
  lemma {:induction false} PendingIsUntouched(s: System, claim: nat)
    requires Sound(s) && claim in s.tickets && (s.row.status == PENDING || s.row == s.tickets[claim].baseline)
    ensures s.row == s.tickets[claim].baseline && |s.records| == s.tickets[claim].since
  {
    assert TicketOk(s, claim, s.tickets[claim]);
    hide RecordsOk;
  }

  lemma {:induction false} StepKeepsSound(s: System, step: Step)
    requires Sound(s)
    ensures Sound(Next(s, step))
  {
    hide Sound, Claimed, Revisited, Release;
    match step
    case Claim(mode, now, reply, commit) => ClaimKeepsSound(s, mode, now, reply, commit);
    case Revisit(claim, readable, commit) => RevisitKeepsSound(s, claim, readable, commit);
    case Die(claim) => ReleaseKeepsSound(s, claim);
  }

  lemma {:induction false} RunKeepsSound(s: System, steps: seq<Step>)
    requires Sound(s)
    ensures Sound(After(s, steps))
  {
    if steps != [] {
      RunKeepsSound(s, steps[..|steps| - 1]);
      hide Sound, Next;
      StepKeepsSound(After(s, steps[..|steps| - 1]), steps[|steps| - 1]);
    }
  }

  // ---------------------------------------------------------------------------------------
  // Main results

  ghost predicate Reachable(s: System, deliverable: bool, created: Time, steps: seq<Step>) {
    s == After(NewSystem(deliverable, created), steps)
  }

  lemma {:induction false} ReachableIsSound(s: System, deliverable: bool, created: Time, steps: seq<Step>)
    requires Reachable(s, deliverable, created, steps)
    ensures Sound(s)
  {
    NewIsSound(deliverable, created);
    hide Sound, After;
    RunKeepsSound(NewSystem(deliverable, created), steps);
  }

  /** Over every run: a durable PENDING row was never attempted, and a retry time means a failure with
      fewer than five attempts. */
  lemma {:induction false} DurableRowFacts(s: System, deliverable: bool, created: Time, steps: seq<Step>)
    requires Reachable(s, deliverable, created, steps)
    ensures s.row.status == PENDING ==> s.row.attempts == 0
    ensures s.row.nextRetry.Some? ==> s.row.status == FAILED && s.row.attempts < MAX_AUTO_ATTEMPTS
  {
    ReachableIsSound(s, deliverable, created, steps);
    hide Reachable;
  }

  /** SENT is absorbing: no step after it writes or sends again. */
  lemma {:induction false} SentIsAbsorbing(s: System, step: Step)
    requires Sound(s) && s.row.status == SENT
    ensures Next(s, step).row == s.row && Next(s, step).records == s.records && Next(s, step).sends == s.sends
  {
    if step.Revisit? && step.claim in s.tickets {
      assert TicketOk(s, step.claim, s.tickets[step.claim]);
    }
  }

  lemma {:induction false} SentStaysSent(deliverable: bool, created: Time, steps: seq<Step>, n: nat)
    requires n <= |steps| && After(NewSystem(deliverable, created), steps[..n]).row.status == SENT
    ensures After(NewSystem(deliverable, created), steps).row == After(NewSystem(deliverable, created), steps[..n]).row
    ensures After(NewSystem(deliverable, created), steps).sends
         == After(NewSystem(deliverable, created), steps[..n]).sends
    decreases |steps|
  {
    if n == |steps| {
      assert steps[..n] == steps;
    } else {
      var init := steps[..|steps| - 1];
      assert init[..n] == steps[..n];
      SentStaysSent(deliverable, created, init, n);
      var s := After(NewSystem(deliverable, created), init);
      assert Reachable(s, deliverable, created, init);
      ReachableIsSound(s, deliverable, created, init);
      hide Sound, Next;
      SentIsAbsorbing(s, steps[|steps| - 1]);
    }
  }

  /** Over every run of a deliverable row: the attempt count is the number of durable outcomes, and no
      delivery is counted twice. */
  lemma {:induction false} NoAttemptCountedTwice(s: System, created: Time, steps: seq<Step>, i: nat, j: nat)
    requires Reachable(s, true, created, steps)
    ensures s.row.attempts == |s.records|
    ensures i < j < |s.records| ==> s.records[i].claim != s.records[j].claim
  {
    ReachableIsSound(s, true, created, steps);
    StillDeliverable(true, created, steps);
    hide Reachable, TicketOk;
  }

  lemma {:induction false} StillDeliverable(deliverable: bool, created: Time, steps: seq<Step>)
    ensures After(NewSystem(deliverable, created), steps).deliverable == deliverable
  {
    if steps != [] {
      StillDeliverable(deliverable, created, steps[..|steps| - 1]);
      hide Eligible, Outcome;
    }
  }

  /** Over every run: a recovering worker finds its baseline exactly when no outcome became durable
      since its claim, its own included. */
  lemma {:induction false} ClaimTestIsExact(s: System, deliverable: bool, created: Time, steps: seq<Step>, claim: nat)
    requires Reachable(s, deliverable, created, steps) && claim in s.tickets
    ensures s.row == s.tickets[claim].baseline <==> |s.records| == s.tickets[claim].since
  {
    ReachableIsSound(s, deliverable, created, steps);
    hide Reachable, RecordsOk;
    assert TicketOk(s, claim, s.tickets[claim]);
  }

  /** What one recovery try of any reachable worker does. When nothing became durable since its claim, a
      commit that takes effect writes the cached outcome, recorded now and never before. Otherwise the
      durable row is the outcome of the last record, made since the claim, and stays. A try that cannot
      read, or whose commit has no effect, changes nothing. The worker is done once it read a winner or
      saw its commit succeed. */
  lemma {:induction false} RecoveryOutcome(
    s: System, deliverable: bool, created: Time, steps: seq<Step>, claim: nat, readable: bool, commit: Commit)
    requires Reachable(s, deliverable, created, steps) && claim in s.tickets
    ensures var t, next := s.tickets[claim], Revisited(s, claim, readable, commit);
            var takes := readable && (commit == Clean || commit == Landed);
            && (|s.records| == t.since && takes ==>
                  && next.row == t.outcome && next.records == s.records + [Record(claim, t.mode, t.now, t.reply,
                                                                                  t.baseline, t.outcome)]
                  && forall i :: 0 <= i < |s.records| && deliverable ==> s.records[i].claim != claim)
            && (|s.records| == t.since && !takes ==> next.row == s.row && next.records == s.records)
            && (|s.records| != t.since ==>
                  && next.row == s.row && next.records == s.records
                  && t.since < |s.records| && s.row == s.records[|s.records| - 1].after)
            && (readable && (|s.records| != t.since || commit == Clean) ==> claim !in next.tickets)
  {
    ReachableIsSound(s, deliverable, created, steps);
    StillDeliverable(deliverable, created, steps);
    hide Reachable;
    var t := s.tickets[claim];
    assert TicketOk(s, claim, t);
    if s.row.status == PENDING || s.row == t.baseline {
      PendingIsUntouched(s, claim);
    }
  }

  /** Over every run of a deliverable row: only the second to the fifth recorded attempt can be an
      automatic retry of a failure, so recorded automatic retries end. */
  lemma {:induction false} AutomaticRetriesEnd(s: System, created: Time, steps: seq<Step>, i: nat)
    requires Reachable(s, true, created, steps) && i < |s.records|
    requires s.records[i].mode == Recover && s.records[i].before.status == FAILED
    ensures 1 <= i < MAX_AUTO_ATTEMPTS
  {
    ReachableIsSound(s, true, created, steps);
    StillDeliverable(true, created, steps);
    hide Reachable, TicketOk;
  }

  /** A recorded automatic retry uses up one of the remaining attempts; a lost one uses up none. */
  lemma {:induction false} RetryMeasure(s: System, now: Time, reply: Reply, commit: Commit)
    requires Sound(s) && s.deliverable && DueFailure(s.row, now)
    ensures var next := Claimed(s, Recover, now, reply, commit);
            && next.sends == s.sends + 1
            && MAX_AUTO_ATTEMPTS - next.row.attempts
               == MAX_AUTO_ATTEMPTS - s.row.attempts - (if commit == Clean || commit == Landed then 1 else 0)
            && MAX_AUTO_ATTEMPTS - s.row.attempts > 0
            && (commit == Lost || commit == Crash ==> next.row == s.row)
  {
    OutcomeIsOk(s.row, reply, now);
    hide Outcome, RecordsOk, TicketOk;
  }

  /** Workers that die before committing leave a due row due. */
  lemma {:induction false} CrashesChangeNothing(s: System, now: Time, n: nat)
    requires s.deliverable && DueFailure(s.row, now)
    ensures var r := After(s, Crashes(now, n));
            && r.row == s.row && r.records == s.records && r.sends == s.sends + n
            && r.deliverable && r.created == s.created
  {
    if n > 0 {
      CrashesChangeNothing(s, now, n - 1);
      assert Crashes(now, n)[..n - 1] == Crashes(now, n - 1);
      hide Outcome;
    }
  }

  function Crashes(now: Time, n: nat): (steps: seq<Step>)
    ensures |steps| == n
  {
    seq(n, _ => Claim(Recover, now, Delivered, Crash))
  }

  lemma {:induction false} AfterSplits(s: System, a: seq<Step>, b: seq<Step>)
    ensures After(s, a + b) == After(After(s, a), b)
  {
    hide Next;
    if b == [] {
      assert a + b == a;
    } else {
      assert (a + b)[..|a + b| - 1] == a + b[..|b| - 1];
      AfterSplits(s, a, b[..|b| - 1]);
    }
  }

  /** From the enqueued row on: after one transient failure, any number of recovery workers may send and
      die before they commit, so the number of sends has no bound while one attempt is recorded. */
  lemma {:induction false} LostAttemptsAreUnbounded(created: Time, code: string, n: nat)
    ensures var fail := Claim(Dispatch, created, Rejected(code, true), Clean);
            var due := created + RETRY_BASE_SECONDS;
            var s := After(NewSystem(true, created), [fail] + Crashes(due, n));
            s.sends == n + 1 && s.row.attempts == 1 && |s.records| == 1 && DueFailure(s.row, due)
  {
    var fail := Claim(Dispatch, created, Rejected(code, true), Clean);
    var due := created + RETRY_BASE_SECONDS;
    var s := After(NewSystem(true, created), [fail]);
    assert After(NewSystem(true, created), []) == NewSystem(true, created) && [fail][..0] == [];
    assert s == Next(NewSystem(true, created), fail);
    assert Pow2(0) == 1;
    assert s.row == Row(FAILED, 1, Some(code), Some(due));
    AfterSplits(NewSystem(true, created), [fail], Crashes(due, n));
    CrashesChangeNothing(s, due, n);
  }
}
