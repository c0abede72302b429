/** What the durable row says of the provider's replies, and when attempts are made. */
module DeliveryOutcomes {
  import opened Common
  import opened Delivery

  /** The seconds between a transient failure and its automatic retry, by the attempts recorded. */
  function WaitAfter(attempts: nat): (seconds: int) {
    match attempts
    case 1 => 60
    case 2 => 120
    case 3 => 240
    case 4 => 480
    case _ => 0
  }

  /** A row that reports a reply to an attempt claimed at `now`. */
  predicate Reports(before: Row, after: Row, now: Time, reply: Reply) {
    && after.attempts == before.attempts + 1
    && match reply
       case Delivered => after.status == SENT && after.code.None? && after.nextRetry.None?
       case Rejected(code, transient) =>
         && after.status == FAILED && after.code == Some(code)
         && (after.nextRetry.Some? <==> transient && after.attempts < 5)
         && (after.nextRetry.Some? ==> after.nextRetry.value == now + WaitAfter(after.attempts))
  }

  /** When an attempt may be made: a dispatch on a pending row; a recovery on a failure whose retry time has
      come, or on a row pending for five minutes; a user's retry on any failure, or on such a row. */
  predicate Timely(mode: Mode, before: Row, created: Time, now: Time) {
    match mode
    case Dispatch => before.status == PENDING
    case Recover =>
      || (before.status == FAILED && before.attempts < 5 && before.nextRetry.Some? && before.nextRetry.value <= now)
      || (before.status == PENDING && created + 300 <= now)
    case Manual => before.status == FAILED || (before.status == PENDING && created + 300 <= now)
  }

  lemma {:induction false} OutcomeReports(row: Row, reply: Reply, now: Time)
    ensures Reports(row, Outcome(row, reply, now), now, reply)
  {
    assert Pow2(0) == 1;
    assert Pow2(1) == 2;
    assert Pow2(2) == 4;
    assert Pow2(3) == 8;
    hide Pow2;
  }

  lemma {:induction false} EligibleIsTimely(row: Row, created: Time, mode: Mode, now: Time)
    ensures Eligible(row, created, mode, now) <==> Timely(mode, row, created, now)
  {
  }

  // ---------------------------------------------------------------------------------------
  // What every step keeps

  /** Each record follows the one before it, was claimed in time and reports its reply. */
  ghost predicate RecordFaithful(s: System, i: nat)
    requires i < |s.records|
  {
    var r := s.records[i];
    && r.before == (if i == 0 then FRESH_ROW else s.records[i - 1].after)
    && Timely(r.mode, r.before, s.created, r.now)
    && (s.deliverable ==> Reports(r.before, r.after, r.now, r.reply))
  }

  ghost predicate TicketFaithful(s: System, t: Ticket) {
    && Timely(t.mode, t.baseline, s.created, t.now)
    && (s.deliverable ==> Reports(t.baseline, t.outcome, t.now, t.reply))
  }

  ghost predicate Faithful(s: System) {
    && s.row == (if s.records == [] then FRESH_ROW else s.records[|s.records| - 1].after)
    && (forall i :: 0 <= i < |s.records| ==> RecordFaithful(s, i))
    && (forall c :: c in s.tickets ==> TicketFaithful(s, s.tickets[c]))
  }

  /** Writing a faithful ticket over the row it claimed. */
  lemma {:induction false} WriteKeepsFaithful(s: System, claim: nat, t: Ticket)
    requires Faithful(s) && TicketFaithful(s, t) && s.row == t.baseline
    ensures Faithful(Write(s, claim, t))
  {
    hide Timely, Reports;
    var next := Write(s, claim, t);
    forall i | 0 <= i < |next.records| ensures RecordFaithful(next, i) {
      if i < |s.records| {
        assert RecordFaithful(s, i);
      }
    }
    forall c | c in next.tickets ensures TicketFaithful(next, next.tickets[c]) {
      assert TicketFaithful(s, s.tickets[c]);
    }
  }

  /** Changes outside the row and its records. */
  lemma {:induction false} TicketsKeepFaithful(s: System, next: System)
    requires Faithful(s) && next.row == s.row && next.records == s.records
    requires next.deliverable == s.deliverable && next.created == s.created
    requires forall c :: c in next.tickets ==> TicketFaithful(next, next.tickets[c])
    ensures Faithful(next)
  {
    hide Timely, Reports;
    forall i | 0 <= i < |next.records| ensures RecordFaithful(next, i) {
      assert RecordFaithful(s, i);
    }
  }

  lemma {:induction false} HoldKeepsFaithful(s: System, claim: nat, t: Ticket)
    requires Faithful(s) && TicketFaithful(s, t)
    ensures Faithful(Hold(s, claim, t))
  {
    hide Timely, Reports, RecordFaithful;
    var next := Hold(s, claim, t);
    forall c | c in next.tickets ensures TicketFaithful(next, next.tickets[c]) {
      assert c == claim || TicketFaithful(s, s.tickets[c]);
    }
    TicketsKeepFaithful(s, next);
  }

  lemma {:induction false} ReleaseKeepsFaithful(s: System, claim: nat)
    requires Faithful(s)
    ensures Faithful(Release(s, claim))
  {
    hide Timely, Reports, RecordFaithful;
    var next := Release(s, claim);
    forall c | c in next.tickets ensures TicketFaithful(next, next.tickets[c]) {
      assert TicketFaithful(s, s.tickets[c]);
    }
    TicketsKeepFaithful(s, next);
  }

  lemma {:induction false} SpendKeepsFaithful(s: System, claim: nat)
    requires Faithful(s) && claim in s.tickets
    ensures Faithful(Spend(s, claim))
  {
    hide Timely, Reports, RecordFaithful;
    var t := s.tickets[claim];
    assert TicketFaithful(s, t);
    if t.tries <= 1 {
      ReleaseKeepsFaithful(s, claim);
    } else {
      HoldKeepsFaithful(s, claim, t.(tries := t.tries - 1));
    }
  }

  lemma {:induction false} ClaimKeepsFaithful(s: System, mode: Mode, now: Time, reply: Reply, commit: Commit)
    requires Faithful(s)
    ensures Faithful(Claimed(s, mode, now, reply, commit))
  {
    hide Outcome, Timely, Reports, RecordFaithful, Eligible, Undeliverable, Faithful;
    if Eligible(s.row, s.created, mode, now) {
      var outcome := if s.deliverable then Outcome(s.row, reply, now) else Undeliverable(s.row);
      var t := Ticket(mode, now, reply, s.row, outcome, COMMIT_RECOVERY_ATTEMPTS, |s.records|);
      var open := s.(claims := s.claims + 1, sends := if s.deliverable then s.sends + 1 else s.sends);
      OutcomeReports(s.row, reply, now);
      EligibleIsTimely(s.row, s.created, mode, now);
      OpenKeepsFaithful(s, open);
      WriteKeepsFaithful(open, s.claims, t);
      HoldKeepsFaithful(Write(open, s.claims, t), s.claims, t);
      HoldKeepsFaithful(open, s.claims, t);
    }
  }

  lemma {:induction false} OpenKeepsFaithful(s: System, open: System)
    requires Faithful(s) && open == s.(claims := open.claims, sends := open.sends)
    ensures Faithful(open)
  {
    hide Timely, Reports, RecordFaithful;
    forall c | c in open.tickets ensures TicketFaithful(open, open.tickets[c]) {
      assert TicketFaithful(s, s.tickets[c]);
    }
    TicketsKeepFaithful(s, open);
  }

  lemma {:induction false} RevisitKeepsFaithful(s: System, claim: nat, readable: bool, commit: Commit)
    requires Faithful(s) && Sound(s)
    ensures Faithful(Revisited(s, claim, readable, commit))
  {
    hide Timely, Reports, RecordFaithful, Sound, Spend, Release, Write;
    if claim in s.tickets {
      var t := s.tickets[claim];
      assert TicketFaithful(s, t);
      hide Faithful;
      ReleaseKeepsFaithful(s, claim);
      SpendKeepsFaithful(s, claim);
      if readable && (s.row.status == PENDING || s.row == t.baseline) {
        PendingIsUntouched(s, claim);
        WriteKeepsFaithful(s, claim, t);
        ReleaseKeepsFaithful(Write(s, claim, t), claim);
        WriteKeepsTickets(s, claim, t);
        SpendKeepsFaithful(Write(s, claim, t), claim);
      }
    }
  }

  lemma {:induction false} WriteKeepsTickets(s: System, claim: nat, t: Ticket)
    ensures Write(s, claim, t).tickets == s.tickets
  {
  }

  lemma {:induction false} RunKeepsFaithful(deliverable: bool, created: Time, steps: seq<Step>)
    ensures Faithful(After(NewSystem(deliverable, created), steps))
  {
    if steps != [] {
      var init, step := steps[..|steps| - 1], steps[|steps| - 1];
      RunKeepsFaithful(deliverable, created, init);
      var s := After(NewSystem(deliverable, created), init);
      ReachableIsSound(s, deliverable, created, init);
      hide Faithful, Sound, Claimed, Revisited, Release;
      match step
      case Claim(mode, now, reply, commit) => ClaimKeepsFaithful(s, mode, now, reply, commit);
      case Revisit(claim, readable, commit) => RevisitKeepsFaithful(s, claim, readable, commit);
      case Die(claim) => ReleaseKeepsFaithful(s, claim);
    }
  }

  lemma {:induction false} RunKeepsOrigin(deliverable: bool, created: Time, steps: seq<Step>)
    ensures var s := After(NewSystem(deliverable, created), steps); s.created == created && s.deliverable == deliverable
  {
    if steps != [] {
      RunKeepsOrigin(deliverable, created, steps[..|steps| - 1]);
      hide Eligible, Outcome;
    }
  }

  // ---------------------------------------------------------------------------------------
  // Main results

  /** Over every run of a deliverable row: it is pending while nothing is recorded; it is SENT exactly when the
      last recorded attempt was delivered, and then shows no error; it is FAILED exactly when that attempt was
      rejected, with the code of the rejection and a retry time exactly when the rejection was transient and
      fewer than five attempts are recorded. */
  lemma {:induction false} RowTellsLastReply(s: System, created: Time, steps: seq<Step>)
    requires Reachable(s, true, created, steps)
    ensures s.row.status == PENDING <==> s.records == []
    ensures s.records != [] ==>
              match s.records[|s.records| - 1].reply
              case Delivered => s.row.status == SENT && s.row.code.None? && s.row.nextRetry.None?
              case Rejected(code, transient) =>
                && s.row.status == FAILED && s.row.code == Some(code)
                && (s.row.nextRetry.Some? <==> transient && |s.records| < 5)
  {
    RunKeepsFaithful(true, created, steps);
    RunKeepsOrigin(true, created, steps);
    NoAttemptCountedTwice(s, created, steps, 0, 0);
    hide After, Timely;
    if s.records != [] {
      assert RecordFaithful(s, |s.records| - 1);
    }
  }

  /** Over every run of a deliverable row: the wait before an automatic retry is a minute after the first
      attempt and doubles with every further one. */
  lemma {:induction false} WaitsDouble(s: System, created: Time, steps: seq<Step>, i: nat)
    requires Reachable(s, true, created, steps) && i < |s.records| && s.records[i].after.nextRetry.Some?
    ensures var wait := s.records[i].after.nextRetry.value - s.records[i].now;
            && (i == 0 ==> wait == 60)
            && (i > 0 && s.records[i - 1].after.nextRetry.Some? ==>
                  wait == 2 * (s.records[i - 1].after.nextRetry.value - s.records[i - 1].now))
            && i < 4 && wait >= 60
  {
    RunKeepsFaithful(true, created, steps);
    RunKeepsOrigin(true, created, steps);
    AttemptsCount(s, created, steps, i);
    hide After, Timely;
    assert RecordFaithful(s, i);
    if i > 0 {
      AttemptsCount(s, created, steps, i - 1);
      assert RecordFaithful(s, i - 1);
    }
  }

  lemma {:induction false} AttemptsCount(s: System, created: Time, steps: seq<Step>, i: nat)
    requires Reachable(s, true, created, steps) && i < |s.records|
    ensures s.records[i].before.attempts == i
  {
    ReachableIsSound(s, true, created, steps);
    RunKeepsOrigin(true, created, steps);
    hide After, TicketOk;
  }

  /** Over every run: a recorded attempt was made in time. A dispatch met the fresh row; an automatic retry of
      a failure came at or after the retry time of the record before it; an attempt on a pending row that was
      not dispatched came five minutes after its creation. Nothing is recorded after a delivery. */
  lemma {:induction false} AttemptsAreTimely(s: System, deliverable: bool, created: Time, steps: seq<Step>, i: nat)
    requires Reachable(s, deliverable, created, steps) && i < |s.records|
    ensures var r := s.records[i];
            && (r.mode == Dispatch ==> i == 0 || s.records[i - 1].after.status == PENDING)
            && (r.mode != Dispatch && r.before.status == PENDING ==> created + 300 <= r.now)
            && (r.mode == Recover && r.before.status == FAILED ==>
                  && i > 0 && s.records[i - 1].after.nextRetry.Some?
                  && s.records[i - 1].after.nextRetry.value <= r.now)
            && (i > 0 ==> s.records[i - 1].after.status != SENT)
  {
    RunKeepsFaithful(deliverable, created, steps);
    RunKeepsOrigin(deliverable, created, steps);
    hide After, Reports;
    assert RecordFaithful(s, i);
  }

  /** A message leaves exactly when its content allows and a worker claims the row in time. */
  lemma {:induction false} SendsAreTimely(s: System, step: Step)
    ensures Next(s, step).sends
         == s.sends + if step.Claim? && s.deliverable && Timely(step.mode, s.row, s.created, step.now) then 1 else 0
  {
    if step.Claim? {
      EligibleIsTimely(s.row, s.created, step.mode, step.now);
    }
    hide Eligible, Timely, Outcome;
  }

  /** Over every run of a row whose content cannot be delivered: nothing is sent, and the row is the fresh one
      or a failure without an attempt that says so and is not retried. */
  lemma {:induction false} UndeliverableIsNeverSent(s: System, created: Time, steps: seq<Step>)
    requires Reachable(s, false, created, steps)
    ensures s.sends == 0
    ensures s.row == FRESH_ROW || s.row == Row(FAILED, 0, Some(INVALID_CONTENT), None)
    ensures s.row.status == PENDING <==> s.records == []
  {
    ReachableIsSound(s, false, created, steps);
    NothingSent(created, steps);
    RunKeepsOrigin(false, created, steps);
    hide After, TicketOk;
  }

  lemma {:induction false} NothingSent(created: Time, steps: seq<Step>)
    ensures After(NewSystem(false, created), steps).sends == 0
  {
    if steps != [] {
      var init := steps[..|steps| - 1];
      NothingSent(created, init);
      RunKeepsOrigin(false, created, init);
      SendsAreTimely(After(NewSystem(false, created), init), steps[|steps| - 1]);
      hide Next;
    }
  }
}
