/** The delivery service object: the row fields it updates, and the commit loop that recovers outcomes. */
module DeliveryService {
  import opened Common
  import opened Delivery

  /** The durable row as one recovery try finds it: perhaps replaced by others meanwhile. */
  datatype Visit = Visit(others: Option<Row>, readable: bool, commit: Commit)

  /** What the caller of a delivery learns. */
  datatype Report = Saved(row: Row) | NotSaved | Gone

  function Found(row: Row, v: Visit): Row { if v.others.Some? then v.others.value else row }

  /** The durable row after one recovery try. */
  function RowAfterTry(row: Row, baseline: Row, outcome: Row, v: Visit): (r: Row) {
    var found := Found(row, v);
    if v.readable && (found.status == PENDING || found == baseline) && (v.commit == Clean || v.commit == Landed)
    then outcome else found
  }

  /** Whether the try answers the caller. */
  function ReportAfterTry(row: Row, baseline: Row, outcome: Row, v: Visit): (r: Option<Report>) {
    var found := Found(row, v);
    if !v.readable then None
    else if found.status != PENDING && found != baseline then Some(Saved(found))
    else match v.commit
      case Clean => Some(Saved(outcome))
      case Crash => Some(Gone)
      case Lost => None
      case Landed => None
  }

  /** The durable row and the report after a series of tries. */
  function Settle(row: Row, baseline: Row, outcome: Row, visits: seq<Visit>): (r: (Row, Report))
    decreases |visits|
  {
    if visits == [] then (row, NotSaved)
    else
      var next := RowAfterTry(row, baseline, outcome, visits[0]);
      var report := ReportAfterTry(row, baseline, outcome, visits[0]);
      if report.Some? then (next, report.value) else Settle(next, baseline, outcome, visits[1..])
  }

  /** A try is one step of the worker protocol. */
  lemma {:induction false} TryIsRevisit(s: System, claim: nat, v: Visit)
    requires claim in s.tickets && v.others.None?
    ensures var t := s.tickets[claim];
            && Revisited(s, claim, v.readable, v.commit).row == RowAfterTry(s.row, t.baseline, t.outcome, v)
            && (ReportAfterTry(s.row, t.baseline, t.outcome, v).Some? ==>
                  claim !in Revisited(s, claim, v.readable, v.commit).tickets)
  {
  }

  class Outbox {
    var status: DeliveryStatus
    var attempts: nat
    var code: Option<string>
    var nextRetry: Option<Time>
    const deliverable: bool
    const created: Time

    ghost function View(): (r: Row)
      reads this
    {
      Row(status, attempts, code, nextRetry)
    }

    constructor (deliverable: bool, created: Time)
      ensures View() == FRESH_ROW && this.deliverable == deliverable && this.created == created
    {
      status, attempts, code, nextRetry := PENDING, 0, None, None;
      this.deliverable, this.created := deliverable, created;
    }

    method Store(row: Row)
      modifies this
      ensures View() == row
    {
      status, attempts, code, nextRetry := row.status, row.attempts, row.code, row.nextRetry;
    }

    /** Sends the message and fills in the outcome of the attempt, still uncommitted. */
    method DeliverExisting(reply: Reply, now: Time)
      modifies this
      ensures View() == Outcome(old(View()), reply, now)
    {
      attempts := attempts + 1;
      nextRetry := None;
      match reply {
        case Rejected(reason, transient) =>
          status, code := FAILED, Some(reason);
          if transient && attempts < MAX_AUTO_ATTEMPTS {
            nextRetry := Some(now + RETRY_BASE_SECONDS * Pow2(attempts - 1));
          }
        case Delivered =>
          status, code := SENT, None;
      }
    }

    /** Commits the filled-in outcome; after an ambiguous failure re-reads the durable row at most
        twice and writes the cached outcome only over the row that was claimed. */
    method CommitDelivery(baseline: Row, commit: Commit, visits: seq<Visit>) returns (report: Report)
      requires |visits| == COMMIT_RECOVERY_ATTEMPTS
      modifies this
      ensures var outcome := old(View());
              match commit
              case Clean => View() == outcome && report == Saved(outcome)
              case Crash => View() == baseline && report == Gone
              case Lost => (View(), report) == Settle(baseline, baseline, outcome, visits)
              case Landed => (View(), report) == Settle(outcome, baseline, outcome, visits)
    {
      var outcome := Row(status, attempts, code, nextRetry);
      if commit == Clean {
        return Saved(outcome);
      }
      if commit != Landed {
        Store(baseline);
      }
      if commit == Crash {
        return Gone;
      }
      ghost var start := View();
      for i := 0 to COMMIT_RECOVERY_ATTEMPTS
        invariant Settle(View(), baseline, outcome, visits[i..]) == Settle(start, baseline, outcome, visits)
      {
        assert visits[i..][0] == visits[i] && visits[i..][1..] == visits[i + 1..];
        var v := visits[i];
        if v.others.Some? {
          Store(v.others.value);
        }
        if v.readable {
          var found := Row(status, attempts, code, nextRetry);
          if found.status != PENDING && found != baseline {
            return Saved(found);
          }
          match v.commit {
            case Clean => Store(outcome); return Saved(outcome);
            case Landed => Store(outcome);
            case Lost =>
            case Crash => return Gone;
          }
        }
      }
      return NotSaved;
    }

    /** A dispatch, an automatic recovery or a manual retry; None when the row is not eligible. */
    method Deliver(
      mode: Mode, now: Time, reply: Reply, commit: Commit, visits: seq<Visit>) returns (report: Option<Report>)
      requires |visits| == COMMIT_RECOVERY_ATTEMPTS
      modifies this
      ensures !Eligible(old(View()), created, mode, now) ==> report == None && View() == old(View())
      ensures Eligible(old(View()), created, mode, now) && (deliverable || mode != Manual) ==>
                report.Some? &&
                var was := old(View());
                var outcome := if deliverable then Outcome(was, reply, now) else Undeliverable(was);
                match commit
                case Clean => View() == outcome && report.value == Saved(outcome)
                case Crash => View() == was && report.value == Gone
                case Lost => (View(), report.value) == Settle(was, was, outcome, visits)
                case Landed => (View(), report.value) == Settle(outcome, was, outcome, visits)
      ensures Eligible(old(View()), created, mode, now) && !deliverable && mode == Manual ==>
                && View() == (if commit == Clean || commit == Landed then Undeliverable(old(View())) else old(View()))
                && report == Some(if commit == Clean then Saved(Undeliverable(old(View())))
                                  else if commit == Crash then Gone else NotSaved)
    {
      var baseline := Row(status, attempts, code, nextRetry);
      if !Eligible(baseline, created, mode, now) {
        return None;
      }
      if !deliverable {
        status, code, nextRetry := FAILED, Some(INVALID_CONTENT), None;
        if mode == Manual {
          if commit == Clean {
            return Some(Saved(Row(status, attempts, code, nextRetry)));
          }
          if commit != Landed {
            Store(baseline);
          }
          return Some(if commit == Crash then Gone else NotSaved);
        }
      } else {
        DeliverExisting(reply, now);
      }
      var r := CommitDelivery(baseline, commit, visits);
      return Some(r);
    }
  }
}
