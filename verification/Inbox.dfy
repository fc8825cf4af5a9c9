/** The cloud's durable receive path: dedupe, then skew, then one transaction (processor/inbox-service.mjs). */
module Inbox {
  import opened Common
  import opened JournalRecords
  import opened PendingAckStore

  const SKEW_MS: int := 120000

  datatype TerminalResult = TerminalResult(kind: TerminalType, message: MessageId)

  /** `applications` counts inserts into the terminal results table; no code reads it. */
  datatype Cloud = Cloud(
    seen: map<MessageId, AckStatus>,
    results: map<JobId, TerminalResult>,
    applications: multiset<JobId>)

  predicate InSkew(e: Envelope, at: int) {
    -SKEW_MS <= at - e.sentAt <= SKEW_MS
  }

  /** The job has no terminal yet, or has this very one. */
  predicate NoConflict(c: Cloud, e: Envelope)
    requires e.content.TerminalEvent?
  {
    e.job in c.results ==> c.results[e.job].message == e.message
  }

  /**
   * Receiving a terminal event at cloud time `at`. `allowed` stands for the checks on rows that are not part of
   * this model (producing worker, attempt state).
   */
  function Received(c: Cloud, e: Envelope, at: int, allowed: bool): (Cloud, Option<Ack>)
    requires e.content.TerminalEvent?
  {
    if e.message in c.seen then (c, Some(Ack(e.message, e.job, c.seen[e.message])))
    else if !InSkew(e, at) then (c, None)
    else if !allowed || !NoConflict(c, e) then
      (c.(seen := c.seen[e.message := AckRejected]), Some(Ack(e.message, e.job, AckRejected)))
    else if e.job in c.results then
      (c.(seen := c.seen[e.message := AckAccepted]), Some(Ack(e.message, e.job, AckAccepted)))
    else
      (Cloud(c.seen[e.message := AckAccepted],
             c.results[e.job := TerminalResult(e.content.kind, e.message)],
             c.applications + multiset{e.job}),
       Some(Ack(e.message, e.job, AckAccepted)))
  }

  class InboxService {
    var seen: map<MessageId, AckStatus>
    var results: map<JobId, TerminalResult>
    ghost var applications: multiset<JobId>

    ghost function Tables(): Cloud
      reads this
    {
      Cloud(seen, results, applications)
    }

    constructor ()
      ensures Tables() == Cloud(map[], map[], multiset{})
    {
      seen, results, applications := map[], map[], multiset{};
    }

    method ApplyTerminal(e: Envelope, allowed: bool) returns (ok: bool)
      requires e.content.TerminalEvent?
      modifies `results, `applications
      ensures ok <==> allowed && NoConflict(old(Tables()), e)
      ensures !ok || e.job in old(results) ==> results == old(results) && applications == old(applications)
      ensures ok && e.job !in old(results) ==>
        && results == old(results)[e.job := TerminalResult(e.content.kind, e.message)]
        && applications == old(applications) + multiset{e.job}
    {
      if !allowed {
        return false;
      }
      if e.job in results {
        return results[e.job].message == e.message;
      }
      results := results[e.job := TerminalResult(e.content.kind, e.message)];
      applications := applications + multiset{e.job};
      ok := true;
    }

    method ProcessInboundEnvelope(e: Envelope, at: int, allowed: bool) returns (ack: Option<Ack>)
      requires e.content.TerminalEvent?
      modifies this
      ensures (Tables(), ack) == Received(old(Tables()), e, at, allowed)
    {
      if e.message in seen {
        return Some(Ack(e.message, e.job, seen[e.message]));
      }
      var drift := at - e.sentAt;
      if drift > SKEW_MS || drift < -SKEW_MS {
        return None;
      }
      var ok := ApplyTerminal(e, allowed);
      var status := if ok then AckAccepted else AckRejected;
      seen := seen[e.message := status];
      ack := Some(Ack(e.message, e.job, status));
    }
  }
}
