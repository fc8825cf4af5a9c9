/** Outbound messages kept on disk until the cloud acknowledges them (lib/worker/pending-ack-store.mjs). */
module PendingAckStore {
  import opened Common
  import opened JournalRecords

  datatype MessageType =
    | TerminalEvent(kind: TerminalType)
    | RecoveryReport
    | StateReconcile
    | AssetUpsert
    | MessageAck
    | Advisory

  datatype Envelope = Envelope(message: MessageId, job: JobId, content: MessageType, sentAt: int)

  datatype AckStatus = AckAccepted | AckRejected

  datatype Ack = Ack(message: MessageId, job: JobId, status: AckStatus)

  /** Pending messages by id, and messages set aside for the operator in the order they were refused. */
  datatype Store = Store(pending: map<MessageId, Envelope>, diagnostics: seq<Envelope>)

  predicate AckTracked(t: MessageType) {
    t.TerminalEvent? || t in {RecoveryReport, StateReconcile, AssetUpsert}
  }

  function Put(s: Store, e: Envelope): Store {
    if AckTracked(e.content) then s.(pending := s.pending[e.message := e]) else s
  }

  function OnAck(s: Store, a: Ack): Store {
    if a.message !in s.pending then s
    else
      Store(s.pending - {a.message},
            if a.status == AckAccepted then s.diagnostics else s.diagnostics + [s.pending[a.message]])
  }

  class PendingAcks {
    var pending: map<MessageId, Envelope>
    var diagnostics: seq<Envelope>

    function OnDisk(): Store
      reads this
    {
      Store(pending, diagnostics)
    }

    constructor (found: Store)
      ensures OnDisk() == found
    {
      pending, diagnostics := found.pending, found.diagnostics;
    }

    method PutEnvelope(e: Envelope) returns (r: Result<Envelope, JournalError>)
      modifies this
      ensures OnDisk() == Put(old(OnDisk()), e)
      ensures r == if AckTracked(e.content) then Ok(e) else Err(Unsafe)
    {
      if e.content == MessageAck {
        return Err(Unsafe);
      }
      if !AckTracked(e.content) {
        return Err(Unsafe);
      }
      pending := pending[e.message := e];
      r := Ok(e);
    }

    method Has(message: MessageId) returns (found: bool)
      ensures found <==> message in pending
    {
      found := message in pending;
    }

    method RemoveMessage(message: MessageId) returns (removed: bool)
      modifies this
      ensures pending == old(pending) - {message} && diagnostics == old(diagnostics)
      ensures removed <==> message in old(pending)
    {
      removed := message in pending;
      pending := pending - {message};
    }

    method HandleAck(a: Ack) returns (found: bool, accepted: bool)
      modifies this
      ensures OnDisk() == OnAck(old(OnDisk()), a)
      ensures found <==> a.message in old(pending)
      ensures accepted <==> found && a.status == AckAccepted
    {
      found := Has(a.message);
      if !found {
        return false, false;
      }
      var e := pending[a.message];
      var _ := RemoveMessage(a.message);
      accepted := a.status == AckAccepted;
      if !accepted {
        diagnostics := diagnostics + [e];
      }
    }

    /** Every pending message once, in message order: what a reconnect replays. */
    method List() returns (out: seq<Envelope>)
      requires forall m :: m in pending ==> pending[m].message == m
      ensures forall i, j :: 0 <= i < j < |out| ==> out[i].message < out[j].message
      ensures forall e :: e in out <==> e.message in pending && pending[e.message] == e
    {
      out := [];
      var left := pending.Keys;
      while left != {}
        invariant left <= pending.Keys
        invariant forall i, j :: 0 <= i < j < |out| ==> out[i].message < out[j].message
        invariant forall i, m :: 0 <= i < |out| && m in left ==> out[i].message < m
        invariant forall e :: e in out <==> e.message in pending.Keys - left && pending[e.message] == e
        decreases left
      {
        var m := Smallest(left);
        out := out + [pending[m]];
        left := left - {m};
      }
    }
  }
}
