/** The durable checkpoint and the handler call in front of it: EfCheckpointManager.cs and
    DomainEventsProcessor.cs, one caller at a time. */
module CheckpointManager {
  import opened Common
  import opened DomainEventsLoop
  import Runs = DomainEventRuns

  class EfCheckpointManager {
    /** The service's row in the table of sequences, if there is one. */
    var number: Option<int>
    var startCheckpoint: int

    constructor (startCheckpoint: int, number: Option<int>)
      ensures this.startCheckpoint == startCheckpoint && this.number == number
    {
      this.startCheckpoint, this.number := startCheckpoint, number;
    }

    /** The number the row holds, or would be created with. */
    ghost function Number(): int
      reads this
    {
      if number.Some? then number.value else startCheckpoint
    }

    /** Creates the row when there is none: at the configured start, or for a negative start at the
        last stored event. Without any event the maximum throws and nothing is created. */
    method GetCheckpoint(lastEvent: Option<int>) returns (checkpoint: Option<int>)
      modifies this
      ensures checkpoint.None? <==> old(number).None? && old(startCheckpoint) < 0 && lastEvent.None?
      ensures checkpoint.Some? ==> number == checkpoint
      ensures checkpoint.None? ==> number == old(number)
      ensures old(number).Some? ==> number == old(number)
      ensures old(number).None? && old(startCheckpoint) < 0 && lastEvent.Some? ==> number == lastEvent
      ensures old(number).None? && old(startCheckpoint) >= 0 ==> number == Some(old(startCheckpoint))
    {
      if number.None? {
        if startCheckpoint < 0 {
          if lastEvent.None? { return None; }
          startCheckpoint := lastEvent.value;
        }
        number := Some(startCheckpoint);
      }
      return number;
    }

    /** The stored number never goes down. */
    method SaveCheckpoint(checkpoint: int)
      modifies this`number
      ensures number.Some?
      ensures Number() >= old(Number()) && Number() >= checkpoint
      ensures Number() == old(Number()) || Number() == checkpoint
    {
      if number.None? { number := Some(startCheckpoint); }
      if number.value < checkpoint { number := Some(checkpoint); }
    }
  }

  /** What the handler did: reported success or refusal, or threw. */
  datatype Outcome = Handled | NotHandled | Threw

  class DomainEventsProcessor {
    const manager: EfCheckpointManager
    /** The records given to the handler, and those given to the fault handler. */
    ghost var offered: seq<Entry>
    ghost var faults: seq<Entry>

    constructor (manager: EfCheckpointManager)
      ensures this.manager == manager && offered == [] && faults == []
    {
      this.manager, offered, faults := manager, [], [];
    }

    /** The checkpoint moves up to a stored record for which the handler reported success. A refused,
        throwing or empty record leaves it alone. These are the machine's steps OnNext and Save. */
    method OnNext(record: Entry, sequence: int, outcome: Outcome, ghost q: Runs.Processor)
      requires q.checkpoint == manager.Number() && q.next == sequence && !q.saving
      modifies this, manager
      ensures var after := Runs.OnNext(q, record, outcome.Handled?);
        manager.Number() == (if after.saving then Runs.Save(after, false) else after).checkpoint
      ensures record.Stored? && outcome.Handled? ==>
        manager.Number() == if old(manager.Number()) < sequence then sequence else old(manager.Number())
      ensures record.Empty? || !outcome.Handled? ==> manager.number == old(manager.number)
      ensures offered == old(offered) + if record.Stored? then [record] else []
      ensures faults == old(faults) + if record.Stored? && outcome.Threw? then [record] else []
    {
      if record.Empty? { return; }
      var isHandled := false;
      offered := offered + [record];
      match outcome {
        case Threw => faults := faults + [record];
        case Handled => isHandled := true;
        case NotHandled =>
      }
      if isHandled { manager.SaveCheckpoint(sequence); }
    }
  }
}
