/** The durable event vocabulary shared by the journal and the runtime. */
module ControlEvents {

  datatype Option<+T> = None | Some(value: T)

  /** Event kinds the idempotency index, recovery and the folds distinguish. */
  datatype Kind =
    | Requested | Accepted | Running
    | Succeeded | Failed | Unknown | Rejected
    | Other(name: string)

  predicate TerminalKind(k: Kind) {
    k.Succeeded? || k.Failed? || k.Unknown? || k.Rejected?
  }

  predicate OpenKind(k: Kind) {
    k.Requested? || k.Accepted? || k.Running?
  }

  predicate IndexedKind(k: Kind) {
    TerminalKind(k) || OpenKind(k)
  }

  /** The journal-safe receipt; `detail` stands for the fields no fold reads. */
  datatype Receipt = Receipt(actionId: string, detail: nat)

  /**
   * One journal event. An absent or empty `commandId` or `idempotencyKey` in
   * the payload is the empty string here, since every reader treats the two
   * alike; `detail` stands for id, epoch, timestamp and the remaining payload.
   */
  datatype Event = Event(sequence: nat, kind: Kind, commandId: string, key: string,
                         receipt: Option<Receipt>, detail: nat)

  /** A command transaction: command id and idempotency key together. */
  datatype Txn = Txn(commandId: string, key: string)

  function TxnOf(e: Event): Txn {
    Txn(e.commandId, e.key)
  }

  /** Events that name a transaction; the others are invisible to the folds. */
  predicate NamesTxn(e: Event) {
    e.commandId != "" && e.key != ""
  }

  /** `evs` carries consecutive sequence numbers starting at `first`. */
  predicate Contiguous(evs: seq<Event>, first: nat) {
    forall i :: 0 <= i < |evs| ==> evs[i].sequence == first + i
  }
}
