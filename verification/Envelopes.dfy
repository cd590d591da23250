/** The events that travel through the inbox, with the three producers told apart. */
module Envelopes {
  import opened Sequences

  /** One observation of a watched file: its state, or in predicate mode the verdict alone. */
  datatype Sample =
    | File(present: bool, digest: string)
    | Condition(matched: bool)

  datatype RequestState =
    | Received
    | Acknowledged
    | InProgress
    | Completed
    | Failed
    | Cancelled
    | Expired
  {
    predicate Terminal() {
      Completed? || Failed? || Cancelled? || Expired?
    }

    /** The states whose entry is announced to the conversation. */
    predicate Notifies() {
      InProgress? || Terminal()
    }
  }

  /** Event identifiers. The three spellings never collide: watch events carry a fresh UUID,
      request notifications the text `request-<uuid>-<revision>`, which other producers avoid. */
  datatype EventId =
    | External(name: string)
    | Change(uuid: nat)
    | RequestUpdate(request: nat, revision: nat)

  datatype Payload =
    | Opaque(text: string)
    | FileChanged(previous: Sample, current: Sample)
    | RequestStatus(request: nat, conversation: string, revision: nat, state: RequestState, summary: Option<string>)

  datatype Envelope = Envelope(
    id: EventId, source: string, kind: string, payload: Payload, trace: Option<string>, hops: int)

  const MANAGED_SOURCE := "managed/file"
  const MAX_HOPS := 8
}
