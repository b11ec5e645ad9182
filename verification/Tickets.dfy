/** Values shared by the recording modules: a delivery ticket and an optional value. */
module Tickets {
  datatype Option<+T> = None | Some(value: T)

  datatype TicketState = Recording | Ready | Delivered | Failed | Lost

  // The delivery state of one recording. `gen` is its generation on disk.
  datatype Ticket = Ticket(
    id: string,
    gen: nat,
    state: TicketState,
    path: string,
    dest: string,
    baseKey: string,
    key: string,
    deleteAfterUpload: bool,
    syncedBytes: nat,
    attempts: nat)
}
