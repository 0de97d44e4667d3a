module Resumers {
  /** What a resumer carries: a coroutine and the resume id of the run period it was made in. */
  datatype Ticket = Ticket(co: nat, period: nat)
}
