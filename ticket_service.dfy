/**
 * The ticket service's public entry point. In this version it only guards
 * the account ID: it never looks at the ticket requests and has no state.
 */
module TicketService {
  import opened Wrappers

  /** The exception `purchaseTickets` throws, with its message. */
  datatype InvalidPurchaseException = InvalidPurchaseException(message: string)

  const MissingAccountIdMessage := "Missing account ID."

  /**
   * JavaScript's `!accountId` for an account ID that is either left out
   * (`undefined`) or an integer: true exactly for `undefined` and `0`.
   */
  predicate IsFalsy(accountId: Option<int>)
  {
    accountId.None? || accountId.value == 0
  }

  /**
   * `purchaseTickets(accountId, ...ticketTypeRequests)`: throws when the
   * account ID is falsy or negative and otherwise returns nothing. The
   * requests are of any type `R` because they are never inspected.
   */
  function PurchaseTickets<R>(accountId: Option<int>, ticketTypeRequests: seq<R>): (r: Result<(), InvalidPurchaseException>)
    ensures r.Success? <==> accountId.Some? && accountId.value > 0
    ensures r.Failure? ==> r.error == InvalidPurchaseException(MissingAccountIdMessage)
  {
    if IsFalsy(accountId) || accountId.value < 0 then
      Failure(InvalidPurchaseException(MissingAccountIdMessage))
    else
      Success(())
  }

  /** Only the account ID decides the outcome: any two request lists, empty or not, give the same result. */
  lemma OutcomeIgnoresRequests<R>(accountId: Option<int>, requests: seq<R>, others: seq<R>)
    ensures PurchaseTickets(accountId, requests) == PurchaseTickets(accountId, others)
    ensures PurchaseTickets(accountId, requests) == PurchaseTickets<R>(accountId, [])
  {
  }

  /**
   * The account IDs the tests and the guard single out: a missing ID, a
   * negative ID (the test passes one empty array as its only request) and
   * zero, which `!accountId` rejects too; a positive ID passes.
   */
  lemma RejectedAndAcceptedAccountIds()
    ensures PurchaseTickets<seq<int>>(None, []) == Failure(InvalidPurchaseException("Missing account ID."))
    ensures PurchaseTickets<seq<int>>(Some(-1), [[]]) == Failure(InvalidPurchaseException("Missing account ID."))
    ensures PurchaseTickets<seq<int>>(Some(0), []) == Failure(InvalidPurchaseException("Missing account ID."))
    ensures PurchaseTickets<seq<int>>(Some(12345), []) == Success(())
  {
  }
}
