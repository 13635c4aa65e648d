# Cinema tickets: configuration and purchase guard

A Dafny model of the two pieces of logic in the JavaScript cinema-tickets
service.

- `ServiceConfig` (`ticket_service_config.dfy`) models `TicketServiceConfig`.
  This object holds the adult, child and infant ticket prices and the maximum
  number of tickets per order.
  - A missing argument takes its default: 20, 10, 0 and 20.
  - Four guards run in a fixed order. Each throws a `TypeError` unless its
    argument is a non-negative integer.
  - The fields are written once and only read afterwards.
  - The class `TicketServiceConfig` has `const` fields of type `nat` and four
    getters. A static checking factory `Create` plays the JavaScript
    constructor: it returns `Failure(TypeError(message))` where the source
    throws. `Create` is proved against the pure function `Validated`.
    `Validated` is defined through `FirstInvalid`, which scans the guards in
    source order.
  - Each argument is an `Arg`: `Missing` (`undefined`), `Int(n)` (a value
    `Number.isInteger` accepts) or `NonInteger` (anything else, `null`
    included).
- `TicketService` (`ticket_service.dfy`) models `purchaseTickets`.
  - It throws `InvalidPurchaseException("Missing account ID.")` when the
    account ID is falsy or negative.
  - Otherwise it returns nothing.
  - The account ID is an `Option<int>`: `None` is `undefined`. JavaScript's
    `!accountId` is also true for `0`, so exactly the positive IDs are
    accepted.
  - The ticket requests have a type parameter, because the code never looks
    at them.
  - This version of `purchaseTickets` implements only the account-ID guard
    and rejects `0`; the model follows the code.
- `Wrappers` (`wrappers.dfy`) holds `Option` and `Result`.

The maximum-tickets guard reports the message
`infantTicketPrice must be a non-negative integer`. This copy of the infant
message is kept verbatim. `BadMaximumReadsAsBadInfantPrice` shows its
consequence: the two errors cannot be told apart.

## Model

| member | source | states |
|---|---|---|
| `ServiceConfig.FirstInvalid` | cinema-tickets-javascript/src/pairtest/lib/TicketServiceConfig.js:23-34 | scanning the guards in order, `None` exactly when every argument is a non-negative integer; otherwise the position of a failing guard with every earlier guard passing |
| `ServiceConfig.PassingGuardsShiftTheReport` | cinema-tickets-javascript/src/pairtest/lib/TicketServiceConfig.js:23-34 | a guard is reached only after every earlier guard passed: guards that pass never change which later guard is reported, only its position |
| `ServiceConfig.Validated` | cinema-tickets-javascript/src/pairtest/lib/TicketServiceConfig.js:17-34 | construction succeeds if and only if all four arguments, after defaults, are non-negative integers |
| `ServiceConfig.ValidatedReportsFirstFailingGuard` | cinema-tickets-javascript/src/pairtest/lib/TicketServiceConfig.js:17-39 | the first argument in the order adult, child, infant, maximum that fails decides the message, and the maximum's message is the infant-price text; when all pass, the stored values are the defaulted arguments |
| `ServiceConfig.OmittedArgumentsTakeDefaults` | cinema-tickets-javascript/src/pairtest/lib/TicketServiceConfig.js:17-22 | with every argument left out, the configuration holds 20, 10, 0 and 20 |
| `ServiceConfig.BadMaximumReadsAsBadInfantPrice` | cinema-tickets-javascript/src/pairtest/lib/TicketServiceConfig.js:29-34 | once the prices pass, a bad maximum fails with the same error as a bad infant price |
| `ServiceConfig.TicketServiceConfig.constructor` | cinema-tickets-javascript/src/pairtest/lib/TicketServiceConfig.js:36-56 | each getter returns the value stored at construction; the fields are constants of type `nat` |
| `ServiceConfig.TicketServiceConfig.Create` | cinema-tickets-javascript/src/pairtest/lib/TicketServiceConfig.js:17-40 | the sequential guards fail exactly when `Validated` fails, with its message; on success the object is new and its four getters return `Validated`'s values |
| `TicketService.PurchaseTickets` | cinema-tickets-javascript/src/pairtest/TicketService.js:14-18 | returns normally if and only if the account ID is present and strictly positive; every rejection is `InvalidPurchaseException("Missing account ID.")` |
| `TicketService.OutcomeIgnoresRequests` | cinema-tickets-javascript/src/pairtest/TicketService.js:14-18 | the outcome depends on the account ID alone: any request list, the empty one included, gives the same result |
| `TicketService.RejectedAndAcceptedAccountIds` | cinema-tickets-javascript/src/pairtest/TicketService.js:15-17 | a missing ID, `-1` (with one empty array as request, as in the tests) and `0` are rejected; `12345` is accepted |

## Left out

- Pricing, seat totals, the adult/infant ratio and the per-order ticket limit: `purchaseTickets` does not implement them in this version.
- `TicketTypeRequest` and `InvalidPurchaseException`: their files are not part of this model. The exception is reduced to its message.
- The payment and seat-reservation services: external I/O that `purchaseTickets` does not call.
- JavaScript values outside the abstraction. A non-empty string that does not compare below 0 (such as `"abc"`) or a positive fraction passes `!x || x < 0` in JavaScript, but this model only allows a missing or integer ID. `NaN`, `null` and `""` are falsy and rejected, as the model rejects `None`. Floating-point arguments such as `2.0` or `-0`, which `Number.isInteger` accepts, count as plain integers.
- Privacy of the `#` fields. Dafny has no private fields. Immutability is kept through `const`.
- Statelessness of `TicketService`: `PurchaseTickets` is a function, so repeated calls give the same result and change nothing. No separate member states this.
- The Jest test file and the Babel configuration: test and build plumbing.
