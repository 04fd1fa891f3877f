# Theatre billing: a Dafny model

This project models the billing core of a small theatre-statement program. The
program takes an invoice and a play catalog. Each invoice line is a performance:
a play identifier and an audience size. For each performance it computes a
charge in cents and a number of loyalty credits, and then it totals both over
the invoice. The same arithmetic exists in two versions:

- `createStatementData.mjs` is the refactored version. A factory picks a
  `TragedyCalculator` or a `ComedyCalculator` for the play's type. The builder
  maps every performance to a new enriched record, then totals the records.
  This is module `StatementBuilder` (statement_builder.dfy), written as pure
  functions.
- `Refectoring-first.js` is the version before refactoring. It has the helpers
  nested in `renderPlainText`: `amountFor` switches on the type, and
  `volumeCreditsFor`, `totalAmount` and `totalVolumeCredits` accumulate into
  local variables. This is module `FirstDraft` (first_draft.dfy), written as
  methods with loops.

Module `Theatre` (theatre.dfy) holds what both versions share: the catalog, the
invoice, the two errors, `playFor` and the sum. Both files define the same
`playFor` (createStatementData.mjs:76-78 and Refectoring-first.js:40-42), and
`Theatre.PlayFor` models both.

A thrown error is a `Result`:
- `UnknownPlay(playID)` is the `TypeError` raised when the code reads `.type`
  of a play that is missing from the catalog.
- `UnknownGenre(kind)` is the error raised for a type that has no price rule.
  It carries that type.

The play's `type` field is called `kind`, because `type` is a Dafny keyword. It
stays a raw string, so the catalog can hold types that have no price.

The headline result is that the two versions agree:
- `amountFor` and `volumeCreditsFor` return the calculators' values for every
  audience.
- `totalAmount` returns the refactored `totalAmount` on every invoice, and it
  fails on the same invoices with the same error.
- `totalVolumeCredits` returns the refactored `totalVolumeCredits` on every
  invoice the refactored builder accepts.

Where they differ, the model says so. On a play whose type has no price rule,
the first version's `volumeCreditsFor` still returns the base credits instead
of failing.

Take an invoice with a `hamlet` (tragedy) for 25 seats and an `as-like`
(comedy) for 35. The comedy's charge is 30000 + 10000 + 500·15 + 300·35 = 58000,
so the invoice's total is 98000. `StatementBuilder.BigCoStatement` proves these
values.

## Model

| member | source | states |
|---|---|---|
| `Theatre.PlayFor` | createStatementData.mjs:76-78 | The lookup succeeds exactly when the identifier is in the catalog, and returns that entry. Otherwise it fails with `UnknownPlay` naming the identifier. |
| `Theatre.ParseGenre` | createStatementData.mjs:27-33 | The raw type names a genre exactly when it is "tragedy" or "comedy", and names the matching one; any other type fails with `UnknownGenre` carrying it. The factory, and so the builder, reads the set of priced genres from here. |
| `StatementBuilder.BaseVolumeCredits` | createStatementData.mjs:16-18 | Base credits are 0 for at most 30 seats, and audience − 30 above that, i.e. max(audience − 30, 0). |
| `StatementBuilder.Calculator.Amount` | createStatementData.mjs:38-58 | Tragedy: exactly 40000 up to 30 seats, 40000 + 1000·(audience − 30) above. Comedy: 30000 + 300·audience up to 20 seats, 30000 + 10000 + 500·(audience − 20) + 300·audience above. |
| `StatementBuilder.Calculator.VolumeCredits` | createStatementData.mjs:60-63 | A tragedy earns the base credits unchanged. A comedy earns the base credits plus floor(audience / 5). Neither earns less than the base. |
| `StatementBuilder.CreatePerformanceCalculator` | createStatementData.mjs:26-35 | Succeeds exactly for type "tragedy" or "comedy". The calculator is bound to the given performance and play and is the tragedy variant exactly for "tragedy". Any other type fails with `UnknownGenre` carrying that type. |
| `StatementBuilder.EnrichPerformance` | createStatementData.mjs:104-114 | Fails with `UnknownPlay` for a missing play and with `UnknownGenre` for a play without a price rule, and succeeds otherwise. A new record keeps `playID` and `audience`, holds the catalog's play, and holds the calculator's amount and credits. |
| `StatementBuilder.EnrichAll` | createStatementData.mjs:98 | The map succeeds exactly when every performance can be enriched. The result then has the same length and order as the input, and element i is the enrichment of performance i. |
| `StatementBuilder.EnrichAllStopsAtFirstFailure` | createStatementData.mjs:98-108 | When performance k is the first one that cannot be enriched, the map fails with k's error. |
| `StatementBuilder.ReduceIsSum` | createStatementData.mjs:85 | The accumulating `reduce` from a start value gives the start value plus the sum of the elements. |
| `StatementBuilder.TotalAmount` | createStatementData.mjs:84-86 | The reduce over the records equals the sum of their `amount`s. |
| `StatementBuilder.TotalVolumeCredits` | createStatementData.mjs:92-94 | The reduce over the records equals the sum of their `volumeCredits`. |
| `StatementBuilder.CreateStatementData` | createStatementData.mjs:71-101 | The build succeeds exactly when every performance's play is in the catalog with a priced type. It then copies the customer and enriches each performance in order, with the same length. `totalAmount` and `totalVolumeCredits` are the sums over the enriched records. An invoice with no performances gives an empty statement with both totals 0. |
| `StatementBuilder.CreateStatementDataFailsAtFirstBadPerformance` | createStatementData.mjs:96-114 | No partial statement: the build fails with the error of the first performance whose play is missing or unpriced. |
| `StatementBuilder.BigCoStatement` | createStatementData.mjs:71-101 | The worked invoice gives records of 40000/0 and 58000/12, with totals 98000 and 12. |
| `FirstDraft.AmountFor` | Refectoring-first.js:50-73 | `amountFor` equals `TragedyCalculator.amount` for "tragedy" and `ComedyCalculator.amount` for "comedy", for every audience. It fails with `UnknownPlay` for a missing play, and with `UnknownGenre` naming the type for any other type. |
| `FirstDraft.VolumeCreditsFor` | Refectoring-first.js:80-89 | `volumeCreditsFor` equals the tragedy and comedy calculators' credits for those types. It gives the base credits max(audience − 30, 0) for any other type, never failing for it, and fails only on a missing play. |
| `FirstDraft.TotalAmount` | Refectoring-first.js:108-114 | The loop's sum equals the refactored statement's `totalAmount` whenever the build succeeds. It fails with the build's own error whenever the build fails. |
| `FirstDraft.CreditsAgreeWithStatement` | Refectoring-first.js:80-102 | On an invoice the refactored builder accepts, every play is listed. The sum of the first version's per-performance credits then equals the statement's `totalVolumeCredits`. |
| `FirstDraft.TotalVolumeCredits` | Refectoring-first.js:95-102 | The loop succeeds exactly when every play is listed, and then returns the sum of the credits `volumeCreditsFor` awards. Otherwise it fails naming the first missing play. On invoices the refactored builder accepts, it equals the statement's `totalVolumeCredits`. |

## Left out

- Currency formatting (`usd`): it calls `Intl.NumberFormat` on a floating-point `aNumber / 100`, so it is a locale and floating-point library call. Amounts stay integers in cents.
- Rendering: `renderPlainText` (its text-building part) and `renderHtml` only turn the core's output into strings through `usd`. `statement` and `htmlStatement` only glue the builder to a renderer.
- Data loading: `fetchPlays`, `fetchInvoices` and `fetchData` use network fetches, `Promise.all`, console logging and page writes. The catalog and the invoice are parameters instead.
- The abstract `amount` getter of `PerformanceCalculator` throws. The factory never builds a base calculator, so it cannot be reached and is not modelled.
- Class, getter and `super` mechanics, and the shallow copy made by `Object.assign`: an enriched record is a new immutable value. In the source, the record's `play` field (createStatementData.mjs:110) is the catalog's own object, shared rather than copied; a value has no identity, so that sharing is not modelled. Because of that, "the input is not modified" and "building twice gives equal results" hold by construction and have no lemma.
- Audience sizes are `nat`. Negative, fractional and non-numeric audiences, which JavaScript would accept, are not modelled. On a `nat`, `Math.floor(audience / 5)` is Dafny's `/`.
- The catalog lookup is a `map` lookup. A JavaScript object would also find inherited property names such as `constructor`; that is not modelled.
- JavaScript's floating-point numbers are not modelled: sums are unbounded integers, so a total beyond 2^53 is not rounded as it would be in JavaScript.
