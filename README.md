# Billing store and its server actions, in Dafny

This project models the in-memory billing store of a small accounts-receivable
application and the server actions that edit it. The store is three
module-level arrays: `clients`, `contracts` and `invoices`. They start from a
fixture of five clients, three contracts and two invoices. Two action files
change these arrays in place:

- `src/actions.ts` handles clients and contracts. It re-checks overdue
  contracts on every read, adds, updates and deletes clients and their
  documents, and adds, re-statuses and deletes contracts. Deleting a client
  also deletes that client's contracts.
- `src/app/actions.ts` handles invoices. It lists invoices and clients, has
  its own `addClient`, adds invoices, and prepares the input of the revenue
  report.

The actions that take an id (`updateClient`, `deleteClient`,
`deleteClientDocument`, `addContract`, `updateContractStatus`,
`deleteContract` and `addInvoice`) find their record with `findIndex` or
`find`. If the id is unknown, they throw before changing anything. Otherwise
each makes one bounded edit: `unshift`, `splice`, a field write, or the
per-contract removal loop of the client cascade. The other actions look
nothing up: `getContracts` rewrites every stale contract to overdue, both
`addClient` functions `push` a new client, and `getClients`, `getInvoices`
and `runRevenueReport` only read.

Modules: three for the language built-ins the actions rely on, then one per
source unit:

- `Wrappers`: `Option`, and `Result`/`Outcome` for what an action returns or
  throws.
- `Sequences`: `findIndex` (`IndexWhere`) and a one-element `splice`
  (`RemoveFirstWhere`).
- `Text`: `split`/`join`, ASCII `toUpperCase`, the decimal `toString` of a
  count, `padStart`, and the `CON001`/`INV001` record codes.
- `BillingTypes`: the records of `src/lib/types.ts`.
- `BillingData`: the `Store` class with its three `seq` fields, and the
  fixture of `src/lib/data.ts`.
- `ContractActions`: the actions of `src/actions.ts`.
- `InvoiceActions`: the actions of `src/app/actions.ts`.
- `Scenarios`: sequences of actions on the fixture, with their outcomes
  proved.

Each state-changing action is a module-level method of `ContractActions` or
`InvoiceActions` that takes the `Store` and declares `modifies` on it. Its
postcondition gives
the new arrays as a function of the old ones, and the other arrays are stated
unchanged. Lemmas and function contracts then prove what the source promises
about those functions.

Modelling choices:

- Dates are day numbers, and `today` is a parameter.
- A contract's status covers every value the code writes or shows: active,
  finished, cancelled, pending, paid, overdue and written-off. The declared
  `Contract` type lists only the first three. It also lacks the
  `paymentDate` that `addContract` and `updateContractStatus` write, so the
  model adds an optional payment date.
- Amounts and rates are only copied, never computed with.

Where the application's own promises and the code disagree, the model
follows the code:

- `deleteClient` removes only the client and its contracts. The confirmation
  dialog in src/app/(main)/clients/page.tsx:222-223 says that deleting a
  client also deletes all its invoices, but invoices are never touched, even
  invoices that bill a removed contract.
- `deleteContract` removes no invoices.
- Ids are `length + 1`, so they are not unique once anything has been
  deleted. `Scenarios` proves two such collisions on the fixture. In the
  contract case, the cascade then removes another client's contract.
  `CascadeWithUniqueIds` proves that the cascade removes exactly the client's
  contracts when contract ids are unique.
- Installment expansion and interest calculation do not appear in these
  actions, so they are not modelled.

## Model

| member | source | states |
|---|---|---|
| `ContractActions.GetInitials` | src/actions.ts:11-13 | the initials are at most two characters and never contain a space |
| `ContractActions.InitialsOfTwoWords` | src/actions.ts:11-13 | a name of two or more words gives the upper-cased first letters of its first two words |
| `ContractActions.InitialsOfOneWord` | src/actions.ts:11-13 | a one-word name gives a single capital |
| `ContractActions.InitialsDoubleSpace` | src/actions.ts:11-13 | two spaces after the first word make an empty second word, so only one initial survives |
| `ContractActions.FirstLetters` | src/actions.ts:12 | with no empty word, there is one letter per word, in order, each the word's first character; an empty word contributes nothing; no space appears when no word has one |
| `Text.Split` | src/actions.ts:12 | splitting always yields at least one piece and no piece contains the separator |
| `Text.Join` | src/actions.ts:12 | joining no pieces gives the empty string; otherwise the result starts with the first piece, followed by the separator when more pieces follow |
| `Text.Upper` | src/actions.ts:12 | a lower-case ASCII letter becomes its capital and every other character is kept |
| `Text.JoinSplit` | src/actions.ts:12 | splitting a name on spaces loses nothing: joining the pieces restores it |
| `Text.UpperString` | src/actions.ts:12 | upper-casing keeps the length and maps each character by ASCII upper case |
| `ContractActions.PlaceholderAvatar` | src/actions.ts:77 | the generated avatar is the placeholder URL followed by at most two initials |
| `ContractActions.RecheckOverdue` | src/actions.ts:45-50 | a contract becomes overdue exactly when it is pending and past due; no other field changes, and the result is never stale |
| `ContractActions.RecheckAll` | src/actions.ts:45-50 | every contract is re-checked at its own position and the length is kept |
| `ContractActions.RecheckAllMarksExactlyStale` | src/actions.ts:43-51 | after the re-check no contract is stale, exactly the stale ones changed, and only in their status |
| `ContractActions.RecheckAllIdempotent` | src/actions.ts:43-51 | re-checking twice is the same as re-checking once |
| `ContractActions.RecheckAllKeepsPayments` | src/actions.ts:45-50 | the re-check keeps "payment date exactly on paid contracts" |
| `ContractActions.GetContracts` | src/actions.ts:39-52 | the loop rewrites the contracts in place to their re-checked form, returns them, and keeps the payment-date invariant; clients and invoices are untouched |
| `Sequences.IndexWhere` | src/actions.ts:94 | the search gives the first position whose element passes the test, or none when no element passes |
| `Sequences.RemoveFirstWhere` | src/actions.ts:233 | removing the first element that passes the test is the splice at the search's position, and changes nothing when no element passes |
| `ContractActions.FindClient` | src/actions.ts:94 | the lookup gives the first client with that id, or none when no client has it |
| `ContractActions.FindContract` | src/actions.ts:205 | the lookup gives the first contract with that id, or none when no contract has it |
| `ContractActions.FindDocument` | src/actions.ts:161 | the lookup gives the first document with that URL, or none |
| `ContractActions.UploadDocuments` | src/actions.ts:64-67 | each file becomes one document, in order, named after the file and stored under the client's folder |
| `ContractActions.DocumentUrlParts` | src/actions.ts:66 | a document URL splits back into the client id and the file name it was built from |
| `ContractActions.NextClientId` | src/actions.ts:61 | the new id is all digits and reads back as the number of clients plus one |
| `Text.DecimalString` | src/actions.ts:61 | the rendering of a count is a non-empty string of digits with no leading zero |
| `Text.DecimalRoundTrip` | src/actions.ts:61 | reading back a rendered count gives the count |
| `Text.DecimalInjective` | src/actions.ts:61 | two counts render alike exactly when they are equal |
| `ContractActions.NewClient` | src/actions.ts:61-79 | the new client has the next id, the form's fields, one uploaded document per file (none when the form has no files), and the initials avatar |
| `ContractActions.AddClient` | src/actions.ts:59-82 | the clients array gains exactly the new client at its end; contracts and invoices are untouched |
| `ContractActions.UpdatedAvatar` | src/actions.ts:107-116 | removing the photo resets the avatar to the initials, otherwise a given photo replaces it, otherwise it is kept |
| `ContractActions.UpdatedClient` | src/actions.ts:119-128 | the id is kept, the form's fields are written, new uploads are appended to the old documents, and the avatar is the one `UpdatedAvatar` picks, so it changes only when the photo is removed or given |
| `ContractActions.UpdateKeepsDocuments` | src/actions.ts:126 | updating never loses a document: the old list is a prefix of the new one |
| `ContractActions.UpdateClient` | src/actions.ts:92-132 | an unknown id throws and changes nothing; otherwise only the first client with that id is replaced, and the array keeps its length |
| `ContractActions.DeleteClientDocument` | src/actions.ts:154-169 | a missing client, a missing document list or a missing URL throws and changes nothing; otherwise only the first matching document of that client is removed |
| `Text.PadStart` | src/actions.ts:179 | padding reaches the width, keeps the string at the end and fills the front with the pad character |
| `Text.SequenceCode` | src/actions.ts:179 | a code is the prefix followed by at least three more characters |
| `ContractActions.ContractCode` | src/actions.ts:179 | a contract code is `CON` followed by at least three characters |
| `Text.SequenceCodeNumber` | src/actions.ts:179 | the digits after the prefix read back as the count |
| `Text.SequenceCodeInjective` | src/actions.ts:179 | codes with one prefix are equal exactly when their counts are |
| `Text.SequenceCodeLength` | src/actions.ts:179 | counts below 1000 give exactly three digits; larger counts give longer codes |
| `ContractActions.NewContract` | src/actions.ts:179-197 | the new contract is numbered after the old length, issued today, overdue exactly when already past due and pending otherwise, unpaid, and stamped with the client's name and email; the re-check leaves it as it is |
| `ContractActions.AddContract` | src/actions.ts:172-200 | an unknown client throws and changes nothing; otherwise the new contract is put in front of the old ones, which follow in order |
| `ContractActions.WithStatus` | src/actions.ts:209-221 | paid carries today's date and every other status none; a pending request on a past-due contract becomes overdue, and any other request is kept; nothing else changes |
| `ContractActions.UpdateContractStatus` | src/actions.ts:203-224 | an unknown id throws and changes nothing; otherwise only the first contract with that id changes, and the payment-date invariant is kept |
| `ContractActions.RemoveContract` | src/actions.ts:229-233 | only the first contract with the id is removed and the others keep their order; nothing is removed when no contract has the id |
| `ContractActions.RemoveContractKeepsOthers` | src/actions.ts:229-233 | the removal takes out exactly one contract, the first one with the id |
| `ContractActions.DeleteContract` | src/actions.ts:227-235 | an unknown id throws and changes nothing; otherwise the first contract with that id goes; clients and invoices are untouched |
| `ContractActions.OwnedBy` | src/actions.ts:143 | the filter keeps exactly the contracts of the client |
| `ContractActions.NotOwnedBy` | src/actions.ts:143 | the complement keeps exactly the contracts of the other clients |
| `ContractActions.OwnedPartition` | src/actions.ts:143 | every contract is either the client's or another client's: the two filters together hold each contract as often as the whole list does |
| `ContractActions.RemoveEach` | src/actions.ts:144-149 | each pass of the removal loop drops at most one contract, so the list shrinks by at most the number of doomed contracts |
| `ContractActions.CascadeContracts` | src/actions.ts:143-149 | the cascade removes exactly as many contracts as the client owns, and keeps every contract whose id none of the client's contracts shares |
| `ContractActions.CascadeWithUniqueIds` | src/actions.ts:141-149 | with unique contract ids, the contracts left are exactly those of the other clients, in their original order |
| `ContractActions.RemoveEachCount` | src/actions.ts:144-149 | when every id to remove is still present, each pass of the loop removes exactly one contract |
| `ContractActions.CascadeRemovesOwnedCount` | src/actions.ts:143-149 | whatever the ids, the cascade leaves as many contracts as the other clients own, and only contracts that were there |
| `ContractActions.DeleteClient` | src/actions.ts:135-151 | an unknown id throws and changes nothing; otherwise the first client with that id goes and the cascade runs; with unique contract ids only the client's contracts go; invoices are never touched |
| `InvoiceActions.GetInvoices` | src/app/actions.ts:15-19 | returns the stored invoices and changes nothing |
| `InvoiceActions.GetClients` | src/app/actions.ts:21-24 | returns the stored clients and changes nothing |
| `InvoiceActions.SeededAvatar` | src/app/actions.ts:32 | the avatar URL is the seed address around the client's id |
| `InvoiceActions.RecordedClient` | src/app/actions.ts:28-33 | the new client keeps every field it was given, with the next id and the seeded avatar |
| `InvoiceActions.AddClient` | src/app/actions.ts:26-36 | the clients array gains exactly the new client at its end; the other clients are unchanged |
| `InvoiceActions.InvoiceCode` | src/app/actions.ts:45 | an invoice code is `INV` followed by at least three characters |
| `InvoiceActions.NewInvoice` | src/app/actions.ts:45-54 | the new invoice is numbered after the old length, issued today, always pending and unpaid, copies the client's name and email and the given fields; it starts stale exactly when already past due |
| `InvoiceActions.AddInvoice` | src/app/actions.ts:38-57 | an unknown client throws and leaves the invoices unchanged; otherwise the new invoice is put in front of the old ones |
| `InvoiceActions.ReportEntries` | src/app/actions.ts:67-77 | one entry per invoice, in order, copying id, client and amount; the payment date is absent exactly when the invoice's is |
| `InvoiceActions.RunRevenueReport` | src/app/actions.ts:60-77 | with no invoices the fixed no-data report is returned and the generator is not asked; otherwise it is sent one entry per invoice |
| `BillingData.FixtureConsistent` | src/lib/data.ts:13-78 | the starting contracts have unique ids, and payment dates sit exactly on paid contracts and invoices |
| `Scenarios.DeleteApexKeepsItsInvoice` | src/actions.ts:141-149 | deleting client 3 removes CON003 and keeps the other contracts in order, but INV002, which bills CON003, remains |
| `Scenarios.ClientIdCollision` | src/app/actions.ts:28 | after client 2 is deleted, the next client added gets id "5", which client 5 already has |
| `Scenarios.ContractIdCollision` | src/actions.ts:144-148 | after CON001 is deleted, a new contract for client 1 is numbered CON003; deleting client 3 then removes client 1's contract and keeps client 3's |

## Left out

- `getAddressFromCEP` (src/actions.ts:16-36) is not modelled. It is a network lookup against an external postal-code service.
- The artificial `delay` before each action is not modelled. It has no effect on the data.
- `fileToDataUri` is not modelled. It base64-encodes the uploaded photo through the host's buffer API. `ContractActions.UpdateClient` instead receives the resulting data URI as `photo`.
- Date handling is not modelled: parsing `yyyy-MM-dd` strings with `new Date`, `setHours(0,0,0,0)`, `format`, `toISOString` and the UTC-versus-local offset of parsed dates. Every date is a day number, and "today" is a parameter used for the comparison, the issue date and the payment date.
- `ContractActions.GetInitials` upper-cases ASCII letters only and treats the name as a sequence of characters rather than UTF-16 code units. Unicode case mapping is host behaviour. Its "at most two characters" rests on this restriction: in the source, `toUpperCase` can lengthen a letter (`'ß'` becomes `"SS"`), so the initials can have up to four characters.
- `InvoiceActions.ReportEntries` copies dates instead of converting them to ISO strings. A stored payment date that is an empty string, which the source's truthiness test maps to null, cannot occur in the model.
- `InvoiceActions.RunRevenueReport` does not model the call to the revenue-report generator (an external language-model service), its `try`/`catch`, or the `!invoices` test, which an array always passes.
- The actions return the stored arrays and records themselves. Later in-place edits are visible through earlier results. The model returns values and does not capture this aliasing.
- The object spreads copy only the declared input fields. Extra fields that a caller passes along in the source would be copied too.
- Amounts and interest rates are JavaScript numbers in the source. They are `real` here because no action computes with them.
- `getClients` in src/actions.ts:54-57 has the same body as the one in src/app/actions.ts. It is modelled once, as `InvoiceActions.GetClients`.
- Installment-to-invoice expansion and overdue interest are not modelled. No action here performs them.
- src/ai/flows/revenue-projection-report.ts is not part of this model. It is a prompt definition for an external service.
- src/lib/brazil-data.ts and the UI components are not part of this model.
