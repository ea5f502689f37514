# Debt tracker ledger, modelled in Dafny

The debt tracker is a single-user ledger of money owed to the user. It keeps
an ordered collection of debts. Each debt has an id, a creation date, a
principal `amount`, an `isPaid` flag, a list of collection notes and a
payment history. Four handlers change the collection:

- adding a debt puts a new, unpaid debt with no notes or payments in front;
- toggling flips `isPaid` on the debt with the given id;
- recording a payment appends it to the debt's history and recomputes
  `isPaid` as "total paid ≥ principal";
- adding a note appends it to the debt's notes.

On start-up the collection is read from storage, and it is empty when nothing
is stored.

The project has four modules:

- `Types` (`types.dfy`) declares the records.
- `Transitions` (`transitions.dfy`) holds the pure update bodies of the four
  handlers as functions over `seq<Debt>`, with the payment total and the
  lemmas about them.
- `App` (`app.dfy`) holds the start-up rule `Load` and the class
  `DebtTracker`. Its `debts` field is replaced whole by each handler method,
  as the component's state setter does.
- `Scenarios` (`scenarios.dfy`) holds client methods. They follow concrete
  call sequences and check the results from the handlers' contracts alone.

Amounts are integers, in minor units such as cents. Fresh debt ids, payment
ids and timestamps are parameters of the handlers. The serialisation parser
is a parameter of `Load`.

The type module of the application is not part of this model. `Debt`,
`Payment`, `PaymentData` and `DebtFormData` carry the fields the ledger reads
or writes. An opaque `details` string stands for the rest (debtor name,
payment method, ...), which is passed through unchanged.

The model follows the application as written:

- An unknown id is a silent no-op for toggling, payments and notes. It is not
  a not-found error.
- A payment sets `isPaid` to exactly "total ≥ principal". So a payment can
  turn a manually set `true` back to `false`. The flag is not "toggled OR
  covered".
- No amount is validated.

## Model

| member | source | states |
|---|---|---|
| `Transitions.TotalPaid` | src/App.tsx:44-45 | the handler's reduction of the payment amounts from 0 equals the reference sum `Sum` |
| `Transitions.FoldAmountsIsSum` | src/App.tsx:44-45 | folding the amounts left to right from any start value gives that value plus `Sum` |
| `Transitions.SumAppend` | src/App.tsx:44-45 | the total of a concatenated history is the sum of the two totals |
| `Transitions.NewDebt` | src/App.tsx:20-27 | a new debt has the supplied id and date, the form's amount and details, is unpaid, and has no notes and no payments |
| `Transitions.PrependDebt` | src/App.tsx:19-28 | adding a debt grows the collection by one; index 0 is the new unpaid, empty debt with the supplied id and date; the previous collection is the unchanged tail |
| `Transitions.AddDebtKeepsIdsUnique` | src/App.tsx:21-28 | with a fresh id, adding a debt keeps all debt ids distinct |
| `Transitions.ToggleById` | src/App.tsx:31-35 | length and order are kept; every debt with the id has its flag flipped and all its other fields unchanged; every other debt is unchanged |
| `Transitions.ToggleTwiceRestores` | src/App.tsx:31-35 | toggling the same id twice gives back the original collection |
| `Transitions.NewPayment` | src/App.tsx:40-43 | the payment carries the fresh id and the form's amount and details |
| `Transitions.RecordPayment` | src/App.tsx:39-51 | exactly one payment is appended to the end of the history; the earlier payments, notes and identity fields are unchanged; `isPaid` is whether the old total plus the new amount reaches the principal |
| `Transitions.PayById` | src/App.tsx:37-55 | length and order are kept; every debt with the id gets the new payment appended and `isPaid` equal to "sum of the whole new history ≥ amount"; every other debt is unchanged |
| `Transitions.PayByIdRecordsPayment` | src/App.tsx:38-54 | on every debt with the id, the payment update is exactly the single-debt `RecordPayment` with the new payment, which is what `RecordAll` iterates |
| `Transitions.PaymentOverridesFlag` | src/App.tsx:47-51 | the debt after a payment does not depend on the previous `isPaid`, including a manual toggle |
| `Transitions.PaidStaysPaid` | src/App.tsx:44-50 | a debt whose payments already cover the principal stays paid after a further non-negative payment |
| `Transitions.RecordAllState` | src/App.tsx:37-55 | after any run of payments the history is the old history followed by the payments in order; identity and notes are unchanged; after a non-empty run the debt is paid exactly when the cumulative total reaches the principal |
| `Transitions.NoteById` | src/App.tsx:57-63 | length and order are kept; every debt with the id gets the note appended verbatim at the end of its notes, with its other fields unchanged; every other debt is unchanged |
| `Transitions.UnknownIdIsNoOp` | src/App.tsx:31-62 | toggle, payment and note on an id that no debt has return a collection equal to the input |
| `Transitions.UpdatesKeepIds` | src/App.tsx:31-62 | toggle, payment and note keep the sequence of debt ids, and therefore keep them distinct |
| `App.Load` | src/App.tsx:10-13 | nothing stored, or the empty text, gives the empty collection; otherwise the collection is the parse of the stored text |
| `App.LoadAfterSave` | src/App.tsx:11-16 | a non-empty saved text is always handed to the parser, so a collection whose serialisation the parser inverts is loaded back unchanged |
| `App.DebtTracker.constructor` | src/App.tsx:10-13 | the initial state is the loaded collection, and it is empty when nothing is stored |
| `App.DebtTracker.AddDebt` | src/App.tsx:19-29 | the state becomes `PrependDebt` of the old state; the old collection is the tail; distinct ids stay distinct when the new id is fresh |
| `App.DebtTracker.ToggleDebt` | src/App.tsx:31-35 | the state becomes `ToggleById` of the old state; ids and their order are kept; an unknown id changes nothing |
| `App.DebtTracker.AddPayment` | src/App.tsx:37-55 | the state becomes `PayById` of the old state; ids and their order are kept; an unknown id changes nothing |
| `App.DebtTracker.AddCollectionNote` | src/App.tsx:57-63 | the state becomes `NoteById` of the old state; ids and their order are kept; an unknown id changes nothing |

## Left out

- Rendering, the form and list components and the icon (src/App.tsx:1-4, 65-87): these are presentation only.
- Writing to browser storage and JSON serialisation (src/App.tsx:11-16): `Load` takes the parser as a total function parameter. A parse that throws on corrupt text is not modelled. The save effect is represented only by `App.LoadAfterSave`'s assumption that parsing inverts serialising.
- The scheduling of state updates and effects by the UI framework (src/App.tsx:10, 15-17): each handler method applies its update at once.
- Random UUIDs and the clock (src/App.tsx:21-22, 41): they are parameters. `App.DebtTracker.AddPayment` takes one payment id. So if several debts shared the target id, they would all get the same payment id, where the application would draw one per debt. Debt-id uniqueness is proved preserved given a fresh id. Uniqueness of payment ids across the collection is not stated.
- Floating-point addition in the payment total (src/App.tsx:45): amounts are exact integers.
- The object spreads `...data` and `...paymentData` placed last (src/App.tsx:26, 42): the form data is modelled with only `amount` and `details`, so it cannot override the debt's id, date, flag, notes or history, nor the fresh payment id.
- Transitions.PaidStaysPaid: assumes the new payment is non-negative. The application does not validate amounts, and a negative payment can make a paid debt unpaid again.
