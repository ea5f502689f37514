/**
 * The records the debt tracker stores. The application's own type module is
 * not part of this model; these datatypes keep the fields the ledger logic
 * reads or writes, plus one opaque `details` field standing for everything
 * else the forms supply (debtor name, payment method, ...), which the ledger
 * only passes through.
 */
module Types {

  /** Money is counted in whole minor units (cents). */
  type Amount = int

  /** One recorded payment against a debt. */
  datatype Payment = Payment(id: string, amount: Amount, details: string)

  /** What the payment form supplies: a payment without its id. */
  datatype PaymentData = PaymentData(amount: Amount, details: string)

  /** What the debt form supplies: a debt without its bookkeeping fields. */
  datatype DebtFormData = DebtFormData(amount: Amount, details: string)

  /** One obligation owed to the user. */
  datatype Debt = Debt(
    id: string,
    date: string,
    amount: Amount,
    isPaid: bool,
    collectionNotes: seq<string>,
    paymentHistory: seq<Payment>,
    details: string)

  /** The ids of a collection, in collection order. */
  function Ids(debts: seq<Debt>): (r: seq<string>)
    ensures |r| == |debts|
    ensures forall i :: 0 <= i < |debts| ==> r[i] == debts[i].id
  {
    seq(|debts|, i requires 0 <= i < |debts| => debts[i].id)
  }

  /** No two debts of the collection share an id. */
  predicate UniqueIds(debts: seq<Debt>)
  {
    forall i, j :: 0 <= i < j < |debts| ==> debts[i].id != debts[j].id
  }

  /** Everything about a debt that no handler ever changes. */
  predicate SameIdentity(a: Debt, b: Debt)
  {
    a.id == b.id && a.date == b.date && a.amount == b.amount && a.details == b.details
  }
}
