/**
 * The pure update bodies of the tracker's four handlers: each takes the
 * previous collection and returns the next one, exactly as the updater
 * functions handed to the state setter do. Fresh ids and timestamps, which
 * the application draws from the browser, are parameters here.
 */
module Transitions {
  import opened Types

  // ---------------------------------------------------------------------
  // Payment totals
  // ---------------------------------------------------------------------

  /** Reference definition: the sum of the payment amounts. */
  function Sum(ps: seq<Payment>): (total: int)
  {
    if ps == [] then 0 else ps[0].amount + Sum(ps[1..])
  }

  /** The accumulating reduction `(sum, p) => sum + p.amount`, left to right from `acc`. */
  function FoldAmounts(acc: int, ps: seq<Payment>): (total: int)
    decreases ps
  {
    if ps == [] then acc else FoldAmounts(acc + ps[0].amount, ps[1..])
  }

  lemma {:induction false} FoldAmountsIsSum(acc: int, ps: seq<Payment>)
    ensures FoldAmounts(acc, ps) == acc + Sum(ps)
    decreases ps
  {
    if ps != [] {
      FoldAmountsIsSum(acc + ps[0].amount, ps[1..]);
    }
  }

  /** The total a debt's payment history amounts to, computed as the handler does (reduce from 0). */
  function TotalPaid(ps: seq<Payment>): (t: int)
    ensures t == Sum(ps)
  {
    FoldAmountsIsSum(0, ps);
    FoldAmounts(0, ps)
  }

  lemma {:induction false} SumAppend(a: seq<Payment>, b: seq<Payment>)
    ensures Sum(a + b) == Sum(a) + Sum(b)
  {
    if a == [] {
      assert a + b == b;
    } else {
      assert (a + b)[1..] == a[1..] + b;
      SumAppend(a[1..], b);
    }
  }

  // ---------------------------------------------------------------------
  // Adding a debt
  // ---------------------------------------------------------------------

  /** The record built from the form data, a fresh id and the current time. */
  function NewDebt(data: DebtFormData, id: string, date: string): (d: Debt)
    ensures d.id == id && d.date == date
    ensures !d.isPaid && d.collectionNotes == [] && d.paymentHistory == []
    ensures d.amount == data.amount && d.details == data.details
  {
    Debt(id, date, data.amount, false, [], [], data.details)
  }

  /** The new debt goes in front of the previous collection. */
  function PrependDebt(debts: seq<Debt>, data: DebtFormData, id: string, date: string): (r: seq<Debt>)
    ensures |r| == |debts| + 1
    ensures r[0].id == id && r[0].date == date && r[0].amount == data.amount && r[0].details == data.details
    ensures !r[0].isPaid && r[0].collectionNotes == [] && r[0].paymentHistory == []
    ensures r[1..] == debts
  {
    [NewDebt(data, id, date)] + debts
  }

  lemma AddDebtKeepsIdsUnique(debts: seq<Debt>, data: DebtFormData, id: string, date: string)
    requires UniqueIds(debts) && id !in Ids(debts)
    ensures UniqueIds(PrependDebt(debts, data, id, date))
  {
  }

  // ---------------------------------------------------------------------
  // Toggling the paid flag
  // ---------------------------------------------------------------------

  function ToggleOne(d: Debt, id: string): (e: Debt)
  {
    if d.id == id then d.(isPaid := !d.isPaid) else d
  }

  /** Flips `isPaid` on every debt whose id is `id`; everything else is left alone. */
  function ToggleById(debts: seq<Debt>, id: string): (r: seq<Debt>)
    ensures |r| == |debts|
    ensures forall i :: 0 <= i < |r| && debts[i].id != id ==> r[i] == debts[i]
    ensures forall i :: 0 <= i < |r| && debts[i].id == id ==>
              SameIdentity(r[i], debts[i]) && r[i].isPaid == !debts[i].isPaid
              && r[i].collectionNotes == debts[i].collectionNotes
              && r[i].paymentHistory == debts[i].paymentHistory
  {
    seq(|debts|, i requires 0 <= i < |debts| => ToggleOne(debts[i], id))
  }

  lemma ToggleTwiceRestores(debts: seq<Debt>, id: string)
    ensures ToggleById(ToggleById(debts, id), id) == debts
  {
  }

  // ---------------------------------------------------------------------
  // Recording a payment
  // ---------------------------------------------------------------------

  /** The payment record built from the form data and a fresh id. */
  function NewPayment(data: PaymentData, paymentId: string): (p: Payment)
    ensures p.id == paymentId && p.amount == data.amount && p.details == data.details
  {
    Payment(paymentId, data.amount, data.details)
  }

  /**
   * Appends `p` to the debt's history and recomputes the paid flag from the
   * new total, discarding whatever the flag was before.
   */
  function RecordPayment(d: Debt, p: Payment): (e: Debt)
    ensures SameIdentity(e, d) && e.collectionNotes == d.collectionNotes
    ensures e.paymentHistory == d.paymentHistory + [p]
    ensures e.isPaid <==> Sum(d.paymentHistory) + p.amount >= d.amount
  {
    var history := d.paymentHistory + [p];
    SumAppend(d.paymentHistory, [p]);
    assert [p][1..] == [];
    d.(paymentHistory := history, isPaid := TotalPaid(history) >= d.amount)
  }

  function PayOne(d: Debt, debtId: string, p: Payment): (e: Debt)
  {
    if d.id == debtId then RecordPayment(d, p) else d
  }

  /** Records a payment on every debt whose id is `debtId`. */
  function PayById(debts: seq<Debt>, debtId: string, data: PaymentData, paymentId: string): (r: seq<Debt>)
    ensures |r| == |debts|
    ensures forall i :: 0 <= i < |r| && debts[i].id != debtId ==> r[i] == debts[i]
    ensures forall i :: 0 <= i < |r| && debts[i].id == debtId ==>
              SameIdentity(r[i], debts[i])
              && r[i].collectionNotes == debts[i].collectionNotes
              && r[i].paymentHistory == debts[i].paymentHistory + [NewPayment(data, paymentId)]
              && (r[i].isPaid <==> Sum(r[i].paymentHistory) >= debts[i].amount)
  {
    var p := NewPayment(data, paymentId);
    var r := seq(|debts|, i requires 0 <= i < |debts| => PayOne(debts[i], debtId, p));
    assert forall i :: 0 <= i < |r| && debts[i].id == debtId ==>
      Sum(r[i].paymentHistory) == Sum(debts[i].paymentHistory) + p.amount by {
      forall i | 0 <= i < |r| && debts[i].id == debtId
        ensures Sum(r[i].paymentHistory) == Sum(debts[i].paymentHistory) + p.amount
      {
        SumAppend(debts[i].paymentHistory, [p]);
        assert [p][1..] == [];
      }
    }
    r
  }

  /** On a matching debt the collection update is the single-debt update `RecordPayment`. */
  lemma PayByIdRecordsPayment(debts: seq<Debt>, debtId: string, data: PaymentData, paymentId: string, i: int)
    requires 0 <= i < |debts| && debts[i].id == debtId
    ensures PayById(debts, debtId, data, paymentId)[i] == RecordPayment(debts[i], NewPayment(data, paymentId))
  {
  }

  /** The paid flag after a payment does not depend on the flag before it. */
  lemma PaymentOverridesFlag(d: Debt, flag: bool, p: Payment)
    ensures RecordPayment(d.(isPaid := flag), p) == RecordPayment(d, p)
  {
  }

  /** With non-negative payments, a debt whose total already covers it stays paid. */
  lemma PaidStaysPaid(d: Debt, p: Payment)
    requires Sum(d.paymentHistory) >= d.amount && p.amount >= 0
    ensures RecordPayment(d, p).isPaid
  {
  }

  /** Records the payments one after another, as successive calls of the handler do. */
  function RecordAll(d: Debt, ps: seq<Payment>): (e: Debt)
    decreases |ps|
  {
    if ps == [] then d else RecordAll(RecordPayment(d, ps[0]), ps[1..])
  }

  /**
   * After any non-empty run of payments the history is the old history
   * followed by the payments in order, and the debt is paid exactly when the
   * cumulative total reaches the principal.
   */
  lemma {:induction false} RecordAllState(d: Debt, ps: seq<Payment>)
    ensures SameIdentity(RecordAll(d, ps), d)
    ensures RecordAll(d, ps).collectionNotes == d.collectionNotes
    ensures RecordAll(d, ps).paymentHistory == d.paymentHistory + ps
    ensures ps != [] ==> (RecordAll(d, ps).isPaid <==> Sum(d.paymentHistory + ps) >= d.amount)
    decreases |ps|
  {
    if ps == [] {
      assert d.paymentHistory + ps == d.paymentHistory;
    } else {
      var e := RecordPayment(d, ps[0]);
      RecordAllState(e, ps[1..]);
      assert e.paymentHistory + ps[1..] == d.paymentHistory + ps;
      if ps[1..] == [] {
        SumAppend(d.paymentHistory, [ps[0]]);
        assert [ps[0]][1..] == [];
        assert d.paymentHistory + ps == d.paymentHistory + [ps[0]];
      }
    }
  }

  // ---------------------------------------------------------------------
  // Adding a collection note
  // ---------------------------------------------------------------------

  function NoteOne(d: Debt, debtId: string, note: string): (e: Debt)
  {
    if d.id == debtId then d.(collectionNotes := d.collectionNotes + [note]) else d
  }

  /** Appends `note` verbatim to the notes of every debt whose id is `debtId`. */
  function NoteById(debts: seq<Debt>, debtId: string, note: string): (r: seq<Debt>)
    ensures |r| == |debts|
    ensures forall i :: 0 <= i < |r| && debts[i].id != debtId ==> r[i] == debts[i]
    ensures forall i :: 0 <= i < |r| && debts[i].id == debtId ==>
              SameIdentity(r[i], debts[i]) && r[i].isPaid == debts[i].isPaid
              && r[i].paymentHistory == debts[i].paymentHistory
              && r[i].collectionNotes == debts[i].collectionNotes + [note]
  {
    seq(|debts|, i requires 0 <= i < |debts| => NoteOne(debts[i], debtId, note))
  }

  // ---------------------------------------------------------------------
  // Properties shared by the three id-addressed handlers
  // ---------------------------------------------------------------------

  /** An id no debt carries leaves the collection as it was. */
  lemma UnknownIdIsNoOp(debts: seq<Debt>, id: string, data: PaymentData, paymentId: string, note: string)
    requires id !in Ids(debts)
    ensures ToggleById(debts, id) == debts
    ensures PayById(debts, id, data, paymentId) == debts
    ensures NoteById(debts, id, note) == debts
  {
  }

  /** The id-addressed handlers keep the ids, their order and so their uniqueness. */
  lemma UpdatesKeepIds(debts: seq<Debt>, id: string, data: PaymentData, paymentId: string, note: string)
    ensures Ids(ToggleById(debts, id)) == Ids(debts)
    ensures Ids(PayById(debts, id, data, paymentId)) == Ids(debts)
    ensures Ids(NoteById(debts, id, note)) == Ids(debts)
    ensures UniqueIds(debts) ==> UniqueIds(ToggleById(debts, id))
    ensures UniqueIds(debts) ==> UniqueIds(PayById(debts, id, data, paymentId))
    ensures UniqueIds(debts) ==> UniqueIds(NoteById(debts, id, note))
  {
  }
}
