/**
 * Clients of DebtTracker that follow concrete sequences of handler calls and
 * check, from the handlers' contracts alone, what the collection looks like
 * afterwards.
 */
module Scenarios {
  import opened Types
  import opened Transitions
  import opened App

  /** Principal 100, payments 60 then 40: unpaid after the first, paid after the second. */
  method PartialThenFull()
  {
    var t := new DebtTracker(None, _ => []);
    t.AddDebt(DebtFormData(100, "Alice"), "d1", "2024-01-01T00:00:00.000Z");
    t.AddPayment("d1", PaymentData(60, ""), "p1");
    assert t.debts[0].paymentHistory == [Payment("p1", 60, "")];
    assert !t.debts[0].isPaid;
    t.AddPayment("d1", PaymentData(40, ""), "p2");
    assert t.debts[0].paymentHistory == [Payment("p1", 60, ""), Payment("p2", 40, "")];
    assert t.debts[0].paymentHistory[1..] == [Payment("p2", 40, "")];
    assert t.debts[0].paymentHistory[1..][1..] == [];
    assert Sum(t.debts[0].paymentHistory) == 100;
    assert t.debts[0].isPaid && |t.debts[0].paymentHistory| == 2;
  }

  /** Principal 50, one payment of 70: paid, since 70 >= 50. */
  method Overpayment()
  {
    var t := new DebtTracker(None, _ => []);
    t.AddDebt(DebtFormData(50, "Bob"), "d1", "2024-01-01T00:00:00.000Z");
    t.AddPayment("d1", PaymentData(70, ""), "p1");
    assert t.debts[0].paymentHistory == [Payment("p1", 70, "")];
    assert t.debts[0].isPaid;
  }

  /** A manual toggle is overwritten by the next payment's recomputation. */
  method ToggleThenPay()
  {
    var t := new DebtTracker(None, _ => []);
    t.AddDebt(DebtFormData(100, "Carol"), "d1", "2024-01-01T00:00:00.000Z");
    t.ToggleDebt("d1");
    assert t.debts[0].isPaid;
    t.AddPayment("d1", PaymentData(10, ""), "p1");
    assert t.debts[0].paymentHistory == [Payment("p1", 10, "")];
    assert !t.debts[0].isPaid;
  }

  /** Debts created D1, D2, D3 are listed D3, D2, D1; notes and payments keep that order. */
  method CreationOrder()
  {
    var t := new DebtTracker(None, _ => []);
    t.AddDebt(DebtFormData(1, "D1"), "d1", "t1");
    t.AddDebt(DebtFormData(2, "D2"), "d2", "t2");
    t.AddDebt(DebtFormData(3, "D3"), "d3", "t3");
    assert Ids(t.debts) == ["d3", "d2", "d1"];
    t.AddCollectionNote("d2", "");
    t.AddPayment("d1", PaymentData(1, ""), "p1");
    assert Ids(t.debts) == ["d3", "d2", "d1"];
    assert t.debts[1].collectionNotes == [""];
  }

  /** A note for an id nobody has leaves the collection as it was. */
  method NoteOnUnknownId()
  {
    var t := new DebtTracker(None, _ => []);
    t.AddDebt(DebtFormData(5, "Dan"), "d1", "t1");
    var before := t.debts;
    t.AddCollectionNote("nobody", "call again");
    assert t.debts == before;
  }
}
