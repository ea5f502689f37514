/**
 * The tracker component: the debt collection it holds as state, the rule
 * that initialises it from storage, and the four handlers the forms call.
 * Each handler replaces the whole collection with the result of one of the
 * pure updates of module Transitions, as the state setter does.
 */
module App {
  import opened Types
  import opened Transitions

  datatype Option<T> = None | Some(value: T)

  /**
   * The state initialiser: the stored text, when there is any, is parsed;
   * nothing stored, or the empty text (which is falsy), gives the empty
   * collection. Parsing is the serialisation library's business and is a
   * parameter here.
   */
  function Load(saved: Option<string>, parse: string -> seq<Debt>): (r: seq<Debt>)
    ensures saved.None? ==> r == []
    ensures saved == Some("") ==> r == []
    ensures saved.Some? && saved.value != "" ==> r == parse(saved.value)
  {
    if saved.Some? && saved.value != "" then parse(saved.value) else []
  }

  /**
   * What was written back is read again: a serialiser that never yields the
   * empty text and that the parser inverts makes loading restore the
   * collection that was saved.
   */
  lemma LoadAfterSave(debts: seq<Debt>, stringify: seq<Debt> -> string, parse: string -> seq<Debt>)
    requires stringify(debts) != "" && parse(stringify(debts)) == debts
    ensures Load(Some(stringify(debts)), parse) == debts
  {
  }

  class DebtTracker {
    /** The collection, most recently added debt first. */
    var debts: seq<Debt>

    constructor (saved: Option<string>, parse: string -> seq<Debt>)
      ensures debts == Load(saved, parse)
      ensures saved.None? ==> debts == []
    {
      debts := Load(saved, parse);
    }

    /** Creates a debt from the form data with id `id` and timestamp `date`, in front of the others. */
    method AddDebt(data: DebtFormData, id: string, date: string)
      modifies this
      ensures debts == PrependDebt(old(debts), data, id, date)
      ensures |debts| == |old(debts)| + 1 && debts[1..] == old(debts)
      ensures UniqueIds(old(debts)) && id !in Ids(old(debts)) ==> UniqueIds(debts)
    {
      if UniqueIds(debts) && id !in Ids(debts) {
        AddDebtKeepsIdsUnique(debts, data, id, date);
      }
      debts := PrependDebt(debts, data, id, date);
    }

    /** Flips the paid flag of the debt with id `id`. */
    method ToggleDebt(id: string)
      modifies this
      ensures debts == ToggleById(old(debts), id)
      ensures Ids(debts) == Ids(old(debts))
      ensures id !in Ids(old(debts)) ==> debts == old(debts)
    {
      UpdatesKeepIds(debts, id, PaymentData(0, ""), "", "");
      if id !in Ids(debts) {
        UnknownIdIsNoOp(debts, id, PaymentData(0, ""), "", "");
      }
      debts := ToggleById(debts, id);
    }

    /** Records a payment with id `paymentId` on the debt with id `debtId`. */
    method AddPayment(debtId: string, paymentData: PaymentData, paymentId: string)
      modifies this
      ensures debts == PayById(old(debts), debtId, paymentData, paymentId)
      ensures Ids(debts) == Ids(old(debts))
      ensures debtId !in Ids(old(debts)) ==> debts == old(debts)
    {
      UpdatesKeepIds(debts, debtId, paymentData, paymentId, "");
      if debtId !in Ids(debts) {
        UnknownIdIsNoOp(debts, debtId, paymentData, paymentId, "");
      }
      debts := PayById(debts, debtId, paymentData, paymentId);
    }

    /** Appends `note` to the collection notes of the debt with id `debtId`. */
    method AddCollectionNote(debtId: string, note: string)
      modifies this
      ensures debts == NoteById(old(debts), debtId, note)
      ensures Ids(debts) == Ids(old(debts))
      ensures debtId !in Ids(old(debts)) ==> debts == old(debts)
    {
      UpdatesKeepIds(debts, debtId, PaymentData(0, ""), "", note);
      if debtId !in Ids(debts) {
        UnknownIdIsNoOp(debts, debtId, PaymentData(0, ""), "", note);
      }
      debts := NoteById(debts, debtId, note);
    }
  }
}
