/** The add-expense form and its save action: validate the input, build a
    record, append it to the stored collection (read, push, write back) and
    clear part of the form. */
module AddExpense {
  import opened Expenses

  /** The three notices the save action can end with. */
  datatype SaveOutcome =
    | Saved           // 'Success' / 'Expense saved!'
    | ValidationError // 'Validation Error', nothing read or written
    | SaveFailed      // 'Error' / 'Failed to save expense.'

  /** The validation guard: a title, an amount, and an amount that does not
      coerce to NaN. The sign of the amount is not looked at. */
  predicate Acceptable(title: string, amount: string, isNaN: string -> bool)
  {
    title != "" && amount != "" && !isNaN(amount)
  }

  /** The state of the add screen. */
  class AddExpenseForm {
    var title: string
    var amount: string           // the text typed into the amount field
    var category: Category
    var date: int
    var imageUri: Option<string>

    /** The initial state: empty text fields, category Food, the current
        time as the date, no image. */
    constructor (now: int)
      ensures title == "" && amount == "" && category == Food
      ensures date == now && imageUri == None
    {
      title, amount, category := "", "", Food;
      date, imageUri := now, None;
    }

    /** saveExpense. `id` is the clock reading that becomes the record's id,
        `isNaN` and `parseFloat` are the coercions applied to the amount text,
        and `writeSucceeds` is whether the storage accepts the write. */
    method SaveExpense(storage: Storage, id: string, isNaN: string -> bool,
                       parseFloat: string -> real, writeSucceeds: bool)
      returns (outcome: SaveOutcome)
      modifies this`title, this`amount, this`imageUri, storage`blob
      // rejected input: nothing is read, written or reset
      ensures !Acceptable(old(title), old(amount), isNaN) ==>
        outcome == ValidationError && storage.blob == old(storage.blob) &&
        title == old(title) && amount == old(amount) && imageUri == old(imageUri)
      // a read or write that throws: the stored list and the form stay as they were
      ensures Acceptable(old(title), old(amount), isNaN) &&
              (old(storage.blob).Corrupt? || !writeSucceeds) ==>
        outcome == SaveFailed && storage.blob == old(storage.blob) &&
        title == old(title) && amount == old(amount) && imageUri == old(imageUri)
      // success: exactly one new record at the end, then the text fields and image are cleared
      ensures Acceptable(old(title), old(amount), isNaN) &&
              !old(storage.blob).Corrupt? && writeSucceeds ==>
        outcome == Saved &&
        storage.blob == Stored(Load(old(storage.blob)).value +
          [Expense(id, old(title), parseFloat(old(amount)), category.Name(), date, old(imageUri))]) &&
        title == "" && amount == "" && imageUri == None
    {
      if !Acceptable(title, amount, isNaN) {
        return ValidationError;
      }
      var expense := Expense(id, title, parseFloat(amount), category.Name(), date, imageUri);
      var stored := Load(storage.blob);
      if stored.None? {
        return SaveFailed;
      }
      var expenses := stored.value;
      expenses := expenses + [expense];
      if !writeSucceeds {
        return SaveFailed;
      }
      storage.blob := Stored(expenses);
      title, amount, imageUri := "", "", None;
      outcome := Saved;
    }
  }
}
