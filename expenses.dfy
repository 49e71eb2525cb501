/** The expense record, the four categories the pickers offer, the single
    storage entry ('expenses') that holds the whole collection, and the
    running total over a list of records. */
module Expenses {

  datatype Option<+T> = None | Some(value: T)

  /** The values of the category picker on the add screen. */
  datatype Category = Food | Travel | Shopping | Other {
    /** The string stored in a record's `category` field. */
    function Name(): (n: string)
      ensures n in BucketNames
    {
      match this
      case Food => "Food"
      case Travel => "Travel"
      case Shopping => "Shopping"
      case Other => "Other"
    }
  }

  /** The four category names, in the order the chart's buckets are declared. */
  const BucketNames: seq<string> := ["Food", "Travel", "Shopping", "Other"]

  /** One stored expense. `amount` is exact; `date` is a timestamp. The
      category is a free string, as it is once read back from storage. */
  datatype Expense = Expense(
    id: string,
    title: string,
    amount: real,
    category: string,
    date: int,
    imageUri: Option<string>)

  /** What the 'expenses' storage key holds: nothing (null or the empty
      string), a serialized array of records, or a payload that does not
      parse back into an array. */
  datatype Blob = Absent | Stored(records: seq<Expense>) | Corrupt

  /** Reading the key: absent means the empty list; a corrupt payload makes
      the read fail (None). */
  function Load(blob: Blob): (r: Option<seq<Expense>>)
    ensures r.None? <==> blob.Corrupt?
    ensures blob.Absent? ==> r == Some([])
    ensures blob.Stored? ==> r == Some(blob.records)
  {
    match blob
    case Absent => Some([])
    case Stored(records) => Some(records)
    case Corrupt => None
  }

  /** The device's persistent key-value area, reduced to the one key. */
  class Storage {
    var blob: Blob

    constructor (initial: Blob)
      ensures blob == initial
    {
      blob := initial;
    }
  }

  /** The sum of the amounts, folded from 0: the running total of a list. */
  function Total(rs: seq<Expense>): (r: real)
    ensures rs == [] ==> r == 0.0
    ensures (forall i :: 0 <= i < |rs| ==> rs[i].amount >= 0.0) ==> r >= 0.0
  {
    if rs == [] then 0.0 else rs[0].amount + Total(rs[1..])
  }

  /** The total of a concatenation is the sum of the totals. */
  lemma {:induction false} TotalAppend(a: seq<Expense>, b: seq<Expense>)
    ensures Total(a + b) == Total(a) + Total(b)
  {
    if a != [] {
      TotalAppend(a[1..], b);
      assert (a + b)[1..] == a[1..] + b;
    } else {
      assert a + b == b;
    }
  }
}
