/**
 * The records exchanged by the storage layer, the request client and the
 * services (models/api.model.ts).
 */
module Model {

  datatype Option<+T> = None | Some(value: T) {
    function GetOr(default: T): T {
      match this
      case Some(v) => v
      case None => default
    }
  }

  /** The `type` field of a transaction: "income" | "expense". */
  datatype TxType = Income | Expense

  function TxTypeName(t: TxType): string {
    match t
    case Income => "income"
    case Expense => "expense"
  }

  /**
   * A stored transaction. Amounts are exact reals (the source keeps a JS
   * number); `kind` is the source's `type` field.
   */
  datatype Transaction = Transaction(
    id: string,
    description: string,
    amount: real,
    category: string,
    kind: TxType,
    date: string)

  datatype Summary = Summary(income: real, expenses: real, balance: real)

  const ZeroSummary: Summary := Summary(0.0, 0.0, 0.0)

  datatype User = User(email: string, password: string)

  /** What the request client hands back: `data` is null exactly when `success` is false. */
  datatype ApiResponse<T> = ApiResponse(data: Option<T>, success: bool, error: Option<string>)
}
