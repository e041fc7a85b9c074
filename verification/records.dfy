/** The rows the page keeps in memory after fetching them from the backend.
    Amounts are whole kuruş; dates are the business-local `YYYY-MM-DD`
    strings the page compares with `===`. */
module Records {
  import opened Common

  type Id = int
  type Date = string
  type Amount = int

  datatype Role = Admin | Staff

  /** A signed-in user; `allowedBusinesses` is `allowed_businesses`, which may be missing. */
  datatype User = User(
    id: Id,
    username: string,
    fullName: string,
    role: Role,
    allowedBusinesses: Option<seq<Id>>)

  datatype Business = Business(id: Id, name: string)

  datatype Supplier = Supplier(id: Id, businessId: Id, name: string, phone: string, notes: string)

  /** `ALIM` (a purchase on credit, raising the debt) or `ODEME` (a payment, lowering it). */
  datatype TxKind = Purchase | Payment

  datatype PaymentMethod = Cash | CreditCard | Cheque | PromissoryNote

  /** A supplier transaction. `updatedByName` is the audit name, `""` when the
      row was never edited (every falsy value of the page); `updatedAt` the
      edit instant in milliseconds. */
  datatype Transaction = Transaction(
    id: Id,
    supplierId: Id,
    businessId: Id,
    userId: Id,
    kind: TxKind,
    amount: Amount,
    date: Date,
    description: string,
    paymentMethod: PaymentMethod,
    invoiceUrl: Option<string>,
    updatedByName: string,
    updatedAt: int)

  datatype Expense = Expense(id: Id, description: string, amount: Amount)

  /** An end-of-day report with its owned expenses nested in it, as loaded.
      `expenses` may be missing, which the page treats as empty. */
  datatype DailyReport = DailyReport(
    id: Id,
    businessId: Id,
    userId: Id,
    date: Date,
    creditCard: Amount,
    cash: Amount,
    mealCards: Amount,
    actualCash: Amount,
    notes: string,
    expenses: Option<seq<Expense>>,
    updatedByName: string,
    updatedAt: int)

  /** `IN` (money into the till) or `OUT` (money paid out of it). */
  datatype CashKind = In | Out

  datatype CashMovement = CashMovement(
    id: Id,
    userId: Id,
    kind: CashKind,
    amount: Amount,
    description: string,
    date: Date,
    updatedByName: string,
    updatedAt: int)
}
