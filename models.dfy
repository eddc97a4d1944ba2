/** The backend's rows: user profiles, accounts and transactions. */
module Models {

  import opened Wrappers

  /** The two values of the `transaction_type` enumeration. */
  datatype TxType = Deposit | Withdrawal {
    function Name(): string {
      match this
      case Deposit => "DEPOSIT"
      case Withdrawal => "WITHDRAWAL"
    }
  }

  /**
    A stored date-time: its position in time (for ordering) and the
    ISO-8601 text `isoformat()` gives for it.
  */
  datatype Timestamp = Timestamp(instant: int, iso: string)

  datatype User = User(
    customerId: string,           // primary key, the UUID's text
    googleId: Option<string>,     // unique when present
    email: string,                // unique
    fullName: Option<string>,
    address: Option<string>,
    phoneNumber: Option<string>,
    isActive: bool,
    createdAt: Timestamp,
    updatedAt: Timestamp)

  datatype Account = Account(
    accountNumber: string,        // primary key
    customerId: string,           // the owning user
    balance: real,
    createdAt: Timestamp,
    updatedAt: Timestamp)

  datatype Transaction = Transaction(
    transactionNumber: string,    // primary key, the UUID's text
    accountNumber: string,        // the account it belongs to
    kind: TxType,
    amountBefore: real,
    amountAfter: real,
    timestamp: Timestamp,
    description: Option<string>)
}
