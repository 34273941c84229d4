/** The records the application keeps in its document store, and their enumerations. */
module Models {
  import opened Wrappers

  type UserId = nat
  /** Transactions, disputes, messages, reviews and wallet entries are never deleted,
      so their identifier is their position in their collection. */
  type TxId = nat
  type DisputeId = nat
  type MessageId = nat
  /** An abstract clock reading; every action receives the current one as a parameter. */
  type Time = nat

  datatype Role = Buyer | Seller | Admin

  datatype TransactionStatus = Pending | Active | Completed | Disputed | Cancelled

  datatype DisputeStatus = Open | UnderReview | Resolved

  datatype PaymentMethodType = Bank | Card | Wallet

  datatype NotificationType = NoteInfo | NoteSuccess | NoteWarning | NoteError

  datatype RelatedKind = AboutTransaction | AboutDispute | AboutMessage | AboutSystem

  datatype Related = Related(kind: RelatedKind, id: string)

  /** The buyer or the seller of a transaction, as copied into the transaction record. */
  datatype Party = Party(userId: UserId, email: string, name: string)

  datatype TimelineEntry = TimelineEntry(date: Time, event: string, description: string)

  datatype PaymentMethod = PaymentMethod(kind: PaymentMethodType, details: string)

  /** There is no `disputeId`: a dispute names its transaction, never the other way round. */
  datatype Transaction = Transaction(
    title: string,
    description: string,
    amount: real,
    currency: string,
    status: TransactionStatus,
    buyer: Party,
    seller: Party,
    escrowFunded: bool,
    paymentMethod: PaymentMethod,
    escrowId: Option<string>,
    createdAt: Time,
    updatedAt: Time,
    completedAt: Option<Time>,
    timeline: seq<TimelineEntry>)

  /** `isDisputeMessage` is set only on responses to a dispute. */
  datatype Message = Message(
    transactionId: TxId,
    sender: UserId,
    senderName: string,
    content: string,
    timestamp: Time,
    isRead: bool,
    isDisputeMessage: bool)

  /** `respondentId` is read when a dispute is answered, although no action ever sets it. */
  datatype Dispute = Dispute(
    transactionId: TxId,
    raisedBy: UserId,
    respondentId: Option<UserId>,
    reason: string,
    status: DisputeStatus,
    resolution: Option<string>,
    createdAt: Time,
    resolvedAt: Option<Time>)

  datatype Review = Review(
    transactionId: TxId,
    reviewerId: UserId,
    revieweeId: UserId,
    rating: real,
    comment: string,
    createdAt: Time)

  datatype Notification = Notification(
    id: nat,
    userId: UserId,
    title: string,
    message: string,
    kind: NotificationType,
    relatedTo: Option<Related>,
    isRead: bool,
    createdAt: Time)

  /** The account and routing numbers are stored masked. */
  datatype BankAccount = BankAccount(
    id: nat,
    userId: UserId,
    accountType: string,
    accountName: string,
    accountNumber: string,
    routingNumber: string,
    isDefault: bool,
    createdAt: Time)

  datatype CreditCard = CreditCard(
    id: nat,
    userId: UserId,
    paymentMethodId: string,
    last4: string,
    brand: string,
    expMonth: string,
    expYear: string,
    cardholderName: string,
    isDefault: bool,
    createdAt: Time)

  /** `password` holds the hash; the per-user lists live inside the user document. A list the
      document does not have yet is `None`: `signUp` writes the bank accounts but neither the
      cards nor the notifications. */
  datatype User = User(
    email: string,
    password: string,
    name: string,
    role: Role,
    createdAt: Time,
    walletBalance: real,
    trustScore: real,
    bankAccounts: seq<BankAccount>,
    creditCards: Option<seq<CreditCard>>,
    notifications: Option<seq<Notification>>)

  /** The entries of a list field, with a missing field read as no entries. */
  function OrEmpty<T>(field: Option<seq<T>>): (r: seq<T>)
    ensures field.None? ==> r == []
    ensures field.Some? ==> r == field.value
  {
    if field.Some? then field.value else []
  }

  datatype EntryType = Deposit | Withdrawal

  datatype EntryStatus = EntryCompleted | EntryProcessing

  /** A `wallet_transactions` record; `account` is the deposit's source or the withdrawal's destination. */
  datatype WalletEntry = WalletEntry(
    userId: UserId,
    amount: real,
    kind: EntryType,
    via: string,
    account: string,
    status: EntryStatus,
    description: string,
    createdAt: Time)

  /** A `withdrawal_requests` record; `entryId` is the position of its wallet entry. */
  datatype WithdrawalRequest = WithdrawalRequest(
    userId: UserId,
    entryId: nat,
    amount: real,
    via: string,
    destinationId: string,
    status: EntryStatus,
    createdAt: Time)

  /** The signed-in user as the session lookup returns it. */
  datatype Session = Session(userId: UserId, email: string, name: string, role: Role)

  /** The answer of every action called without a signed-in user. */
  const NotLoggedIn := "You must be logged in"

  predicate IsParticipant(t: Transaction, u: UserId)
  {
    t.buyer.userId == u || t.seller.userId == u
  }

  /** The string a transaction status is stored and compared as. */
  function StatusName(s: TransactionStatus): string
  {
    match s
    case Pending => "pending"
    case Active => "active"
    case Completed => "completed"
    case Disputed => "disputed"
    case Cancelled => "cancelled"
  }

  /** Reads a stored status string back; only the five names of the enumeration are statuses. */
  function ParseStatus(name: string): (r: Option<TransactionStatus>)
    ensures r.Some? ==> StatusName(r.value) == name
    ensures r.None? ==> forall s :: StatusName(s) != name
  {
    if name == "pending" then Some(Pending)
    else if name == "active" then Some(Active)
    else if name == "completed" then Some(Completed)
    else if name == "disputed" then Some(Disputed)
    else if name == "cancelled" then Some(Cancelled)
    else None
  }

  /** Every status is stored under its own name and read back as itself. */
  lemma StatusRoundTrip(s: TransactionStatus)
    ensures ParseStatus(StatusName(s)) == Some(s)
  {
  }
}
