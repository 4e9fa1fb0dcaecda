/**
  The transaction record: its transaction-type enumeration, the
  description validator and the declared field bounds and defaults.
 */
module Transactions {
  import opened Outcomes
  import opened PyText

  const DescriptionMessage: string := "Description cannot be empty or contain only whitespace."

  /** The declared length bounds of `description`. */
  const DescriptionMinLength: nat := 1
  const DescriptionMaxLength: nat := 200

  /** The declared `max_length` of `merchant_name`. */
  const MerchantNameMaxLength: nat := 150

  /** `TransactionType`, a string enumeration; the member `TRANSFER` stands for "transfer_in". */
  datatype TransactionType = Income | Expense | Transfer | TransferOut

  function TransactionTypeValue(t: TransactionType): string
  {
    match t
    case Income => "income"
    case Expense => "expense"
    case Transfer => "transfer_in"
    case TransferOut => "transfer_out"
  }

  /** `TransactionType(s)`: the member whose value is `s`, if any. */
  function ParseTransactionType(s: string): (r: Option<TransactionType>)
    ensures r.Some? ==> TransactionTypeValue(r.value) == s
  {
    if s == "income" then Some(Income)
    else if s == "expense" then Some(Expense)
    else if s == "transfer_in" then Some(Transfer)
    else if s == "transfer_out" then Some(TransferOut)
    else None
  }

  const TransactionTypeValues: set<string> := {"income", "expense", "transfer_in", "transfer_out"}

  /** Every member parses back from its value. */
  lemma TransactionTypeRoundTrip(t: TransactionType)
    ensures ParseTransactionType(TransactionTypeValue(t)) == Some(t)
  {
  }

  /** Exactly the four wire strings are accepted; "transfer" itself is not one of them. */
  lemma TransactionTypeValuesExact(s: string)
    ensures ParseTransactionType(s).Some? <==> s in TransactionTypeValues
    ensures |TransactionTypeValues| == 4
    ensures ParseTransactionType("transfer") == None
  {
  }

  /** The fields of `Transaction` the model keeps; its own id, notes and dates are left out. */
  datatype Transaction = Transaction(
    accountId: Uuid,
    description: string,
    amount: real,
    transactionType: TransactionType,
    categoryId: Option<Uuid>,
    merchantName: Option<string>,
    isRecurring: bool)

  /** The declared bounds of `Transaction`. */
  predicate TransactionDeclaredBounds(t: Transaction)
  {
    && DescriptionMinLength <= |t.description| <= DescriptionMaxLength
    && t.amount >= 0.0
    && (t.merchantName.Some? ==> |t.merchantName.value| <= MerchantNameMaxLength)
  }

  /**
    A transaction from its fields; the optional ones take the declared
    defaults: no category, no merchant, not recurring.
   */
  function NewTransaction(accountId: Uuid, description: string, amount: real, transactionType: TransactionType,
                          categoryId: Option<Uuid> := None, merchantName: Option<string> := None,
                          isRecurring: bool := false): (t: Transaction)
    ensures t.accountId == accountId && t.description == description
    ensures t.amount == amount && t.transactionType == transactionType
    ensures t.categoryId == categoryId && t.merchantName == merchantName && t.isRecurring == isRecurring
  {
    Transaction(accountId, description, amount, transactionType, categoryId, merchantName, isRecurring)
  }

  /** Given only its required fields, a transaction has no category, no merchant and is not recurring. */
  lemma TransactionDefaults(accountId: Uuid, description: string, amount: real, transactionType: TransactionType)
    ensures var t := NewTransaction(accountId, description, amount, transactionType);
            t.categoryId == None && t.merchantName == None && !t.isRecurring
  {
  }

  /**
    `description_not_empty`: an empty or whitespace-only description is
    rejected; otherwise it is returned exactly as given, surrounding
    whitespace included.
   */
  function DescriptionNotEmpty(value: string): (r: Result<string>)
    ensures r.Err? <==> IsBlank(value)
    ensures r.Err? ==> r.error == DescriptionMessage
    ensures r.Ok? ==> r.value == value
  {
    if Strip(value) == [] then Err(DescriptionMessage) else Ok(value)
  }

  /** An accepted description meets the declared minimum length of 1 by itself. */
  lemma AcceptedDescriptionMeetsMinLength(value: string)
    requires DescriptionNotEmpty(value).Ok?
    ensures |DescriptionNotEmpty(value).value| >= DescriptionMinLength
  {
  }

  /** The validator does not strip: " rent " is accepted as " rent ". */
  lemma DescriptionKeepsWhitespace()
    ensures DescriptionNotEmpty(" rent ") == Ok(" rent ")
  {
    assert !IsSpace(" rent "[1]);
  }
}
