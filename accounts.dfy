/**
  The account record: its account-type enumeration, the account-name and
  currency validators, and the declared bounds.
 */
module Accounts {
  import opened Outcomes
  import opened PyText

  const AccountNameMessage: string := "Account name cannot be empty or contain only whitespace."
  const CurrencyMessage: string := "Currency code must be 3 uppercase letters."

  /** The declared `max_length` of `account_name`. */
  const AccountNameMaxLength: nat := 100

  /** The declared default of `currency`. */
  const DefaultCurrency: string := "USD"

  /** `AccountType`, a string enumeration. */
  datatype AccountType = Checking | Savings | CreditCard | Cash | Investment | Loan | Other

  /** The wire string of each member. */
  function AccountTypeValue(t: AccountType): string
  {
    match t
    case Checking => "checking"
    case Savings => "savings"
    case CreditCard => "credit_card"
    case Cash => "cash"
    case Investment => "investment"
    case Loan => "loan"
    case Other => "other"
  }

  /** `AccountType(s)`: the member whose value is `s`, if any. */
  function ParseAccountType(s: string): (r: Option<AccountType>)
    ensures r.Some? ==> AccountTypeValue(r.value) == s
  {
    if s == "checking" then Some(Checking)
    else if s == "savings" then Some(Savings)
    else if s == "credit_card" then Some(CreditCard)
    else if s == "cash" then Some(Cash)
    else if s == "investment" then Some(Investment)
    else if s == "loan" then Some(Loan)
    else if s == "other" then Some(Other)
    else None
  }

  /** The set of accepted wire strings. */
  const AccountTypeValues: set<string> := {"checking", "savings", "credit_card", "cash", "investment", "loan", "other"}

  /** Every member parses back from its value. */
  lemma AccountTypeRoundTrip(t: AccountType)
    ensures ParseAccountType(AccountTypeValue(t)) == Some(t)
  {
  }

  /** A string is accepted exactly when it is one of the seven values, and there are seven. */
  lemma AccountTypeValuesExact(s: string)
    ensures ParseAccountType(s).Some? <==> s in AccountTypeValues
    ensures |AccountTypeValues| == 7
  {
  }

  /** The fields of `Account` the model keeps; ids, notes and audit timestamps are left out. */
  datatype Account = Account(accountName: string, accountType: AccountType, currency: string)

  /** The declared bound of `Account`: an account name of at most 100 characters. */
  predicate AccountDeclaredBounds(a: Account)
  {
    |a.accountName| <= AccountNameMaxLength
  }

  /** An account from its fields; the currency defaults to "USD". */
  function NewAccount(accountName: string, accountType: AccountType, currency: string := DefaultCurrency): (a: Account)
    ensures a.accountName == accountName && a.accountType == accountType && a.currency == currency
  {
    Account(accountName, accountType, currency)
  }

  /** Given only a name and a type, an account's currency is "USD", which the currency validator accepts. */
  lemma AccountDefaults(accountName: string, accountType: AccountType)
    ensures NewAccount(accountName, accountType).currency == "USD"
    ensures ValidateCurrencyCode(NewAccount(accountName, accountType).currency).Ok?
  {
    DefaultCurrencyValid();
  }

  /**
    `account_name_not_empty`: an empty or whitespace-only name is rejected;
    otherwise the name comes back stripped, non-empty, with no whitespace at
    either end.
   */
  function AccountNameNotEmpty(value: string): (r: Result<string>)
    ensures r.Err? <==> IsBlank(value)
    ensures r.Err? ==> r.error == AccountNameMessage
    ensures r.Ok? ==> r.value == Strip(value) && r.value != [] && NoSurroundingSpace(r.value)
  {
    if Strip(value) == [] then Err(AccountNameMessage) else Ok(Strip(value))
  }

  /**
    `validate_currency_code`: accepted when `isalpha()` and `isupper()` both
    hold, and then returned unchanged.
   */
  function ValidateCurrencyCode(value: string): (r: Result<string>)
    ensures r.Ok? <==> IsAlpha(value) && IsUpper(value)
    ensures r.Ok? ==> r.value == value
    ensures r.Err? ==> r.error == CurrencyMessage
  {
    if !IsAlpha(value) || !IsUpper(value) then Err(CurrencyMessage) else Ok(value)
  }

  /**
    The accepted codes are exactly the non-empty strings of upper-case
    letters, of any length: the message's "3" is not enforced.
   */
  lemma CurrencyCodeAcceptedIff(value: string)
    ensures ValidateCurrencyCode(value).Ok?
            <==> |value| > 0 && forall i :: 0 <= i < |value| ==> 'A' <= value[i] <= 'Z'
  {
    if |value| > 0 && forall i :: 0 <= i < |value| ==> 'A' <= value[i] <= 'Z' {
      assert IsAsciiUpper(value[0]);
    }
  }

  /** Codes of two and of four letters pass, and the empty and mixed-case codes fail. */
  lemma CurrencyLengthNotChecked()
    ensures ValidateCurrencyCode("EURO") == Ok("EURO")
    ensures ValidateCurrencyCode("US") == Ok("US")
    ensures ValidateCurrencyCode("").Err?
    ensures ValidateCurrencyCode("Usd").Err?
  {
    CurrencyCodeAcceptedIff("EURO");
    CurrencyCodeAcceptedIff("US");
    assert !IsUpper("Usd") by {
      assert IsAsciiLower("Usd"[1]);
    }
  }

  /** The declared default passes the currency validator. */
  lemma DefaultCurrencyValid()
    ensures ValidateCurrencyCode(DefaultCurrency) == Ok(DefaultCurrency)
  {
    CurrencyCodeAcceptedIff(DefaultCurrency);
  }
}
