/** The whitelist checks that run before the payment-creation and
    registration handlers (server/routes/payments.js and
    server/routes/auth.js). Each check is an allow-pattern; the error list
    holds one entry per failing check, in the order the checks are declared,
    with the message the route attaches or the library default. */
module Validation {
  import opened Models

  /** The request fields the checks look at. */
  datatype Field =
    | Amount | Currency | Provider | PayeeAccount | SwiftCode
    | FullName | IdNumber | AccountNumber | Username | Password

  /** The fields the payment-creation checks look at. */
  predicate IsPaymentField(f: Field)
  {
    f.Amount? || f.Currency? || f.Provider? || f.PayeeAccount? || f.SwiftCode?
  }

  /** The fields the registration checks look at. */
  predicate IsRegisterField(f: Field)
  {
    f.FullName? || f.IdNumber? || f.AccountNumber? || f.Username? || f.Password?
  }

  datatype FieldError = FieldError(field: Field, message: string)

  /** Where a field's check chain is declared on its route. */
  function Position(f: Field): nat
  {
    match f
    case Amount => 0
    case Currency => 1
    case Provider => 2
    case PayeeAccount => 3
    case SwiftCode => 4
    case FullName => 0
    case IdNumber => 1
    case AccountNumber => 2
    case Username => 3
    case Password => 4
  }

  /** The errors come in the order their chains are declared. */
  predicate InDeclarationOrder(errs: seq<FieldError>)
  {
    forall i, j :: 0 <= i < j < |errs| ==> Position(errs[i].field) <= Position(errs[j].field)
  }

  /** The message a check reports when the route gives it none. */
  const DefaultMessage: string := "Invalid value"

  const AllowedCurrencies: seq<string> := ["ZAR", "USD", "EUR"]
  const AllowedProviders: seq<string> := ["SWIFT"]

  // ---------------------------------------------------------------------
  // Character classes of the regular expressions (no `u` flag, so every
  // class below is exactly the ASCII or ECMAScript set named)

  /** `\d` */
  predicate IsDigit(c: char) { '0' <= c <= '9' }

  predicate IsLower(c: char) { 'a' <= c <= 'z' }

  predicate IsUpper(c: char) { 'A' <= c <= 'Z' }

  /** `[A-Za-z0-9]` */
  predicate IsAlnum(c: char) { IsDigit(c) || IsLower(c) || IsUpper(c) }

  /** The ECMAScript line terminators, which `.` does not match. */
  predicate IsLineTerminator(c: char)
  {
    c == '\n' || c == '\r' || c == '\U{2028}' || c == '\U{2029}'
  }

  /** `\s`: ECMAScript white space and line terminators. */
  predicate IsSpace(c: char)
  {
    || c == '\t' || c == '\U{000B}' || c == '\U{000C}' || c == ' '
    || c == '\U{00A0}' || c == '\U{1680}' || ('\U{2000}' <= c <= '\U{200A}')
    || c == '\U{202F}' || c == '\U{205F}' || c == '\U{3000}' || c == '\U{FEFF}'
    || IsLineTerminator(c)
  }

  /** `[A-Za-z\s\-'\.]` */
  predicate IsNameChar(c: char)
  {
    IsLower(c) || IsUpper(c) || IsSpace(c) || c == '-' || c == '\'' || c == '.'
  }

  // ---------------------------------------------------------------------
  // Whole-string patterns

  /** `^\d{lo,hi}$` */
  predicate DigitRun(s: string, lo: nat, hi: nat)
  {
    lo <= |s| <= hi && forall i :: 0 <= i < |s| ==> IsDigit(s[i])
  }

  /** `^[A-Za-z0-9]{lo,hi}$` */
  predicate AlnumRun(s: string, lo: nat, hi: nat)
  {
    lo <= |s| <= hi && forall i :: 0 <= i < |s| ==> IsAlnum(s[i])
  }

  /** `^[A-Za-z\s\-'\.]{2,100}$` */
  predicate NameValid(s: string)
  {
    2 <= |s| <= 100 && forall i :: 0 <= i < |s| ==> IsNameChar(s[i])
  }

  /** The library's default isNumeric pattern `^[+-]?([0-9]*[.])?[0-9]+$`:
      an optional sign, then digits with at most one '.', ending in a digit. */
  predicate IsNumeric(s: string)
  {
    var t := if |s| > 0 && (s[0] == '+' || s[0] == '-') then s[1..] else s;
    && |t| > 0
    && IsDigit(t[|t| - 1])
    && (forall i :: 0 <= i < |t| ==> IsDigit(t[i]) || t[i] == '.')
    && (forall i, j :: 0 <= i < j < |t| && t[i] == '.' ==> t[j] != '.')
  }

  /** isAlphanumeric with the default locale: `^[0-9A-Z]+$` ignoring case. */
  predicate IsAlphanumeric(s: string)
  {
    AlnumRun(s, 1, |s|)
  }

  /** Which of the password pattern's character classes occur in a string. */
  datatype Seen = Seen(lower: bool, upper: bool, digit: bool, other: bool, terminator: bool)

  /** One pass over the string, recording the classes met. */
  function Scan(p: string): Seen
  {
    if p == [] then Seen(false, false, false, false, false)
    else
      var rest := Scan(p[1..]);
      Seen(rest.lower || IsLower(p[0]), rest.upper || IsUpper(p[0]), rest.digit || IsDigit(p[0]),
           rest.other || !IsAlnum(p[0]), rest.terminator || IsLineTerminator(p[0]))
  }

  /** `^(?=.*[a-z])(?=.*[A-Z])(?=.*\d)(?=.*[\W_]).{8,}$`: at least eight
      characters, none a line terminator, with a lower-case letter, an
      upper-case letter, a digit and a character outside `[A-Za-z0-9]`. */
  predicate StrongPassword(p: string)
  {
    var seen := Scan(p);
    |p| >= 8 && seen.lower && seen.upper && seen.digit && seen.other && !seen.terminator
  }

  /** The scan records a class exactly when some character of the string is in it. */
  lemma {:induction false} ScanFindsEachClass(p: string)
    ensures Scan(p).lower <==> exists i :: 0 <= i < |p| && IsLower(p[i])
    ensures Scan(p).upper <==> exists i :: 0 <= i < |p| && IsUpper(p[i])
    ensures Scan(p).digit <==> exists i :: 0 <= i < |p| && IsDigit(p[i])
    ensures Scan(p).other <==> exists i :: 0 <= i < |p| && !IsAlnum(p[i])
    ensures Scan(p).terminator <==> exists i :: 0 <= i < |p| && IsLineTerminator(p[i])
  {
    if p != [] {
      ScanFindsEachClass(p[1..]);
      assert forall i :: 1 <= i < |p| ==> p[i] == p[1..][i - 1];
      assert forall i :: 0 <= i < |p| - 1 ==> p[1..][i] == p[i + 1];
    }
  }

  /** The password rule read as its four lookaheads and its `.{8,}` body. */
  lemma StrongPasswordIsLookaheads(p: string)
    ensures StrongPassword(p) <==>
      && |p| >= 8
      && (forall i :: 0 <= i < |p| ==> !IsLineTerminator(p[i]))
      && (exists i :: 0 <= i < |p| && IsLower(p[i]))
      && (exists i :: 0 <= i < |p| && IsUpper(p[i]))
      && (exists i :: 0 <= i < |p| && IsDigit(p[i]))
      && (exists i :: 0 <= i < |p| && !IsAlnum(p[i]))
  {
    ScanFindsEachClass(p);
  }

  /** isFloat({ gt: 0 }): `amount` is the number the submitted text denotes,
      `None` when the text is not a float. */
  predicate AmountValid(amount: Option<real>)
  {
    amount.Some? && amount.value > 0.0
  }

  /** One check: no error when it passes, its one error when it fails. */
  function Check(ok: bool, field: Field, message: string): (errs: seq<FieldError>)
    ensures |errs| <= 1
    ensures errs == [] <==> ok
    ensures forall e :: e in errs <==> !ok && e == FieldError(field, message)
  {
    if ok then [] else [FieldError(field, message)]
  }

  // ---------------------------------------------------------------------
  // POST /payments

  /** The body of a payment-creation request. */
  datatype PaymentFields = PaymentFields(
    amount: Option<real>,
    currency: string,
    provider: string,
    payeeAccount: string,
    swiftCode: string)

  predicate PaymentFieldsValid(f: PaymentFields)
  {
    && AmountValid(f.amount)
    && f.currency in AllowedCurrencies
    && f.provider in AllowedProviders
    && DigitRun(f.payeeAccount, 6, 20)
    && AlnumRun(f.swiftCode, 8, 11)
  }

  /** The errors of the amount, currency and provider chains, from whether
      each passed, in declaration order. */
  function AmountReport(amountOk: bool, currencyOk: bool, providerOk: bool): (errs: seq<FieldError>)
    ensures errs == [] <==> amountOk && currencyOk && providerOk
    ensures |errs| <= 3
    ensures forall e :: e in errs <==>
      || (!amountOk && e == FieldError(Amount, "Amount must be > 0"))
      || (!currencyOk && e == FieldError(Currency, DefaultMessage))
      || (!providerOk && e == FieldError(Provider, DefaultMessage))
  {
    Check(amountOk, Amount, "Amount must be > 0")
    + Check(currencyOk, Currency, DefaultMessage)
    + Check(providerOk, Provider, DefaultMessage)
  }

  /** The errors of the payee-account and SWIFT-code chains, in order. */
  function PayeeReport(payeeOk: bool, swiftOk: bool): (errs: seq<FieldError>)
    ensures errs == [] <==> payeeOk && swiftOk
    ensures |errs| <= 2
    ensures forall e :: e in errs <==>
      || (!payeeOk && e == FieldError(PayeeAccount, "Invalid payee account"))
      || (!swiftOk && e == FieldError(SwiftCode, "Invalid SWIFT code"))
  {
    Check(payeeOk, PayeeAccount, "Invalid payee account")
    + Check(swiftOk, SwiftCode, "Invalid SWIFT code")
  }

  /** The error list of the five payment chains, from whether each passed:
      one entry per failing chain, in declaration order, with its message. */
  function PaymentReport(amountOk: bool, currencyOk: bool, providerOk: bool, payeeOk: bool, swiftOk: bool)
    : (errs: seq<FieldError>)
    ensures errs == [] <==> amountOk && currencyOk && providerOk && payeeOk && swiftOk
    ensures |errs| <= 5
    ensures forall e :: e in errs <==>
      || (!amountOk && e == FieldError(Amount, "Amount must be > 0"))
      || (!currencyOk && e == FieldError(Currency, DefaultMessage))
      || (!providerOk && e == FieldError(Provider, DefaultMessage))
      || (!payeeOk && e == FieldError(PayeeAccount, "Invalid payee account"))
      || (!swiftOk && e == FieldError(SwiftCode, "Invalid SWIFT code"))
    ensures forall e :: e in errs ==> IsPaymentField(e.field)
  {
    AmountReport(amountOk, currencyOk, providerOk) + PayeeReport(payeeOk, swiftOk)
  }

  /** validationResult for the five payment checks: empty exactly when every
      field passes; each failing field is reported with its message, a
      passing one is not, and no other field is named. */
  function PaymentErrors(f: PaymentFields): (errs: seq<FieldError>)
    ensures errs == [] <==> PaymentFieldsValid(f)
    ensures |errs| <= 5
    ensures FieldError(Amount, "Amount must be > 0") in errs <==> !AmountValid(f.amount)
    ensures FieldError(Currency, DefaultMessage) in errs <==> f.currency !in AllowedCurrencies
    ensures FieldError(Provider, DefaultMessage) in errs <==> f.provider !in AllowedProviders
    ensures FieldError(PayeeAccount, "Invalid payee account") in errs <==> !DigitRun(f.payeeAccount, 6, 20)
    ensures FieldError(SwiftCode, "Invalid SWIFT code") in errs <==> !AlnumRun(f.swiftCode, 8, 11)
    ensures forall e :: e in errs <==>
      || (!AmountValid(f.amount) && e == FieldError(Amount, "Amount must be > 0"))
      || (f.currency !in AllowedCurrencies && e == FieldError(Currency, DefaultMessage))
      || (f.provider !in AllowedProviders && e == FieldError(Provider, DefaultMessage))
      || (!DigitRun(f.payeeAccount, 6, 20) && e == FieldError(PayeeAccount, "Invalid payee account"))
      || (!AlnumRun(f.swiftCode, 8, 11) && e == FieldError(SwiftCode, "Invalid SWIFT code"))
    ensures forall e :: e in errs ==> IsPaymentField(e.field)
  {
    PaymentReport(AmountValid(f.amount), f.currency in AllowedCurrencies, f.provider in AllowedProviders,
                  DigitRun(f.payeeAccount, 6, 20), AlnumRun(f.swiftCode, 8, 11))
  }

  // ---------------------------------------------------------------------
  // POST /register

  /** The body of a registration request. */
  datatype RegisterFields = RegisterFields(
    fullName: string,
    idNumber: string,
    accountNumber: string,
    username: string,
    password: string)

  /** The idNumber chain: its isLength step is handed a regular expression
      instead of `{ min, max }`, so it bounds nothing; only isNumeric bites. */
  predicate IdNumberValid(s: string)
  {
    IsNumeric(s)
  }

  predicate RegisterFieldsValid(f: RegisterFields)
  {
    && NameValid(f.fullName)
    && IdNumberValid(f.idNumber)
    && DigitRun(f.accountNumber, 6, 20)
    && IsAlphanumeric(f.username) && |f.username| >= 4
    && StrongPassword(f.password)
  }

  /** The errors of the full-name, ID-number and account-number chains,
      from whether each passed, in declaration order. */
  function IdentityReport(nameOk: bool, idOk: bool, accountOk: bool): (errs: seq<FieldError>)
    ensures errs == [] <==> nameOk && idOk && accountOk
    ensures |errs| <= 3
    ensures forall e :: e in errs <==>
      || (!nameOk && e == FieldError(FullName, "Invalid name"))
      || (!idOk && e == FieldError(IdNumber, "Invalid ID number"))
      || (!accountOk && e == FieldError(AccountNumber, "Invalid account number"))
  {
    Check(nameOk, FullName, "Invalid name")
    + Check(idOk, IdNumber, "Invalid ID number")
    + Check(accountOk, AccountNumber, "Invalid account number")
  }

  /** The errors of the username and password chains. `username` carries two
      validators (isAlphanumeric, then isLength min 4), each reported on its
      own with the default message. */
  function CredentialReport(userAlnumOk: bool, userLengthOk: bool, passwordOk: bool): (errs: seq<FieldError>)
    ensures errs == [] <==> userAlnumOk && userLengthOk && passwordOk
    ensures |errs| <= 3
    ensures forall e :: e in errs <==>
      || ((!userAlnumOk || !userLengthOk) && e == FieldError(Username, DefaultMessage))
      || (!passwordOk && e == FieldError(Password, DefaultMessage))
  {
    Check(userAlnumOk, Username, DefaultMessage)
    + Check(userLengthOk, Username, DefaultMessage)
    + Check(passwordOk, Password, DefaultMessage)
  }

  /** The error list of the registration chains, from whether each
      validator passed, in declaration order. */
  function RegisterReport(nameOk: bool, idOk: bool, accountOk: bool, userAlnumOk: bool, userLengthOk: bool,
                          passwordOk: bool): (errs: seq<FieldError>)
    ensures errs == [] <==> nameOk && idOk && accountOk && userAlnumOk && userLengthOk && passwordOk
    ensures |errs| <= 6
    ensures forall e :: e in errs <==>
      || (!nameOk && e == FieldError(FullName, "Invalid name"))
      || (!idOk && e == FieldError(IdNumber, "Invalid ID number"))
      || (!accountOk && e == FieldError(AccountNumber, "Invalid account number"))
      || ((!userAlnumOk || !userLengthOk) && e == FieldError(Username, DefaultMessage))
      || (!passwordOk && e == FieldError(Password, DefaultMessage))
    ensures forall e :: e in errs ==> IsRegisterField(e.field)
  {
    IdentityReport(nameOk, idOk, accountOk) + CredentialReport(userAlnumOk, userLengthOk, passwordOk)
  }

  /** validationResult for the registration checks: empty exactly when every
      field passes; each failing field is reported with its message, a
      passing one is not, and no other field is named. */
  function RegisterErrors(f: RegisterFields): (errs: seq<FieldError>)
    ensures errs == [] <==> RegisterFieldsValid(f)
    ensures |errs| <= 6
    ensures FieldError(FullName, "Invalid name") in errs <==> !NameValid(f.fullName)
    ensures FieldError(IdNumber, "Invalid ID number") in errs <==> !IdNumberValid(f.idNumber)
    ensures FieldError(AccountNumber, "Invalid account number") in errs <==> !DigitRun(f.accountNumber, 6, 20)
    ensures FieldError(Username, DefaultMessage) in errs <==> !IsAlphanumeric(f.username) || |f.username| < 4
    ensures FieldError(Password, DefaultMessage) in errs <==> !StrongPassword(f.password)
    ensures forall e :: e in errs <==>
      || (!NameValid(f.fullName) && e == FieldError(FullName, "Invalid name"))
      || (!IdNumberValid(f.idNumber) && e == FieldError(IdNumber, "Invalid ID number"))
      || (!DigitRun(f.accountNumber, 6, 20) && e == FieldError(AccountNumber, "Invalid account number"))
      || ((!IsAlphanumeric(f.username) || |f.username| < 4) && e == FieldError(Username, DefaultMessage))
      || (!StrongPassword(f.password) && e == FieldError(Password, DefaultMessage))
    ensures forall e :: e in errs ==> IsRegisterField(e.field)
  {
    RegisterReport(NameValid(f.fullName), IdNumberValid(f.idNumber), DigitRun(f.accountNumber, 6, 20),
                   IsAlphanumeric(f.username), |f.username| >= 4, StrongPassword(f.password))
  }

  /** Joining two ordered lists, the first naming no field declared after
      `split` and the second none declared before it, gives an ordered list. */
  lemma OrderedJoin(a: seq<FieldError>, b: seq<FieldError>, split: nat)
    requires InDeclarationOrder(a) && InDeclarationOrder(b)
    requires forall e :: e in a ==> Position(e.field) <= split
    requires forall e :: e in b ==> split <= Position(e.field)
    ensures InDeclarationOrder(a + b)
  {
    var c := a + b;
    forall i, j | 0 <= i < j < |c| ensures Position(c[i].field) <= Position(c[j].field) {
      if j < |a| {
        assert c[i] == a[i] && c[j] == a[j];
      } else if i >= |a| {
        assert c[i] == b[i - |a|] && c[j] == b[j - |a|];
      } else {
        assert c[i] == a[i] && c[j] == b[j - |a|];
        assert a[i] in a && b[j - |a|] in b;
      }
    }
  }

  lemma AmountReportInOrder(amountOk: bool, currencyOk: bool, providerOk: bool)
    ensures InDeclarationOrder(AmountReport(amountOk, currencyOk, providerOk))
  {
    var amount := Check(amountOk, Amount, "Amount must be > 0");
    var currency := Check(currencyOk, Currency, DefaultMessage);
    OrderedJoin(amount, currency, 1);
    OrderedJoin(amount + currency, Check(providerOk, Provider, DefaultMessage), 2);
  }

  lemma PayeeReportInOrder(payeeOk: bool, swiftOk: bool)
    ensures InDeclarationOrder(PayeeReport(payeeOk, swiftOk))
  {
    OrderedJoin(Check(payeeOk, PayeeAccount, "Invalid payee account"), Check(swiftOk, SwiftCode, "Invalid SWIFT code"), 4);
  }

  /** The payment report lists the failing chains in declaration order. */
  lemma PaymentReportInOrder(amountOk: bool, currencyOk: bool, providerOk: bool, payeeOk: bool, swiftOk: bool)
    ensures InDeclarationOrder(PaymentReport(amountOk, currencyOk, providerOk, payeeOk, swiftOk))
  {
    AmountReportInOrder(amountOk, currencyOk, providerOk);
    PayeeReportInOrder(payeeOk, swiftOk);
    OrderedJoin(AmountReport(amountOk, currencyOk, providerOk), PayeeReport(payeeOk, swiftOk), 3);
  }

  /** The payment error list follows the order of payments.js's chains:
      amount, currency, provider, payee account, SWIFT code. */
  lemma PaymentErrorsInOrder(f: PaymentFields)
    ensures InDeclarationOrder(PaymentErrors(f))
  {
    PaymentReportInOrder(AmountValid(f.amount), f.currency in AllowedCurrencies, f.provider in AllowedProviders,
                         DigitRun(f.payeeAccount, 6, 20), AlnumRun(f.swiftCode, 8, 11));
  }

  lemma IdentityReportInOrder(nameOk: bool, idOk: bool, accountOk: bool)
    ensures InDeclarationOrder(IdentityReport(nameOk, idOk, accountOk))
  {
    var name := Check(nameOk, FullName, "Invalid name");
    var id := Check(idOk, IdNumber, "Invalid ID number");
    OrderedJoin(name, id, 1);
    OrderedJoin(name + id, Check(accountOk, AccountNumber, "Invalid account number"), 2);
  }

  lemma CredentialReportInOrder(userAlnumOk: bool, userLengthOk: bool, passwordOk: bool)
    ensures InDeclarationOrder(CredentialReport(userAlnumOk, userLengthOk, passwordOk))
  {
    var alnum := Check(userAlnumOk, Username, DefaultMessage);
    var length := Check(userLengthOk, Username, DefaultMessage);
    OrderedJoin(alnum, length, 3);
    OrderedJoin(alnum + length, Check(passwordOk, Password, DefaultMessage), 4);
  }

  /** The registration report lists the failing validators in declaration
      order. */
  lemma RegisterReportInOrder(nameOk: bool, idOk: bool, accountOk: bool, userAlnumOk: bool, userLengthOk: bool,
                              passwordOk: bool)
    ensures InDeclarationOrder(RegisterReport(nameOk, idOk, accountOk, userAlnumOk, userLengthOk, passwordOk))
  {
    IdentityReportInOrder(nameOk, idOk, accountOk);
    CredentialReportInOrder(userAlnumOk, userLengthOk, passwordOk);
    OrderedJoin(IdentityReport(nameOk, idOk, accountOk), CredentialReport(userAlnumOk, userLengthOk, passwordOk), 3);
  }

  /** The registration error list follows the order of auth.js's chains:
      full name, ID number, account number, username (both of its
      validators), password. */
  lemma RegisterErrorsInOrder(f: RegisterFields)
    ensures InDeclarationOrder(RegisterErrors(f))
  {
    RegisterReportInOrder(NameValid(f.fullName), IdNumberValid(f.idNumber), DigitRun(f.accountNumber, 6, 20),
                          IsAlphanumeric(f.username), |f.username| >= 4, StrongPassword(f.password));
  }

  /** The idNumber rule accepts strings that are not 10 to 20 digits:
      five digits, and a signed decimal fraction. */
  lemma IdNumberLengthUnchecked()
    ensures IdNumberValid("12345") && !DigitRun("12345", 10, 20)
    ensures IdNumberValid("-1.5") && !DigitRun("-1.5", 10, 20)
  {
    var d := "12345";
    assert d[0] == '1' && d[1] == '2' && d[2] == '3' && d[3] == '4' && d[4] == '5';
    forall i | 0 <= i < |d| ensures IsDigit(d[i]) {
    }
    var t := "-1.5"[1..];
    assert t == "1.5";
    assert t[0] == '1' && t[1] == '.' && t[2] == '5';
    forall i | 0 <= i < |t| ensures IsDigit(t[i]) || t[i] == '.' {
    }
    forall i, j | 0 <= i < j < |t| && t[i] == '.' ensures t[j] != '.' {
      assert i == 1 && j == 2;
    }
  }
}
