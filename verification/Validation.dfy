/**
 Row validation: one CSV row becomes a transaction, a recorded error, or an
 exception that escapes the validator.

 Python's `Decimal` constructor, `datetime.fromisoformat` and the Unicode tables
 behind `str.strip`, `str.upper` and `str.isalpha` are parameters, collected in
 `Python`; everything the validator itself decides is spelled out.
 */
module Validation {
  import opened Common

  // ---------- Exact decimals ----------

  datatype Decimal =
    | Finite(negative: bool, coefficient: nat, exponent: int)
    | Infinity(negative: bool)
    | NotANumber

  function Pow10(n: nat): (p: nat)
    ensures p > 0
  {
    if n == 0 then 1 else 10 * Pow10(n - 1)
  }

  // The real number a finite decimal stands for.
  ghost function Value(d: Decimal): real
    requires d.Finite?
  {
    var magnitude :=
      if d.exponent >= 0 then (d.coefficient * Pow10(d.exponent)) as real
      else d.coefficient as real / Pow10(-d.exponent) as real;
    if d.negative then -magnitude else magnitude
  }

  // The amount column has scale two, so a stored amount is an integer of cents.
  function Cents(d: Decimal): int
    requires d.Finite? && d.exponent >= -2
  {
    var magnitude := d.coefficient * Pow10(d.exponent + 2);
    if d.negative then -magnitude else magnitude
  }

  lemma {:induction false} CentsAreExact(d: Decimal)
    requires d.Finite? && d.exponent >= -2
    ensures Value(d) == Cents(d) as real / 100.0
  {
    if d.exponent >= 0 {
      var p := Pow10(d.exponent);
      assert Pow10(d.exponent + 2) == 10 * Pow10(d.exponent + 1) == 100 * p;
      assert d.coefficient * (100 * p) == 100 * (d.coefficient * p);
    } else if d.exponent == -1 {
      assert Pow10(1) == 10 && Pow10(-d.exponent) == 10;
    } else {
      assert Pow10(2) == 10 * Pow10(1) == 100 && Pow10(0) == 1;
    }
  }

  lemma SignOfValue(d: Decimal)
    requires d.Finite?
    ensures Value(d) > 0.0 <==> !d.negative && d.coefficient > 0
  {
    if d.exponent >= 0 {
      var p := Pow10(d.exponent);
      assert d.coefficient > 0 ==> d.coefficient * p > 0;
      assert d.coefficient == 0 ==> d.coefficient * p == 0;
    } else {
      var p := Pow10(-d.exponent) as real;
      assert p > 0.0;
      assert d.coefficient > 0 ==> d.coefficient as real / p > 0.0;
    }
  }

  // ---------- Rows and results ----------

  // A parsed timestamp: local seconds, and the UTC offset when one was written.
  datatype DateTime = DateTime(local: int, offset: Option<int>)

  datatype Python = Python(
    isSpace: char -> bool,
    upper: char -> string,
    isAlpha: char -> bool,
    decimal: string -> Option<Decimal>,
    fromIsoFormat: string -> Option<DateTime>
  )

  // What a data row holds per column; a short row leaves trailing columns None.
  datatype RawRow = RawRow(
    transactionId: Option<string>,
    accountId: Option<string>,
    kind: Option<string>,
    amount: Option<string>,
    currency: Option<string>,
    timestamp: Option<string>
  )

  datatype TxnType = Credit | Debit

  datatype Txn = Txn(
    id: string,
    account: string,
    kind: TxnType,
    amount: Decimal,
    currency: string,
    instant: int
  )

  // What validation makes of one row. `Invalid` also carries the id the error
  // record shows, when the row has one.
  datatype RowOutcome =
    | Valid(txn: Txn)
    | Invalid(id: Option<string>, error: string)
    | Raises

  const REQUIRED_COLUMNS: set<string> := {"transaction_id", "account_id", "type", "amount", "currency", "timestamp"}

  const COMMON_CURRENCIES: set<string> := {
    "USD", "EUR", "GBP", "INR", "JPY", "AUD", "CAD", "CHF", "CNY", "SGD",
    "AED", "ZAR", "NZD", "SEK", "NOK", "HKD"
  }

  // ---------- Text ----------

  function StripLeft(py: Python, s: string): (r: string)
    ensures r == [] || !py.isSpace(r[0])
    ensures |r| <= |s|
  {
    if s == [] then [] else if py.isSpace(s[0]) then StripLeft(py, s[1..]) else s
  }

  function StripRight(py: Python, s: string): (r: string)
    ensures r == [] || !py.isSpace(r[|r| - 1])
    ensures r <= s
  {
    if s == [] then []
    else if py.isSpace(s[|s| - 1]) then StripRight(py, s[..|s| - 1])
    else s
  }

  function Strip(py: Python, s: string): string {
    StripRight(py, StripLeft(py, s))
  }

  function Upper(py: Python, s: string): string {
    if s == [] then [] else py.upper(s[0]) + Upper(py, s[1..])
  }

  predicate AllAlpha(py: Python, s: string) {
    s != [] && forall i :: 0 <= i < |s| ==> py.isAlpha(s[i])
  }

  function Field(py: Python, column: Option<string>): string {
    Strip(py, column.GetOr(""))
  }

  function Shown(column: Option<string>): string {
    column.GetOr("None")
  }

  function ReplaceZ(s: string): string {
    if s == [] then []
    else (if s[0] == 'Z' then "+00:00" else [s[0]]) + ReplaceZ(s[1..])
  }

  // A missing offset means UTC.
  function ParseTimestamp(py: Python, value: string): Option<int> {
    if value == "" then None
    else
      match py.fromIsoFormat(ReplaceZ(value))
      case None => None
      case Some(dt) => Some(dt.local - dt.offset.GetOr(0))
  }

  function ParseType(s: string): Option<TxnType> {
    if s == "CREDIT" then Some(Credit) else if s == "DEBIT" then Some(Debit) else None
  }

  function TypeName(k: TxnType): string {
    match k
    case Credit => "CREDIT"
    case Debit => "DEBIT"
  }

  // ---------- The validator ----------

  datatype Validated = Accepted(txn: Txn) | Rejected(error: string) | Exception

  function ValidateRow(py: Python, row: RawRow): Validated {
    var id := Field(py, row.transactionId);
    if id == "" then Rejected("transaction_id is required and must be non-empty") else
    var account := Field(py, row.accountId);
    if account == "" then Rejected("account_id is required and must be non-empty") else
    var kind := ParseType(Upper(py, Field(py, row.kind)));
    if kind.None? then
      Rejected("type must be one of ['CREDIT', 'DEBIT'], got '" + Shown(row.kind) + "'") else
    var amountText := Field(py, row.amount);
    var amount := py.decimal(amountText);
    if amount.None? then Rejected("amount must be a valid decimal, got '" + amountText + "'") else
    match amount.value
    case NotANumber => Exception            // ordering a NaN signals InvalidOperation
    case Infinity(true) => Rejected("amount must be greater than zero")
    case Infinity(false) => Exception       // its exponent is the letter 'F', not a number
    case Finite(negative, coefficient, exponent) =>
      if negative || coefficient == 0 then Rejected("amount must be greater than zero") else
      if exponent < -2 then Rejected("amount must not have more than 2 decimal places") else
      ValidateTail(py, row, id, account, kind.value, amount.value)
  }

  function ValidateTail(py: Python, row: RawRow, id: string, account: string, kind: TxnType, amount: Decimal): Validated {
    var currency := Upper(py, Field(py, row.currency));
    if |currency| != 3 || !AllAlpha(py, currency) then
      Rejected("currency must be a 3-letter code, got '" + Shown(row.currency) + "'") else
    if currency !in COMMON_CURRENCIES then
      Rejected("currency '" + currency + "' is not in the supported currency list") else
    var text := Field(py, row.timestamp);
    var instant := ParseTimestamp(py, text);
    if instant.None? then Rejected("timestamp must be a valid ISO-8601 datetime, got '" + text + "'")
    else Accepted(Txn(id, account, kind, amount, currency, instant.value))
  }

  function Classify(py: Python, row: RawRow): RowOutcome {
    match ValidateRow(py, row)
    case Accepted(txn) => Valid(txn)
    case Rejected(error) =>
      var id := Field(py, row.transactionId);
      Invalid(if id == "" then None else Some(id), error)
    case Exception => Raises
  }

  function ClassifyAll(py: Python, rows: seq<RawRow>): (outcomes: seq<RowOutcome>)
    ensures |outcomes| == |rows|
    ensures forall i :: 0 <= i < |rows| ==> outcomes[i] == Classify(py, rows[i])
  {
    seq(|rows|, i requires 0 <= i < |rows| => Classify(py, rows[i]))
  }

  // ---------- What the text operations do ----------

  predicate AllSpace(py: Python, s: string) {
    forall i :: 0 <= i < |s| ==> py.isSpace(s[i])
  }

  lemma {:induction false} StripLeftDropsSpace(py: Python, s: string) returns (dropped: string)
    ensures s == dropped + StripLeft(py, s) && AllSpace(py, dropped)
  {
    if s == [] || !py.isSpace(s[0]) {
      dropped := [];
    } else {
      var more := StripLeftDropsSpace(py, s[1..]);
      dropped := [s[0]] + more;
      assert s == [s[0]] + s[1..];
    }
  }

  lemma {:induction false} StripRightDropsSpace(py: Python, s: string) returns (dropped: string)
    ensures s == StripRight(py, s) + dropped && AllSpace(py, dropped)
  {
    if s == [] || !py.isSpace(s[|s| - 1]) {
      dropped := [];
      assert s == s + [];
    } else {
      var front, last := s[..|s| - 1], s[|s| - 1];
      var more := StripRightDropsSpace(py, front);
      dropped := more + [last];
      assert s == front + [last];
    }
  }

  // A text is its stripped form between spaces, and that begins and ends without one.
  lemma StripIsTrim(py: Python, s: string) returns (left: string, right: string)
    ensures s == left + Strip(py, s) + right && AllSpace(py, left) && AllSpace(py, right)
    ensures Strip(py, s) == [] || (!py.isSpace(Strip(py, s)[0]) && !py.isSpace(Strip(py, s)[|Strip(py, s)| - 1]))
  {
    left := StripLeftDropsSpace(py, s);
    right := StripRightDropsSpace(py, StripLeft(py, s));
    var kept, r := StripLeft(py, s), Strip(py, s);
    assert kept == r + right;
    if r != [] {
      assert r[0] == kept[0];
    }
  }

  // A missing column counts as empty, and one that is there by what is between its spaces.
  lemma FieldIsTrimmed(py: Python, column: Option<string>) returns (left: string, right: string)
    ensures column.None? ==> Field(py, column) == ""
    ensures column.Some? ==> column.value == left + Field(py, column) + right && AllSpace(py, left) && AllSpace(py, right)
    ensures Field(py, column) != "" ==>
              !py.isSpace(Field(py, column)[0]) && !py.isSpace(Field(py, column)[|Field(py, column)| - 1])
  {
    left, right := StripIsTrim(py, column.GetOr(""));
  }

  // Upper-casing and the replacement of Z go character by character.
  lemma {:induction false} UpperAppends(py: Python, s: string, t: string)
    ensures Upper(py, s + t) == Upper(py, s) + Upper(py, t)
    ensures Upper(py, []) == [] && (|s| == 1 ==> Upper(py, s) == py.upper(s[0]))
  {
    if s == [] {
      assert s + t == t;
    } else {
      UpperAppends(py, s[1..], t);
      assert (s + t)[1..] == s[1..] + t;
    }
  }

  lemma {:induction false} ReplaceZAppends(s: string, t: string)
    ensures ReplaceZ(s + t) == ReplaceZ(s) + ReplaceZ(t)
  {
    if s == [] {
      assert s + t == t;
    } else {
      ReplaceZAppends(s[1..], t);
      assert (s + t)[1..] == s[1..] + t;
      var first := if s[0] == 'Z' then "+00:00" else [s[0]];
      assert first + (ReplaceZ(s[1..]) + ReplaceZ(t)) == (first + ReplaceZ(s[1..])) + ReplaceZ(t);
    }
  }

  predicate HasZ(s: string) {
    'Z' in s
  }

  lemma {:induction false} ReplaceZKeepsOthers(s: string)
    ensures !HasZ(s) ==> ReplaceZ(s) == s
  {
    if s != [] {
      ReplaceZKeepsOthers(s[1..]);
      assert s == [s[0]] + s[1..];
    }
  }

  // A timestamp that ends in its only Z is read with the offset of UTC in its place.
  lemma FinalZIsUtc(text: string)
    requires !HasZ(text)
    ensures ReplaceZ(text + "Z") == text + "+00:00"
  {
    ReplaceZAppends(text, "Z");
    ReplaceZKeepsOthers(text);
    assert "Z"[1..] == "";
    assert ReplaceZ("Z") == "+00:00" + ReplaceZ("");
  }

  // ---------- What the validator promises ----------

  predicate NamesOk(py: Python, row: RawRow) {
    Field(py, row.transactionId) != "" && Field(py, row.accountId) != ""
  }

  predicate TypeOk(py: Python, row: RawRow) {
    Upper(py, Field(py, row.kind)) == "CREDIT" || Upper(py, Field(py, row.kind)) == "DEBIT"
  }

  ghost predicate IsPositive(d: Decimal) {
    match d
    case Finite(_, _, _) => Value(d) > 0.0
    case Infinity(negative) => !negative
    case NotANumber => false
  }

  ghost predicate AmountOk(amount: Option<Decimal>) {
    amount.Some? && amount.value.Finite? && IsPositive(amount.value) && amount.value.exponent >= -2
  }

  predicate CurrencyOk(py: Python, row: RawRow) {
    var currency := Upper(py, Field(py, row.currency));
    currency in COMMON_CURRENCIES && |currency| == 3 && forall i :: 0 <= i < 3 ==> py.isAlpha(currency[i])
  }

  predicate TimestampOk(py: Python, row: RawRow) {
    var text := Field(py, row.timestamp);
    text != "" && py.fromIsoFormat(ReplaceZ(text)).Some?
  }

  // A row is accepted if and only if both names are there, the type is one of the two,
  // the amount reads as a positive finite number written with at most two decimal
  // places, the currency is a supported one, and the timestamp reads as one. It raises
  // if and only if names and type pass and the amount reads as something that has no
  // order or no exponent; every other row is rejected.
  lemma AcceptedIff(py: Python, row: RawRow)
    ensures var amount := py.decimal(Field(py, row.amount));
            && (ValidateRow(py, row).Accepted? <==>
                NamesOk(py, row) && TypeOk(py, row) && AmountOk(amount) && CurrencyOk(py, row) && TimestampOk(py, row))
            && (ValidateRow(py, row).Exception? <==>
                && NamesOk(py, row) && TypeOk(py, row)
                && amount.Some? && !amount.value.Finite? && (IsPositive(amount.value) || amount.value.NotANumber?))
  {
    // Nothing here depends on what these say.
    hide Value, Field, Upper, ReplaceZ;
    var amount := py.decimal(Field(py, row.amount));
    if amount.Some? && amount.value.Finite? {
      SignOfValue(amount.value);
    }
  }

  // And it is accepted as the transaction its fields spell: the stripped names, the type
  // and the currency in upper case, the amount as read, and the instant that the local
  // time denotes at its offset, or in UTC when it has none.
  lemma AcceptedAsWritten(py: Python, row: RawRow)
    requires ValidateRow(py, row).Accepted?
    ensures var txn := ValidateRow(py, row).txn;
            && txn.id == Field(py, row.transactionId) && txn.account == Field(py, row.accountId)
            && (txn.kind.Credit? <==> Upper(py, Field(py, row.kind)) == "CREDIT")
            && (txn.kind.Debit? <==> Upper(py, Field(py, row.kind)) == "DEBIT")
            && py.decimal(Field(py, row.amount)) == Some(txn.amount)
            && txn.currency == Upper(py, Field(py, row.currency))
    ensures TimestampOk(py, row)
    ensures var txn, time := ValidateRow(py, row).txn, py.fromIsoFormat(ReplaceZ(Field(py, row.timestamp))).value;
            && (time.offset.None? ==> txn.instant == time.local)
            && (time.offset.Some? ==> txn.instant == time.local - time.offset.value)
  {
    // Nothing here depends on what these say.
    hide Value, Field, Upper, ReplaceZ, AllAlpha;
    AcceptedIff(py, row);
    assert "CREDIT"[0] != "DEBIT"[0];
  }

  // The reasons: of a row whose names or type fail,
  predicate NameOrTypeError(py: Python, row: RawRow, error: string) {
    if Field(py, row.transactionId) == "" then error == "transaction_id is required and must be non-empty"
    else if Field(py, row.accountId) == "" then error == "account_id is required and must be non-empty"
    else error == "type must be one of ['CREDIT', 'DEBIT'], got '" + row.kind.GetOr("None") + "'"
  }

  // of one whose amount does,
  ghost predicate AmountError(py: Python, row: RawRow, error: string) {
    var amount := py.decimal(Field(py, row.amount));
    if amount.None? then error == "amount must be a valid decimal, got '" + Field(py, row.amount) + "'"
    else if !IsPositive(amount.value) then error == "amount must be greater than zero"
    else error == "amount must not have more than 2 decimal places"
  }

  predicate CurrencyError(py: Python, row: RawRow, error: string) {
    var currency := Upper(py, Field(py, row.currency));
    if |currency| == 3 && forall i :: 0 <= i < 3 ==> py.isAlpha(currency[i]) then
      error == "currency '" + currency + "' is not in the supported currency list"
    else error == "currency must be a 3-letter code, got '" + row.currency.GetOr("None") + "'"
  }

  predicate TimestampError(py: Python, row: RawRow, error: string) {
    error == "timestamp must be a valid ISO-8601 datetime, got '" + Field(py, row.timestamp) + "'"
  }

  // The reason given is that of the first check that fails.
  lemma RejectedForFirstFailure(py: Python, row: RawRow)
    requires ValidateRow(py, row).Rejected?
    ensures var error, amount := ValidateRow(py, row).error, py.decimal(Field(py, row.amount));
            if !NamesOk(py, row) || !TypeOk(py, row) then NameOrTypeError(py, row, error)
            else if !AmountOk(amount) then AmountError(py, row, error)
            else if !CurrencyOk(py, row) then CurrencyError(py, row, error)
            else TimestampError(py, row, error)
  {
    // Nothing here depends on what these say.
    hide Value, Field, Upper, ReplaceZ;
    var amount := py.decimal(Field(py, row.amount));
    AcceptedIff(py, row);
    if amount.Some? && amount.value.Finite? {
      SignOfValue(amount.value);
    }
  }

  // What the import makes of a row: an accepted one is valid, one that raises raises, and
  // a rejected one is recorded with its reason and its stripped id, if it has one.
  lemma ClassifiedAs(py: Python, row: RawRow)
    ensures var checked, outcome, id := ValidateRow(py, row), Classify(py, row), Field(py, row.transactionId);
            && (outcome.Valid? <==> checked.Accepted?) && (outcome.Raises? <==> checked.Exception?)
            && (outcome.Valid? ==> outcome.txn == checked.txn)
            && (outcome.Invalid? <==> checked.Rejected?)
            && (outcome.Invalid? ==> outcome.error == checked.error
                                     && (outcome.id.None? <==> id == "") && (outcome.id.Some? ==> outcome.id.value == id))
  {
  }

  // An accepted amount is a positive, whole number of cents; nothing was rounded.
  lemma AcceptedAmountIsExact(py: Python, row: RawRow)
    requires ValidateRow(py, row).Accepted?
    ensures var d := ValidateRow(py, row).txn.amount;
            && d.Finite? && d.exponent >= -2 && Cents(d) > 0
            && Value(d) == Cents(d) as real / 100.0
            && py.decimal(Field(py, row.amount)) == Some(d)
  {
    var d := ValidateRow(py, row).txn.amount;
    CentsAreExact(d);
    assert Cents(d) == d.coefficient * Pow10(d.exponent + 2);
    var p := Pow10(d.exponent + 2);
    assert d.coefficient * p > 0;
  }

  // Facts about the character tables that the fixed-point law needs.
  ghost predicate AsciiUpperIsPlain(py: Python) {
    forall c :: 'A' <= c <= 'Z' ==> py.upper(c) == [c] && !py.isSpace(c)
  }

  ghost predicate IsAsciiUpper(s: string) {
    forall i :: 0 <= i < |s| ==> 'A' <= s[i] <= 'Z'
  }

  lemma StripIsFixed(py: Python, s: string)
    requires s == [] || (!py.isSpace(s[0]) && !py.isSpace(s[|s| - 1]))
    ensures Strip(py, s) == s
  {
  }

  lemma StripTwice(py: Python, s: string)
    ensures Strip(py, Strip(py, s)) == Strip(py, s)
  {
    var left := StripLeft(py, s);
    var r := StripRight(py, left);
    if r != [] {
      assert r[0] == left[0];
    }
    StripIsFixed(py, r);
  }

  lemma {:induction false} UpperIsFixed(py: Python, s: string)
    requires AsciiUpperIsPlain(py) && IsAsciiUpper(s)
    ensures Upper(py, s) == s
  {
    if s == [] {
    } else {
      UpperIsFixed(py, s[1..]);
      assert py.upper(s[0]) == [s[0]];
      assert s == [s[0]] + s[1..];
    }
  }

  // The row written back with the normalised text the validator stored or parsed.
  function Normalised(py: Python, row: RawRow, txn: Txn): RawRow {
    RawRow(Some(txn.id), Some(txn.account), Some(TypeName(txn.kind)),
           Some(Field(py, row.amount)), Some(txn.currency), Some(Field(py, row.timestamp)))
  }

  lemma CurrenciesAreAscii(currency: string)
    requires currency in COMMON_CURRENCIES
    ensures IsAsciiUpper(currency)
  {
  }

  lemma PlainTextIsFixed(py: Python, s: string)
    requires AsciiUpperIsPlain(py) && IsAsciiUpper(s)
    ensures Upper(py, Field(py, Some(s))) == s
  {
    StripIsFixed(py, s);
    UpperIsFixed(py, s);
  }

  lemma FieldTwice(py: Python, column: Option<string>)
    ensures Field(py, Some(Field(py, column))) == Field(py, column)
  {
    StripTwice(py, column.GetOr(""));
  }

  // Whether and as what a row is accepted depends only on its normalised fields.
  lemma SameFieldsAcceptedAlike(py: Python, a: RawRow, b: RawRow)
    requires ValidateRow(py, a).Accepted?
    requires Field(py, b.transactionId) == Field(py, a.transactionId)
    requires Field(py, b.accountId) == Field(py, a.accountId)
    requires Upper(py, Field(py, b.kind)) == Upper(py, Field(py, a.kind))
    requires Field(py, b.amount) == Field(py, a.amount)
    requires Upper(py, Field(py, b.currency)) == Upper(py, Field(py, a.currency))
    requires Field(py, b.timestamp) == Field(py, a.timestamp)
    ensures ValidateRow(py, b) == ValidateRow(py, a)
  {
  }

  lemma AcceptedTexts(py: Python, row: RawRow)
    requires ValidateRow(py, row).Accepted?
    ensures var txn := ValidateRow(py, row).txn;
            && txn.id == Field(py, row.transactionId)
            && txn.account == Field(py, row.accountId)
            && TypeName(txn.kind) == Upper(py, Field(py, row.kind))
            && txn.currency == Upper(py, Field(py, row.currency))
            && txn.currency in COMMON_CURRENCIES
  {
  }

  lemma NormalisedFields(py: Python, row: RawRow, txn: Txn)
    requires AsciiUpperIsPlain(py) && txn.currency in COMMON_CURRENCIES
    requires txn.id == Field(py, row.transactionId) && txn.account == Field(py, row.accountId)
    ensures var again := Normalised(py, row, txn);
            && Field(py, again.transactionId) == Field(py, row.transactionId)
            && Field(py, again.accountId) == Field(py, row.accountId)
            && Upper(py, Field(py, again.kind)) == TypeName(txn.kind)
            && Field(py, again.amount) == Field(py, row.amount)
            && Upper(py, Field(py, again.currency)) == txn.currency
            && Field(py, again.timestamp) == Field(py, row.timestamp)
  {
    FieldTwice(py, row.transactionId);
    FieldTwice(py, row.accountId);
    FieldTwice(py, row.amount);
    FieldTwice(py, row.timestamp);
    PlainTextIsFixed(py, TypeName(txn.kind));
    CurrenciesAreAscii(txn.currency);
    PlainTextIsFixed(py, txn.currency);
  }

  // Revalidating an accepted row in its normalised form gives the same transaction.
  lemma NormalisedIsFixedPoint(py: Python, row: RawRow)
    requires AsciiUpperIsPlain(py)
    requires ValidateRow(py, row).Accepted?
    ensures var txn := ValidateRow(py, row).txn;
            ValidateRow(py, Normalised(py, row, txn)) == Accepted(txn)
  {
    var txn := ValidateRow(py, row).txn;
    AcceptedTexts(py, row);
    NormalisedFields(py, row, txn);
    SameFieldsAcceptedAlike(py, row, Normalised(py, row, txn));
  }
}
