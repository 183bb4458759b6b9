/** The banking-information form: its schema, its default values, the
    payment-method radio group and the `isSaving` flag. */
module BankInfo {
  import opened Common
  import opened Schema

  /** The three values `paymentMethod` may take. */
  datatype PaymentMethod = DirectDeposit | PaperCheck | Other

  function MethodName(m: PaymentMethod): string
  {
    match m
    case DirectDeposit => "direct_deposit"
    case PaperCheck => "check"
    case Other => "other"
  }

  /** The `z.enum([...])` test: which method, if any, a raw value names. */
  function ParseMethod(s: string): (r: Option<PaymentMethod>)
    ensures r.Some? ==> MethodName(r.value) == s
    ensures r.None? ==> forall m :: MethodName(m) != s
  {
    if s == "direct_deposit" then Some(DirectDeposit)
    else if s == "check" then Some(PaperCheck)
    else if s == "other" then Some(Other)
    else None
  }

  /** The form's values as entered (the payment method as the radio's raw
      string). */
  datatype BankInfoValues = BankInfoValues(
    accountHolderName: string,
    accountNumber: string,
    routingNumber: string,
    bankName: string,
    accountType: string,
    taxId: Option<string>,
    paymentMethod: string)

  /** The parsed record. */
  datatype BankInfo = BankInfo(
    accountHolderName: string,
    accountNumber: string,
    routingNumber: string,
    bankName: string,
    accountType: string,
    taxId: Option<string>,
    paymentMethod: PaymentMethod)

  /** The form's `defaultValues`. */
  const Defaults: BankInfoValues :=
    BankInfoValues("", "", "", "", "checking", Some(""), "direct_deposit")

  /** The fields `bankInfoSchema` checks, in declaration order, with their
      messages; the enum's message is the library's own. */
  const Fields: seq<Field> := [
    Field("accountHolderName", Some("Name must be at least 2 characters.")),
    Field("accountNumber", Some("Please enter a valid account number.")),
    Field("routingNumber", Some("Routing number must be at least 9 digits.")),
    Field("bankName", Some("Please enter your bank name.")),
    Field("accountType", Some("Please specify the account type.")),
    Field("paymentMethod", None)]

  /** No two of the schema's fields share a path. */
  lemma FieldsDistinct()
    ensures DistinctPaths(Fields)
  {
    assert DistinctPaths(Fields[5..]);
    assert DistinctPaths(Fields[4..]) by { assert Fields[4..][1..] == Fields[5..]; }
    assert DistinctPaths(Fields[3..]) by { assert Fields[3..][1..] == Fields[4..]; }
    assert DistinctPaths(Fields[2..]) by { assert Fields[2..][1..] == Fields[3..]; }
    assert DistinctPaths(Fields[1..]) by { assert Fields[1..][1..] == Fields[2..]; }
  }

  /** Whether each field's rule holds: `min(n)` on the strings and the enum
      test on the payment method. */
  function Passes(v: BankInfoValues): (r: seq<bool>)
    ensures |r| == |Fields|
  {
    [MinLength(v.accountHolderName, 2), MinLength(v.accountNumber, 8), MinLength(v.routingNumber, 9),
     MinLength(v.bankName, 2), MinLength(v.accountType, 2), ParseMethod(v.paymentMethod).Some?]
  }

  /** The number of failing rules, rule by rule. */
  lemma PassesFailures(v: BankInfoValues)
    ensures FailuresFrom(Passes(v), 0) ==
      Fails(MinLength(v.accountHolderName, 2)) + Fails(MinLength(v.accountNumber, 8)) +
      Fails(MinLength(v.routingNumber, 9)) + Fails(MinLength(v.bankName, 2)) +
      Fails(MinLength(v.accountType, 2)) + Fails(ParseMethod(v.paymentMethod).Some?)
  {
    var oks := Passes(v);
    assert FailuresFrom(oks, 5) == Fails(oks[5]);
    assert FailuresFrom(oks, 4) == Fails(oks[4]) + FailuresFrom(oks, 5);
    assert FailuresFrom(oks, 3) == Fails(oks[3]) + FailuresFrom(oks, 4);
    assert FailuresFrom(oks, 2) == Fails(oks[2]) + FailuresFrom(oks, 3);
    assert FailuresFrom(oks, 1) == Fails(oks[1]) + FailuresFrom(oks, 2);
  }

  /** `bankInfoSchema`'s issues: each field's issue, with its message, is
      reported exactly when that field's rule fails, and there is one issue
      per failing rule and no other. */
  function Issues(v: BankInfoValues): (r: seq<Issue>)
    ensures Issue("accountHolderName", Some("Name must be at least 2 characters.")) in r <==>
      !MinLength(v.accountHolderName, 2)
    ensures Issue("accountNumber", Some("Please enter a valid account number.")) in r <==>
      !MinLength(v.accountNumber, 8)
    ensures Issue("routingNumber", Some("Routing number must be at least 9 digits.")) in r <==>
      !MinLength(v.routingNumber, 9)
    ensures Issue("bankName", Some("Please enter your bank name.")) in r <==> !MinLength(v.bankName, 2)
    ensures Issue("accountType", Some("Please specify the account type.")) in r <==> !MinLength(v.accountType, 2)
    ensures Issue("paymentMethod", None) in r <==> ParseMethod(v.paymentMethod).None?
    ensures |r| ==
      Fails(MinLength(v.accountHolderName, 2)) + Fails(MinLength(v.accountNumber, 8)) +
      Fails(MinLength(v.routingNumber, 9)) + Fails(MinLength(v.bankName, 2)) +
      Fails(MinLength(v.accountType, 2)) + Fails(ParseMethod(v.paymentMethod).Some?)
  {
    var oks := Passes(v);
    FieldsDistinct();
    PassesFailures(v);
    CollectReports(oks, Fields, 0);
    CollectReports(oks, Fields, 1);
    CollectReports(oks, Fields, 2);
    CollectReports(oks, Fields, 3);
    CollectReports(oks, Fields, 4);
    CollectReports(oks, Fields, 5);
    Collect(oks, Fields)
  }

  /** Parsing with `bankInfoSchema`: accepted exactly when the holder name,
      bank name and account type have 2 or more characters, the account
      number 8 or more, the routing number 9 or more (of any kind), and the
      payment method is one of the three names; the tax id is not
      constrained. The parsed record carries the same fields and the named
      method. */
  function Validate(v: BankInfoValues): (r: Result<BankInfo>)
    ensures r.Ok? <==>
      MinLength(v.accountHolderName, 2) && MinLength(v.accountNumber, 8) &&
      MinLength(v.routingNumber, 9) && MinLength(v.bankName, 2) &&
      MinLength(v.accountType, 2) &&
      (v.paymentMethod == "direct_deposit" || v.paymentMethod == "check" || v.paymentMethod == "other")
    ensures r.Ok? ==>
      r.value.accountHolderName == v.accountHolderName && r.value.accountNumber == v.accountNumber &&
      r.value.routingNumber == v.routingNumber && r.value.bankName == v.bankName &&
      r.value.accountType == v.accountType && r.value.taxId == v.taxId &&
      MethodName(r.value.paymentMethod) == v.paymentMethod
  {
    var issues := Issues(v);
    if issues == [] then
      Ok(BankInfo(v.accountHolderName, v.accountNumber, v.routingNumber, v.bankName,
        v.accountType, v.taxId, ParseMethod(v.paymentMethod).value))
    else Err(issues)
  }

  /** The tax id may be absent or any string. */
  lemma TaxIdFree(v: BankInfoValues, taxId: Option<string>)
    ensures Validate(v.(taxId := taxId)).Ok? == Validate(v).Ok?
  {
  }

  /** Only the length of the routing number is checked: nine letters pass. */
  lemma RoutingNumberLettersAccepted()
    ensures Validate(BankInfoValues("Jo Smith", "12345678", "abcdefghi", "Acme Bank",
      "checking", None, "check")).Ok?
  {
    MinLengthOfLength("Jo Smith", 2);
    MinLengthOfLength("12345678", 8);
    MinLengthOfLength("abcdefghi", 9);
    MinLengthOfLength("Acme Bank", 2);
    MinLengthOfLength("checking", 2);
  }

  /** Which of the defaults' fields fail. */
  lemma DefaultFailures()
    ensures Failed([false, false, false, false, true, true], Fields) ==
      ["accountHolderName", "accountNumber", "routingNumber", "bankName"]
  {
  }

  /** The defaults' account type and payment method meet their own rules,
      but the record as a whole is rejected, exactly for the four empty
      fields. */
  lemma DefaultsRejected()
    ensures MinLength(Defaults.accountType, 2)
    ensures ParseMethod(Defaults.paymentMethod) == Some(DirectDeposit)
    ensures Validate(Defaults).Err?
    ensures Paths(Validate(Defaults).issues) ==
      ["accountHolderName", "accountNumber", "routingNumber", "bankName"]
  {
    MinLengthOfLength("", 2);
    MinLengthOfLength("", 8);
    MinLengthOfLength("", 9);
    MinLengthOfLength("checking", 2);
    var oks := Passes(Defaults);
    assert oks == [false, false, false, false, true, true];
    CollectPaths(oks, Fields);
    DefaultFailures();
  }

  /** `checked={field.value === "<option>"}` on each of the three radios. */
  predicate Checked(fieldValue: string, option: PaymentMethod)
  {
    fieldValue == MethodName(option)
  }

  /** How many of the three radios are checked. */
  function CheckedCount(fieldValue: string): nat
  {
    (if Checked(fieldValue, DirectDeposit) then 1 else 0) +
    (if Checked(fieldValue, PaperCheck) then 1 else 0) +
    (if Checked(fieldValue, Other) then 1 else 0)
  }

  /** A valid payment method checks exactly one radio, the one it names; any
      other value checks none. */
  lemma ExactlyOneChecked(fieldValue: string)
    ensures CheckedCount(fieldValue) == if ParseMethod(fieldValue).Some? then 1 else 0
    ensures forall m :: Checked(fieldValue, m) <==> ParseMethod(fieldValue) == Some(m)
  {
  }

  /** The component's `isSaving` state. */
  class BankInfoForm {
    var isSaving: bool

    constructor ()
      ensures !isSaving
    {
      isSaving := false;
    }

    /** Pressing "Save Banking Information": the button is disabled while
        saving; otherwise `onSubmit` runs only for a valid record, raising
        `isSaving`. */
    method Submit(v: BankInfoValues) returns (accepted: bool)
      modifies this
      ensures accepted <==> !old(isSaving) && Validate(v).Ok?
      ensures isSaving == (old(isSaving) || accepted)
    {
      accepted := !isSaving && Validate(v).Ok?;
      if accepted {
        isSaving := true;
      }
    }

    /** The delayed completion of `onSubmit`: lowers `isSaving`. */
    method SaveFinished()
      modifies this
      ensures !isSaving
    {
      isSaving := false;
    }
  }
}
