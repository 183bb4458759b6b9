/** The personal-information form: its schema, its default values and the
    `isSaving` flag raised while a submission is in flight. */
module PersonalInfo {
  import opened Common
  import opened Schema

  datatype EmergencyContact = EmergencyContact(name: string, relationship: string, phone: string)

  datatype PersonalInfoValues = PersonalInfoValues(
    fullName: string,
    email: string,
    phone: string,
    dateOfBirth: Option<string>,
    address: string,
    emergencyContact: EmergencyContact)

  /** The form's `defaultValues`: every field empty. */
  const Defaults: PersonalInfoValues :=
    PersonalInfoValues("", "", "", Some(""), "", EmergencyContact("", "", ""))

  /** The fields `personalInfoSchema` checks, in declaration order, with
      their messages. */
  const Fields: seq<Field> := [
    Field("fullName", Some("Name must be at least 2 characters.")),
    Field("email", Some("Please enter a valid email address.")),
    Field("phone", Some("Please enter a valid phone number.")),
    Field("address", Some("Please enter your full address.")),
    Field("emergencyContact.name", Some("Name must be at least 2 characters.")),
    Field("emergencyContact.relationship", Some("Please specify the relationship.")),
    Field("emergencyContact.phone", Some("Please enter a valid phone number."))]

  /** No two of the schema's fields share a path. */
  lemma FieldsDistinct()
    ensures DistinctPaths(Fields)
  {
    assert DistinctPaths(Fields[6..]);
    assert DistinctPaths(Fields[5..]) by { assert Fields[5..][1..] == Fields[6..]; }
    assert DistinctPaths(Fields[4..]) by { assert Fields[4..][1..] == Fields[5..]; }
    assert DistinctPaths(Fields[3..]) by { assert Fields[3..][1..] == Fields[4..]; }
    assert DistinctPaths(Fields[2..]) by { assert Fields[2..][1..] == Fields[3..]; }
    assert DistinctPaths(Fields[1..]) by { assert Fields[1..][1..] == Fields[2..]; }
  }

  /** Whether each field's rule holds: `min(n)` on the strings, and for the
      e-mail the validation library's own pattern, passed in as `isEmail`. */
  function Passes(v: PersonalInfoValues, isEmail: string -> bool): (r: seq<bool>)
    ensures |r| == |Fields|
  {
    [MinLength(v.fullName, 2), isEmail(v.email), MinLength(v.phone, 10), MinLength(v.address, 5),
     MinLength(v.emergencyContact.name, 2), MinLength(v.emergencyContact.relationship, 2),
     MinLength(v.emergencyContact.phone, 10)]
  }

  /** The number of failing rules, rule by rule. */
  lemma PassesFailures(v: PersonalInfoValues, isEmail: string -> bool)
    ensures FailuresFrom(Passes(v, isEmail), 0) ==
      Fails(MinLength(v.fullName, 2)) + Fails(isEmail(v.email)) + Fails(MinLength(v.phone, 10)) +
      Fails(MinLength(v.address, 5)) + Fails(MinLength(v.emergencyContact.name, 2)) +
      Fails(MinLength(v.emergencyContact.relationship, 2)) + Fails(MinLength(v.emergencyContact.phone, 10))
  {
    var oks := Passes(v, isEmail);
    assert FailuresFrom(oks, 6) == Fails(oks[6]);
    assert FailuresFrom(oks, 5) == Fails(oks[5]) + FailuresFrom(oks, 6);
    assert FailuresFrom(oks, 4) == Fails(oks[4]) + FailuresFrom(oks, 5);
    assert FailuresFrom(oks, 3) == Fails(oks[3]) + FailuresFrom(oks, 4);
    assert FailuresFrom(oks, 2) == Fails(oks[2]) + FailuresFrom(oks, 3);
    assert FailuresFrom(oks, 1) == Fails(oks[1]) + FailuresFrom(oks, 2);
  }

  /** `personalInfoSchema`'s issues: each field's issue, with its message, is
      reported exactly when that field's rule fails, and there is one issue
      per failing rule and no other. */
  function Issues(v: PersonalInfoValues, isEmail: string -> bool): (r: seq<Issue>)
    ensures Issue("fullName", Some("Name must be at least 2 characters.")) in r <==> !MinLength(v.fullName, 2)
    ensures Issue("email", Some("Please enter a valid email address.")) in r <==> !isEmail(v.email)
    ensures Issue("phone", Some("Please enter a valid phone number.")) in r <==> !MinLength(v.phone, 10)
    ensures Issue("address", Some("Please enter your full address.")) in r <==> !MinLength(v.address, 5)
    ensures Issue("emergencyContact.name", Some("Name must be at least 2 characters.")) in r <==>
      !MinLength(v.emergencyContact.name, 2)
    ensures Issue("emergencyContact.relationship", Some("Please specify the relationship.")) in r <==>
      !MinLength(v.emergencyContact.relationship, 2)
    ensures Issue("emergencyContact.phone", Some("Please enter a valid phone number.")) in r <==>
      !MinLength(v.emergencyContact.phone, 10)
    ensures |r| ==
      Fails(MinLength(v.fullName, 2)) + Fails(isEmail(v.email)) + Fails(MinLength(v.phone, 10)) +
      Fails(MinLength(v.address, 5)) + Fails(MinLength(v.emergencyContact.name, 2)) +
      Fails(MinLength(v.emergencyContact.relationship, 2)) + Fails(MinLength(v.emergencyContact.phone, 10))
  {
    var oks := Passes(v, isEmail);
    FieldsDistinct();
    PassesFailures(v, isEmail);
    CollectReports(oks, Fields, 0);
    CollectReports(oks, Fields, 1);
    CollectReports(oks, Fields, 2);
    CollectReports(oks, Fields, 3);
    CollectReports(oks, Fields, 4);
    CollectReports(oks, Fields, 5);
    CollectReports(oks, Fields, 6);
    Collect(oks, Fields)
  }

  /** Parsing a record with `personalInfoSchema`: accepted exactly when the
      full name has 2 or more characters, the e-mail is an address, both phone
      numbers have 10 or more, the address 5 or more, and the contact's name
      and relationship 2 or more; the date of birth is not constrained. An
      accepted record is returned as it was given. */
  function Validate(v: PersonalInfoValues, isEmail: string -> bool): (r: Result<PersonalInfoValues>)
    ensures r.Ok? <==>
      MinLength(v.fullName, 2) && isEmail(v.email) && MinLength(v.phone, 10) &&
      MinLength(v.address, 5) && MinLength(v.emergencyContact.name, 2) &&
      MinLength(v.emergencyContact.relationship, 2) && MinLength(v.emergencyContact.phone, 10)
    ensures r.Ok? ==> r.value == v
  {
    Outcome(Issues(v, isEmail), v)
  }

  /** The date of birth may be absent or any string: it never decides the
      outcome. */
  lemma DateOfBirthFree(v: PersonalInfoValues, dob: Option<string>, isEmail: string -> bool)
    ensures Validate(v.(dateOfBirth := dob), isEmail).Ok? == Validate(v, isEmail).Ok?
  {
  }

  /** Which of the defaults' fields fail, depending on what the e-mail rule
      says of the empty string. */
  lemma DefaultFailures(emailOk: bool)
    ensures Failed([false, emailOk, false, false, false, false, false], Fields) ==
      ["fullName"] + (if emailOk then [] else ["email"]) +
      ["phone", "address", "emergencyContact.name", "emergencyContact.relationship", "emergencyContact.phone"]
  {
    if emailOk {
      assert Failed([false, true, false, false, false, false, false], Fields) ==
        ["fullName", "phone", "address", "emergencyContact.name", "emergencyContact.relationship",
         "emergencyContact.phone"];
    } else {
      assert Failed([false, false, false, false, false, false, false], Fields) ==
        ["fullName", "email", "phone", "address", "emergencyContact.name", "emergencyContact.relationship",
         "emergencyContact.phone"];
    }
  }

  /** The empty defaults are rejected, whatever the e-mail rule says of the
      empty string, with an issue under each of the six length rules. */
  lemma DefaultsRejected(isEmail: string -> bool)
    ensures Validate(Defaults, isEmail).Err?
    ensures Paths(Validate(Defaults, isEmail).issues) ==
      ["fullName"] + (if isEmail("") then [] else ["email"]) +
      ["phone", "address", "emergencyContact.name", "emergencyContact.relationship", "emergencyContact.phone"]
  {
    MinLengthOfLength("", 2);
    MinLengthOfLength("", 5);
    MinLengthOfLength("", 10);
    var oks := Passes(Defaults, isEmail);
    assert oks == [false, isEmail(""), false, false, false, false, false];
    CollectPaths(oks, Fields);
    DefaultFailures(isEmail(""));
  }

  /** The component's `isSaving` state. */
  class PersonalInfoForm {
    var isSaving: bool

    constructor ()
      ensures !isSaving
    {
      isSaving := false;
    }

    /** Pressing "Save Information": the button is disabled while saving;
        otherwise the form is validated and `onSubmit` runs only for a valid
        record, raising `isSaving`. */
    method Submit(v: PersonalInfoValues, isEmail: string -> bool) returns (accepted: bool)
      modifies this
      ensures accepted <==> !old(isSaving) && Validate(v, isEmail).Ok?
      ensures isSaving == (old(isSaving) || accepted)
    {
      accepted := !isSaving && Validate(v, isEmail).Ok?;
      if accepted {
        isSaving := true;
      }
    }

    /** The delayed completion of `onSubmit`: lowers `isSaving`. */
    method SaveFinished()
      modifies this
      ensures !isSaving
    {
      isSaving := false;
    }
  }
}
