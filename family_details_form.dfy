/** The family-details form: the family-member schema, the main form schema,
    the list of family members with its add and remove handlers, and the
    `isComplete` toggle. */
module FamilyDetails {
  import opened Common
  import opened Schema

  // ---------------------------------------------------------------------------
  // familyMemberSchema

  /** A family member as entered in the dialog; `isDependent` may be left
      out. */
  datatype FamilyMemberInput = FamilyMemberInput(
    relationship: string,
    firstName: string,
    lastName: string,
    dateOfBirth: string,
    isDependent: Option<bool>)

  /** A parsed family member. */
  datatype FamilyMember = FamilyMember(
    relationship: string,
    firstName: string,
    lastName: string,
    dateOfBirth: string,
    isDependent: bool)

  /** The dialog's `defaultValues`. */
  const MemberDefaults: FamilyMemberInput := FamilyMemberInput("", "", "", "", Some(false))

  /** The fields `familyMemberSchema` checks, in declaration order, with
      their messages. */
  const MemberFields: seq<Field> := [
    Field("firstName", Some("First name must be at least 2 characters.")),
    Field("lastName", Some("Last name must be at least 2 characters.")),
    Field("dateOfBirth", Some("Date of birth must be in the past"))]

  /** Whether each member field's rule holds; whether a date lies before the
      current wall-clock time is passed in as `inPast`. */
  function MemberPasses(m: FamilyMemberInput, inPast: string -> bool): (r: seq<bool>)
    ensures |r| == |MemberFields|
  {
    [MinLength(m.firstName, 2), MinLength(m.lastName, 2), inPast(m.dateOfBirth)]
  }

  /** `familyMemberSchema`'s issues: each field's issue, with its message, is
      reported exactly when that field's rule fails, and there is one issue
      per failing rule and no other. */
  function MemberIssues(m: FamilyMemberInput, inPast: string -> bool): (r: seq<Issue>)
    ensures Issue("firstName", Some("First name must be at least 2 characters.")) in r <==>
      !MinLength(m.firstName, 2)
    ensures Issue("lastName", Some("Last name must be at least 2 characters.")) in r <==>
      !MinLength(m.lastName, 2)
    ensures Issue("dateOfBirth", Some("Date of birth must be in the past")) in r <==> !inPast(m.dateOfBirth)
    ensures |r| == Fails(MinLength(m.firstName, 2)) + Fails(MinLength(m.lastName, 2)) + Fails(inPast(m.dateOfBirth))
  {
    var oks := MemberPasses(m, inPast);
    assert DistinctPaths(MemberFields[1..]) by { assert MemberFields[1..][1..] == MemberFields[2..]; }
    assert FailuresFrom(oks, 2) == Fails(oks[2]);
    assert FailuresFrom(oks, 1) == Fails(oks[1]) + FailuresFrom(oks, 2);
    CollectReports(oks, MemberFields, 0);
    CollectReports(oks, MemberFields, 1);
    CollectReports(oks, MemberFields, 2);
    Collect(oks, MemberFields)
  }

  /** Parsing a family member: accepted exactly when the first and last names
      have 2 or more characters and the date of birth is in the past; the
      relationship may be any string. The result keeps the entered fields and
      takes `isDependent` as given, or false when it was left out. */
  function ValidateMember(m: FamilyMemberInput, inPast: string -> bool): (r: Result<FamilyMember>)
    ensures r.Ok? <==> MinLength(m.firstName, 2) && MinLength(m.lastName, 2) && inPast(m.dateOfBirth)
    ensures r.Ok? ==>
      r.value.relationship == m.relationship && r.value.firstName == m.firstName &&
      r.value.lastName == m.lastName && r.value.dateOfBirth == m.dateOfBirth
    ensures r.Ok? ==> (r.value.isDependent <==> m.isDependent == Some(true))
  {
    var isDependent := match m.isDependent case Some(b) => b case None => false;
    Outcome(MemberIssues(m, inPast),
      FamilyMember(m.relationship, m.firstName, m.lastName, m.dateOfBirth, isDependent))
  }

  /** The empty dialog is rejected, whatever the clock says. */
  lemma MemberDefaultsRejected(inPast: string -> bool)
    ensures ValidateMember(MemberDefaults, inPast).Err?
  {
  }

  // ---------------------------------------------------------------------------
  // formSchema

  datatype EmergencyContact = EmergencyContact(name: string, relationship: string, phone: string)

  datatype FamilyDetailsValues = FamilyDetailsValues(
    maritalStatus: string,
    hasChildren: string,
    childrenCount: Option<string>,
    emergencyContact: EmergencyContact)

  /** The form's `defaultValues`. */
  const Defaults: FamilyDetailsValues :=
    FamilyDetailsValues("", "no", Some("0"), EmergencyContact("", "", ""))

  /** The fields `formSchema` checks, in declaration order, with their
      messages; the enum's message is the library's own. */
  const Fields: seq<Field> := [
    Field("hasChildren", None),
    Field("emergencyContact.name", Some("Contact name must be at least 2 characters.")),
    Field("emergencyContact.phone", Some("Please enter a valid phone number"))]

  /** Whether each field's rule holds: the enum test on `hasChildren` and
      `min(n)` on the contact's name and phone. */
  function Passes(v: FamilyDetailsValues): (r: seq<bool>)
    ensures |r| == |Fields|
  {
    [v.hasChildren == "yes" || v.hasChildren == "no", MinLength(v.emergencyContact.name, 2),
     MinLength(v.emergencyContact.phone, 10)]
  }

  /** `formSchema`'s issues: each field's issue, with its message, is
      reported exactly when that field's rule fails, and there is one issue
      per failing rule and no other. */
  function Issues(v: FamilyDetailsValues): (r: seq<Issue>)
    ensures Issue("hasChildren", None) in r <==> v.hasChildren != "yes" && v.hasChildren != "no"
    ensures Issue("emergencyContact.name", Some("Contact name must be at least 2 characters.")) in r <==>
      !MinLength(v.emergencyContact.name, 2)
    ensures Issue("emergencyContact.phone", Some("Please enter a valid phone number")) in r <==>
      !MinLength(v.emergencyContact.phone, 10)
    ensures |r| ==
      Fails(v.hasChildren == "yes" || v.hasChildren == "no") +
      Fails(MinLength(v.emergencyContact.name, 2)) + Fails(MinLength(v.emergencyContact.phone, 10))
  {
    var oks := Passes(v);
    assert DistinctPaths(Fields[1..]) by { assert Fields[1..][1..] == Fields[2..]; }
    assert FailuresFrom(oks, 2) == Fails(oks[2]);
    assert FailuresFrom(oks, 1) == Fails(oks[1]) + FailuresFrom(oks, 2);
    CollectReports(oks, Fields, 0);
    CollectReports(oks, Fields, 1);
    CollectReports(oks, Fields, 2);
    Collect(oks, Fields)
  }

  /** Parsing the main form: accepted exactly when `hasChildren` is "yes" or
      "no", the contact's name has 2 or more characters and the phone 10 or
      more. */
  function Validate(v: FamilyDetailsValues): (r: Result<FamilyDetailsValues>)
    ensures r.Ok? <==>
      (v.hasChildren == "yes" || v.hasChildren == "no") &&
      MinLength(v.emergencyContact.name, 2) && MinLength(v.emergencyContact.phone, 10)
    ensures r.Ok? ==> r.value == v
  {
    Outcome(Issues(v), v)
  }

  /** Marital status, children count and the contact's relationship may be
      any string, the empty one included, and the count may be absent. */
  lemma FreeFields(v: FamilyDetailsValues, marital: string, count: Option<string>, relationship: string)
    ensures Validate(v.(maritalStatus := marital, childrenCount := count,
      emergencyContact := v.emergencyContact.(relationship := relationship))).Ok? == Validate(v).Ok?
  {
  }

  /** The defaults are rejected, for the empty contact name and phone only. */
  lemma DefaultsRejected()
    ensures Validate(Defaults).Err?
    ensures Paths(Validate(Defaults).issues) == ["emergencyContact.name", "emergencyContact.phone"]
  {
    MinLengthOfLength("", 2);
    MinLengthOfLength("", 10);
    var oks := Passes(Defaults);
    assert oks == [true, false, false];
    CollectPaths(oks, Fields);
    assert Failed([true, false, false], Fields) == ["emergencyContact.name", "emergencyContact.phone"];
  }

  // ---------------------------------------------------------------------------
  // Removing a family member

  /** Where `splice(index, 1)` starts on a list of `len` elements: a negative
      index counts from the end (but not before 0), a large one stops at the
      end. */
  function SpliceStart(len: nat, index: int): (k: nat)
    ensures k <= len
    ensures 0 <= index <= len ==> k == index
    ensures index < 0 && len + index >= 0 ==> k == len + index
    ensures len + index < 0 ==> k == 0
    ensures index > len ==> k == len
  {
    if index < 0 then (if len + index < 0 then 0 else len + index)
    else if index > len then len
    else index
  }

  /** The list after `splice(index, 1)`: the element at the start position
      is taken out, if there is one. So one element goes exactly when the
      list is non-empty and the index is below its length (a negative index
      beyond the start still removes the first element), and no element
      appears that was not in the list. */
  function SpliceOne<T>(s: seq<T>, index: int): (r: seq<T>)
    ensures |r| == if s != [] && index < |s| then |s| - 1 else |s|
    ensures forall x :: x in r ==> x in s
  {
    var k := SpliceStart(|s|, index);
    if k < |s| then s[..k] + s[k + 1..] else s
  }

  /** Removing at a position of the list deletes exactly that element: one
      element fewer, the ones before it in place, the ones after it shifted
      down by one. */
  lemma SpliceOneInRange<T>(s: seq<T>, i: int)
    requires 0 <= i < |s|
    ensures |SpliceOne(s, i)| == |s| - 1
    ensures forall j :: 0 <= j < i ==> SpliceOne(s, i)[j] == s[j]
    ensures forall j :: i <= j < |s| - 1 ==> SpliceOne(s, i)[j] == s[j + 1]
    ensures multiset(SpliceOne(s, i)) + multiset{s[i]} == multiset(s)
  {
    assert s == s[..i] + [s[i]] + s[i + 1..];
  }

  /** An index at or beyond the end removes nothing. */
  lemma SpliceOneBeyondEnd<T>(s: seq<T>, i: int)
    requires i >= |s|
    ensures SpliceOne(s, i) == s
  {
  }

  /** Appending a member and then removing at the old length gives back the
      original list. */
  lemma AddThenRemove<T>(s: seq<T>, m: T)
    ensures SpliceOne(s + [m], |s|) == s
  {
    assert (s + [m])[..|s|] == s;
  }

  /** `handleRemoveFamilyMember`'s list work: copy the list (`[...familyMembers]`)
      and `splice(index, 1)` the copy in place. The list passed in is a value
      and is not touched. */
  method RemoveAt<T>(members: seq<T>, index: int) returns (updated: seq<T>)
    ensures updated == SpliceOne(members, index)
  {
    var n := |members|;
    var copy := new T[n](i requires 0 <= i < n => members[i]);
    var k := SpliceStart(n, index);
    if k == n {
      return copy[..];
    }
    var j := k;
    while j < n - 1
      invariant k <= j <= n - 1
      invariant forall i :: 0 <= i < k ==> copy[i] == members[i]
      invariant forall i :: k <= i < j ==> copy[i] == members[i + 1]
      invariant forall i :: j <= i < n ==> copy[i] == members[i]
    {
      copy[j] := copy[j + 1];
      j := j + 1;
    }
    updated := copy[..n - 1];
    ghost var expected := members[..k] + members[k + 1..];
    assert forall i :: 0 <= i < n - 1 ==> updated[i] == expected[i];
    assert updated == expected;
  }

  // ---------------------------------------------------------------------------
  // The component's state

  /** The `isComplete` and `familyMembers` state of the form. */
  class FamilyDetailsForm {
    var isComplete: bool
    var familyMembers: seq<FamilyMember>

    constructor ()
      ensures !isComplete && familyMembers == []
    {
      isComplete := false;
      familyMembers := [];
    }

    /** Submitting the main form: `onSubmit` runs only for a valid record
        and, once its delay is over, sets `isComplete`. */
    method Submit(v: FamilyDetailsValues) returns (accepted: bool)
      modifies this
      ensures accepted <==> Validate(v).Ok?
      ensures isComplete == (old(isComplete) || accepted)
      ensures familyMembers == old(familyMembers)
    {
      accepted := Validate(v).Ok?;
      if accepted {
        isComplete := true;
      }
    }

    /** "Edit Details" on the completion overlay. */
    method EditDetails()
      modifies this
      ensures !isComplete && familyMembers == old(familyMembers)
    {
      isComplete := false;
    }

    /** Pressing "Add Member" in the dialog, with `current` the values then
        in the main form. `handleAddFamilyMember` is reached only through
        the dialog's validation and appends a valid member at the end. The
        dialog's `<form>` sits inside the main `<form>` in the component
        tree, and the submit event it raises bubbles up to the main form's
        handler too, so the main form is validated as well and, when its
        values are valid, `isComplete` is raised just as `Submit` raises it,
        whether or not the member was accepted. */
    method AddFamilyMember(m: FamilyMemberInput, inPast: string -> bool, current: FamilyDetailsValues)
      returns (accepted: bool)
      modifies this
      ensures accepted <==> ValidateMember(m, inPast).Ok?
      ensures familyMembers ==
        if accepted then old(familyMembers) + [ValidateMember(m, inPast).value] else old(familyMembers)
      ensures isComplete == (old(isComplete) || Validate(current).Ok?)
    {
      var r := ValidateMember(m, inPast);
      accepted := r.Ok?;
      if accepted {
        familyMembers := familyMembers + [r.value];
      }
      var _ := Submit(current);
    }

    /** `handleRemoveFamilyMember(index)`. */
    method RemoveFamilyMember(index: int)
      modifies this
      ensures familyMembers == SpliceOne(old(familyMembers), index)
      ensures isComplete == old(isComplete)
    {
      familyMembers := RemoveAt(familyMembers, index);
    }
  }
}
