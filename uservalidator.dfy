/** The Zod schemas of src/schemas/user.validator.ts: the per-field rules of
    the create and update schemas and their corporate cross-field check.
    Parsing an input record yields the sequence of issues Zod reports, in
    its order: first the fields in declaration order, then the corporate
    check, which Zod skips when a field issue aborted the parse. An absent
    field is `None`; the email format test is the parameter `isEmail`. */
module UserValidator {
  import opened Wrappers
  import opened Text

  /** Zod's issue codes for the rules used here. */
  datatype Code = InvalidType | InvalidValue | TooSmall | TooBig | InvalidFormat | Custom

  /** The field an issue's path names; every path here is one field name. */
  datatype Field = KeycloakId | Email | FirstName | LastName | Phone | UserType | CompanyName | TaxNumber | TaxOffice

  /** One reported issue: its code, the field path and the message. */
  datatype Issue = Issue(code: Code, path: Field, message: Message) {
    /** Type and enum mismatches abort the checks that follow; failed string
        checks and custom issues do not. */
    predicate Fatal() {
      code == InvalidType || code == InvalidValue
    }
  }

  /** The input of the create schema. */
  datatype CreateInput = CreateInput(
    keycloakId: Option<string>,
    email: Option<string>,
    firstName: Option<string>,
    lastName: Option<string>,
    phone: Option<string>,
    userType: Option<string>,
    companyName: Option<string>,
    taxNumber: Option<string>,
    taxOffice: Option<string>)

  /** The input of the update schema; it has no `keycloakId`, so one in the
      raw input is dropped before validation. */
  datatype UpdateInput = UpdateInput(
    email: Option<string>,
    firstName: Option<string>,
    lastName: Option<string>,
    phone: Option<string>,
    userType: Option<string>,
    companyName: Option<string>,
    taxNumber: Option<string>,
    taxOffice: Option<string>)

  /** The two members of `UserTypeEnum`. */
  const Individual := "INDIVIDUAL"
  const Corporate := "CORPORATE"

  /** The messages the schemas report, by name; `Wording` gives their text.
      `ExpectedString` is Zod's own message for a missing required string. */
  datatype Message =
    | ExpectedString | UserTypeInvalid | EmailInvalid | EmailRequired | KeycloakIdRequired
    | FirstNameTooShort | FirstNameTooLong | LastNameTooShort | LastNameTooLong | PhoneInvalid
    | CompanyNameTooShort | CompanyNameTooLong | TaxNumberInvalid | TaxOfficeTooShort
    | CompanyNameRequired | TaxNumberRequired | TaxOfficeRequired

  /** The wording of each message. */
  function Wording(m: Message): string {
    match m
    case ExpectedString => "Invalid input: expected string, received undefined"
    case UserTypeInvalid => "User type must be either INDIVIDUAL or CORPORATE"
    case EmailInvalid => "Please provide a valid email address"
    case EmailRequired => "Email is required"
    case KeycloakIdRequired => "Keycloak ID is required"
    case FirstNameTooShort => "First name must be at least 2 characters"
    case FirstNameTooLong => "First name must be at most 50 characters"
    case LastNameTooShort => "Last name must be at least 2 characters"
    case LastNameTooLong => "Last name must be at most 50 characters"
    case PhoneInvalid => "Please provide a valid phone number"
    case CompanyNameTooShort => "Company name must be at least 2 characters"
    case CompanyNameTooLong => "Company name must be at most 100 characters"
    case TaxNumberInvalid => "Tax number must be 10 or 11 digits"
    case TaxOfficeTooShort => "Tax office must be at least 2 characters"
    case CompanyNameRequired => "Company name is required for corporate users"
    case TaxNumberRequired => "Tax number is required for corporate users"
    case TaxOfficeRequired => "Tax office is required for corporate users"
  }

  // ---------------------------------------------------------------------
  // Field rules

  /** `UserTypeEnum`. */
  predicate IsUserType(s: string) {
    s == Individual || s == Corporate
  }

  /** Issues of failed string checks at `path`: they never abort and are
      never custom. */
  predicate Soft(r: seq<Issue>, path: Field) {
    forall i :: 0 <= i < |r| ==> r[i].path == path && !r[i].Fatal() && r[i].code != Custom
  }

  /** A failing string check yields one issue. */
  function Check(ok: bool, code: Code, path: Field, message: Message): seq<Issue> {
    if ok then [] else [Issue(code, path, message)]
  }

  /** `.min(2).max(50)` for a person's name, with that field's two
      messages; Zod measures `length`, in UTF-16 units. */
  function NameIssues(path: Field, tooShort: Message, tooLong: Message, s: string): (r: seq<Issue>)
    ensures r == [] <==> 2 <= Utf16Length(s) <= 50
    ensures Soft(r, path)
  {
    Check(Utf16Length(s) >= 2, TooSmall, path, tooShort) + Check(Utf16Length(s) <= 50, TooBig, path, tooLong)
  }

  /** The characters of `[0-9\s\-()]`. */
  predicate IsPhoneChar(c: char) {
    IsDigit(c) || IsJsSpace(c) || c == '-' || c == '(' || c == ')'
  }

  /** `[0-9\s\-()]{7,20}$` matching the whole rest of the string. */
  predicate PhoneBody(s: string) {
    7 <= |s| <= 20 && forall i :: 0 <= i < |s| ==> IsPhoneChar(s[i])
  }

  /** `^\+?[0-9\s\-()]{7,20}$`: the optional `+` is first taken and then, on
      failure, left out. */
  predicate IsPhone(s: string) {
    (s != [] && s[0] == '+' && PhoneBody(s[1..])) || PhoneBody(s)
  }

  /** `^\d{10,11}$`. */
  predicate IsTaxNumber(s: string) {
    (|s| == 10 || |s| == 11) && AllDigits(s)
  }

  function PhoneIssues(s: string): (r: seq<Issue>)
    ensures r == [] <==> IsPhone(s)
    ensures Soft(r, Phone)
  {
    Check(IsPhone(s), InvalidFormat, Phone, PhoneInvalid)
  }

  function EmailIssues(isEmail: string -> bool, s: string): (r: seq<Issue>)
    ensures r == [] <==> isEmail(s) && Utf16Length(s) >= 1
    ensures Soft(r, Email)
  {
    Check(isEmail(s), InvalidFormat, Email, EmailInvalid) + Check(Utf16Length(s) >= 1, TooSmall, Email, EmailRequired)
  }

  function CompanyNameIssues(s: string): (r: seq<Issue>)
    ensures r == [] <==> 2 <= Utf16Length(s) <= 100
    ensures Soft(r, CompanyName)
  {
    Check(Utf16Length(s) >= 2, TooSmall, CompanyName, CompanyNameTooShort)
    + Check(Utf16Length(s) <= 100, TooBig, CompanyName, CompanyNameTooLong)
  }

  function TaxNumberIssues(s: string): (r: seq<Issue>)
    ensures r == [] <==> IsTaxNumber(s)
    ensures Soft(r, TaxNumber)
  {
    Check(IsTaxNumber(s), InvalidFormat, TaxNumber, TaxNumberInvalid)
  }

  function TaxOfficeIssues(s: string): (r: seq<Issue>)
    ensures r == [] <==> Utf16Length(s) >= 2
    ensures Soft(r, TaxOffice)
  {
    Check(Utf16Length(s) >= 2, TooSmall, TaxOffice, TaxOfficeTooShort)
  }

  /** A field that must be present: a missing value is an aborting issue,
      a present one is checked. */
  function Required(path: Field, v: Option<string>, missing: Message, checks: seq<Issue>): seq<Issue> {
    if v.None? then [Issue(InvalidType, path, missing)] else checks
  }

  /** An optional field: absent is fine, a present one is checked. */
  function Optional(v: Option<string>, checks: seq<Issue>): seq<Issue> {
    if v.None? then [] else checks
  }

  /** The enum field: anything but the two user types aborts. */
  function UserTypeIssues(v: Option<string>, optional: bool): (r: seq<Issue>)
    ensures r == [] <==> if v.None? then optional else IsUserType(v.value)
    ensures r != [] ==> r == [Issue(InvalidValue, UserType, UserTypeInvalid)]
  {
    if v.None? then (if optional then [] else [Issue(InvalidValue, UserType, UserTypeInvalid)])
    else if IsUserType(v.value) then []
    else [Issue(InvalidValue, UserType, UserTypeInvalid)]
  }

  // ---------------------------------------------------------------------
  // The corporate check of both `superRefine`s

  /** `!value`: absent or the empty string. */
  predicate Falsy(v: Option<string>) {
    v.None? || v.value == ""
  }

  function Missing(v: Option<string>, path: Field, message: Message): seq<Issue> {
    if Falsy(v) then [Issue(Custom, path, message)] else []
  }

  /** The refinement: for a corporate user, one issue per falsy company
      field, in the order company name, tax number, tax office. */
  function CorporateIssues(userType: Option<string>, companyName: Option<string>,
                           taxNumber: Option<string>, taxOffice: Option<string>): seq<Issue>
  {
    if userType == Some(Corporate) then
      Missing(companyName, CompanyName, CompanyNameRequired)
      + Missing(taxNumber, TaxNumber, TaxNumberRequired)
      + Missing(taxOffice, TaxOffice, TaxOfficeRequired)
    else []
  }

  predicate NotFatal(i: Issue) {
    !i.Fatal()
  }

  predicate NotCustom(i: Issue) {
    i.code != Custom
  }

  /** Every issue of `r` has the property `p`. */
  predicate Every(r: seq<Issue>, p: Issue -> bool) {
    forall i :: 0 <= i < |r| ==> p(r[i])
  }

  predicate NoneFatal(issues: seq<Issue>) {
    Every(issues, NotFatal)
  }

  /** The refinement runs only when no field issue aborted. */
  function Refined(fieldIssues: seq<Issue>, refinement: seq<Issue>): seq<Issue> {
    if NoneFatal(fieldIssues) then fieldIssues + refinement else fieldIssues
  }

  /** The issues of all fields, field after field. */
  function Flatten(parts: seq<seq<Issue>>): seq<Issue> {
    if parts == [] then [] else parts[0] + Flatten(parts[1..])
  }

  // ---------------------------------------------------------------------
  // The two schemas

  /** The issues of each field of the create schema, in declaration order. */
  function CreateFieldParts(isEmail: string -> bool, d: CreateInput): seq<seq<Issue>> {
    [ Required(KeycloakId, d.keycloakId, ExpectedString,
               Check(Utf16Length(d.keycloakId.GetOr("")) >= 1, TooSmall, KeycloakId, KeycloakIdRequired)),
      Required(Email, d.email, EmailInvalid, EmailIssues(isEmail, d.email.GetOr(""))),
      Required(FirstName, d.firstName, ExpectedString,
               NameIssues(FirstName, FirstNameTooShort, FirstNameTooLong, d.firstName.GetOr(""))),
      Required(LastName, d.lastName, ExpectedString,
               NameIssues(LastName, LastNameTooShort, LastNameTooLong, d.lastName.GetOr(""))),
      Required(Phone, d.phone, ExpectedString, PhoneIssues(d.phone.GetOr(""))),
      UserTypeIssues(d.userType, false),
      Optional(d.companyName, CompanyNameIssues(d.companyName.GetOr(""))),
      Optional(d.taxNumber, TaxNumberIssues(d.taxNumber.GetOr(""))),
      Optional(d.taxOffice, TaxOfficeIssues(d.taxOffice.GetOr(""))) ]
  }

  function CreateFieldIssues(isEmail: string -> bool, d: CreateInput): seq<Issue> {
    Flatten(CreateFieldParts(isEmail, d))
  }

  /** `createUserValidatorSchema.safeParse(d)`: its issues, `[]` on
      success. */
  function CreateIssues(isEmail: string -> bool, d: CreateInput): seq<Issue> {
    Refined(CreateFieldIssues(isEmail, d), CorporateIssues(d.userType, d.companyName, d.taxNumber, d.taxOffice))
  }

  /** The issues of each field of the update schema, in declaration order. */
  function UpdateFieldParts(isEmail: string -> bool, d: UpdateInput): seq<seq<Issue>> {
    [ Optional(d.email, EmailIssues(isEmail, d.email.GetOr(""))),
      Optional(d.firstName, NameIssues(FirstName, FirstNameTooShort, FirstNameTooLong, d.firstName.GetOr(""))),
      Optional(d.lastName, NameIssues(LastName, LastNameTooShort, LastNameTooLong, d.lastName.GetOr(""))),
      Optional(d.phone, PhoneIssues(d.phone.GetOr(""))),
      UserTypeIssues(d.userType, true),
      Optional(d.companyName, CompanyNameIssues(d.companyName.GetOr(""))),
      Optional(d.taxNumber, TaxNumberIssues(d.taxNumber.GetOr(""))),
      Optional(d.taxOffice, TaxOfficeIssues(d.taxOffice.GetOr(""))) ]
  }

  function UpdateFieldIssues(isEmail: string -> bool, d: UpdateInput): seq<Issue> {
    Flatten(UpdateFieldParts(isEmail, d))
  }

  /** `updateUserValidatorSchema.safeParse(d)`. */
  function UpdateIssues(isEmail: string -> bool, d: UpdateInput): seq<Issue> {
    Refined(UpdateFieldIssues(isEmail, d), CorporateIssues(d.userType, d.companyName, d.taxNumber, d.taxOffice))
  }

  // ---------------------------------------------------------------------
  // Properties

  /** The phone rule read directly: after one optional leading `+`, seven to
      twenty characters, each a digit, whitespace, `-`, `(` or `)`. */
  lemma PhoneRule(s: string)
    ensures IsPhone(s) <==>
      var body := if s != [] && s[0] == '+' then s[1..] else s;
      7 <= |body| <= 20 && forall i :: 0 <= i < |body| ==> IsPhoneChar(body[i])
  {
    if s != [] && s[0] == '+' {
      assert !IsPhoneChar(s[0]);
    }
  }

  /** The fields are clean exactly when every field's own list is empty. */
  lemma {:induction false} FlattenEmpty(parts: seq<seq<Issue>>)
    ensures Flatten(parts) == [] <==> forall k :: 0 <= k < |parts| ==> parts[k] == []
  {
    if parts != [] {
      FlattenEmpty(parts[1..]);
      assert forall k :: 1 <= k < |parts| ==> parts[k] == parts[1..][k - 1];
    }
  }

  /** A property holds of every issue exactly when it holds of every issue of
      every field. */
  lemma {:induction false} FlattenEvery(parts: seq<seq<Issue>>, p: Issue -> bool)
    ensures Every(Flatten(parts), p) <==> forall k :: 0 <= k < |parts| ==> Every(parts[k], p)
  {
    if parts != [] {
      FlattenEvery(parts[1..], p);
      var a, b := parts[0], Flatten(parts[1..]);
      if Every(a + b, p) {
        forall i | 0 <= i < |a| ensures p(a[i]) {
          assert a[i] == (a + b)[i];
        }
        forall i | 0 <= i < |b| ensures p(b[i]) {
          assert b[i] == (a + b)[|a| + i];
        }
      }
      assert forall k :: 1 <= k < |parts| ==> parts[k] == parts[1..][k - 1];
    }
  }

  /** The refinement's demand: a corporate user names all three company
      fields. */
  predicate CorporateComplete(userType: Option<string>, companyName: Option<string>,
                              taxNumber: Option<string>, taxOffice: Option<string>) {
    userType == Some(Corporate) ==> !Falsy(companyName) && !Falsy(taxNumber) && !Falsy(taxOffice)
  }

  /** What the create schema's field rules accept, field by field. */
  predicate CreateFieldsValid(isEmail: string -> bool, d: CreateInput) {
    && d.keycloakId.Some? && Utf16Length(d.keycloakId.value) >= 1
    && d.email.Some? && isEmail(d.email.value) && Utf16Length(d.email.value) >= 1
    && d.firstName.Some? && 2 <= Utf16Length(d.firstName.value) <= 50
    && d.lastName.Some? && 2 <= Utf16Length(d.lastName.value) <= 50
    && d.phone.Some? && IsPhone(d.phone.value)
    && d.userType.Some? && IsUserType(d.userType.value)
    && (d.companyName.Some? ==> 2 <= Utf16Length(d.companyName.value) <= 100)
    && (d.taxNumber.Some? ==> IsTaxNumber(d.taxNumber.value))
    && (d.taxOffice.Some? ==> Utf16Length(d.taxOffice.value) >= 2)
  }

  /** What the create schema accepts. */
  predicate CreateValid(isEmail: string -> bool, d: CreateInput) {
    CreateFieldsValid(isEmail, d) && CorporateComplete(d.userType, d.companyName, d.taxNumber, d.taxOffice)
  }

  /** What the update schema's field rules accept: every present field obeys
      its rule. */
  predicate UpdateFieldsValid(isEmail: string -> bool, d: UpdateInput) {
    && (d.email.Some? ==> isEmail(d.email.value) && Utf16Length(d.email.value) >= 1)
    && (d.firstName.Some? ==> 2 <= Utf16Length(d.firstName.value) <= 50)
    && (d.lastName.Some? ==> 2 <= Utf16Length(d.lastName.value) <= 50)
    && (d.phone.Some? ==> IsPhone(d.phone.value))
    && (d.userType.Some? ==> IsUserType(d.userType.value))
    && (d.companyName.Some? ==> 2 <= Utf16Length(d.companyName.value) <= 100)
    && (d.taxNumber.Some? ==> IsTaxNumber(d.taxNumber.value))
    && (d.taxOffice.Some? ==> Utf16Length(d.taxOffice.value) >= 2)
  }

  /** What the update schema accepts. */
  predicate UpdateValid(isEmail: string -> bool, d: UpdateInput) {
    UpdateFieldsValid(isEmail, d) && CorporateComplete(d.userType, d.companyName, d.taxNumber, d.taxOffice)
  }

  lemma RefinedEmpty(fieldIssues: seq<Issue>, refinement: seq<Issue>)
    ensures Refined(fieldIssues, refinement) == [] <==> fieldIssues == [] && refinement == []
  {
  }

  /** The refinement is silent exactly when its demand is met. */
  lemma CorporateEmpty(userType: Option<string>, companyName: Option<string>,
                       taxNumber: Option<string>, taxOffice: Option<string>)
    ensures CorporateIssues(userType, companyName, taxNumber, taxOffice) == []
            <==> CorporateComplete(userType, companyName, taxNumber, taxOffice)
  {
  }

  /** The create schema's field rules are silent exactly for valid fields. */
  lemma CreateFieldsAccept(isEmail: string -> bool, d: CreateInput)
    ensures CreateFieldIssues(isEmail, d) == [] <==> CreateFieldsValid(isEmail, d)
  {
    var parts := CreateFieldParts(isEmail, d);
    FlattenEmpty(parts);
    assert parts[0] == [] <==> d.keycloakId.Some? && Utf16Length(d.keycloakId.value) >= 1;
    assert parts[1] == [] <==> d.email.Some? && isEmail(d.email.value) && Utf16Length(d.email.value) >= 1;
    assert parts[2] == [] <==> d.firstName.Some? && 2 <= Utf16Length(d.firstName.value) <= 50;
    assert parts[3] == [] <==> d.lastName.Some? && 2 <= Utf16Length(d.lastName.value) <= 50;
    assert parts[4] == [] <==> d.phone.Some? && IsPhone(d.phone.value);
    assert parts[5] == [] <==> d.userType.Some? && IsUserType(d.userType.value);
    assert (forall k :: 0 <= k < |parts| ==> parts[k] == [])
       <==> parts[0] == [] && parts[1] == [] && parts[2] == [] && parts[3] == [] && parts[4] == []
            && parts[5] == [] && parts[6] == [] && parts[7] == [] && parts[8] == [];
  }

  /** The create schema reports no issue exactly for valid input. */
  lemma CreateAccepts(isEmail: string -> bool, d: CreateInput)
    ensures CreateIssues(isEmail, d) == [] <==> CreateValid(isEmail, d)
  {
    CreateFieldsAccept(isEmail, d);
    CorporateEmpty(d.userType, d.companyName, d.taxNumber, d.taxOffice);
    RefinedEmpty(CreateFieldIssues(isEmail, d), CorporateIssues(d.userType, d.companyName, d.taxNumber, d.taxOffice));
  }

  /** The update schema's field rules are silent exactly for valid fields. */
  lemma UpdateFieldsAccept(isEmail: string -> bool, d: UpdateInput)
    ensures UpdateFieldIssues(isEmail, d) == [] <==> UpdateFieldsValid(isEmail, d)
  {
    var parts := UpdateFieldParts(isEmail, d);
    FlattenEmpty(parts);
    assert (forall k :: 0 <= k < |parts| ==> parts[k] == [])
       <==> parts[0] == [] && parts[1] == [] && parts[2] == [] && parts[3] == [] && parts[4] == []
            && parts[5] == [] && parts[6] == [] && parts[7] == [];
  }

  /** The update schema reports no issue exactly for valid input; in
      particular the empty object passes. */
  lemma UpdateAccepts(isEmail: string -> bool, d: UpdateInput)
    ensures UpdateIssues(isEmail, d) == [] <==> UpdateValid(isEmail, d)
    ensures UpdateIssues(isEmail, UpdateInput(None, None, None, None, None, None, None, None)) == []
    ensures d.userType != Some(Corporate) ==> UpdateIssues(isEmail, d) == UpdateFieldIssues(isEmail, d)
  {
    UpdateFieldsAccept(isEmail, d);
    CorporateEmpty(d.userType, d.companyName, d.taxNumber, d.taxOffice);
    RefinedEmpty(UpdateFieldIssues(isEmail, d), CorporateIssues(d.userType, d.companyName, d.taxNumber, d.taxOffice));
    var e := UpdateInput(None, None, None, None, None, None, None, None);
    UpdateFieldsAccept(isEmail, e);
    CorporateEmpty(e.userType, e.companyName, e.taxNumber, e.taxOffice);
    RefinedEmpty(UpdateFieldIssues(isEmail, e), CorporateIssues(e.userType, e.companyName, e.taxNumber, e.taxOffice));
  }

  /** Position of a company field in the order the refinement checks them. */
  function CompanyFieldRank(path: Field): nat {
    match path
    case CompanyName => 0
    case TaxNumber => 1
    case _ => 2
  }


  /** For a corporate user the refinement reports each falsy company field
      once, at that field's path, in the order company name, tax number, tax
      office, and nothing else. */
  lemma CorporateCheck(companyName: Option<string>, taxNumber: Option<string>, taxOffice: Option<string>)
    ensures var r := CorporateIssues(Some(Corporate), companyName, taxNumber, taxOffice);
      && |r| == (if Falsy(companyName) then 1 else 0) + (if Falsy(taxNumber) then 1 else 0)
                + (if Falsy(taxOffice) then 1 else 0)
      && (forall i :: 0 <= i < |r| ==> r[i].code == Custom)
      && (forall i, j :: 0 <= i < j < |r| ==> CompanyFieldRank(r[i].path) < CompanyFieldRank(r[j].path))
      && (exists i :: 0 <= i < |r| && r[i].path == CompanyName) == Falsy(companyName)
      && (exists i :: 0 <= i < |r| && r[i].path == TaxNumber) == Falsy(taxNumber)
      && (exists i :: 0 <= i < |r| && r[i].path == TaxOffice) == Falsy(taxOffice)
  {
    var a := Missing(companyName, CompanyName, CompanyNameRequired);
    var b := Missing(taxNumber, TaxNumber, TaxNumberRequired);
    var c := Missing(taxOffice, TaxOffice, TaxOfficeRequired);
    var r := a + b + c;
    forall i | 0 <= i < |r|
      ensures (i < |a| ==> r[i] == a[0])
      ensures (|a| <= i < |a| + |b| ==> r[i] == b[0])
      ensures (|a| + |b| <= i ==> r[i] == c[0])
    {
    }
    if Falsy(companyName) { assert r[0].path == CompanyName; }
    if Falsy(taxNumber) { assert r[|a|].path == TaxNumber; }
    if Falsy(taxOffice) { assert r[|a| + |b|].path == TaxOffice; }
  }

  predicate NoCustom(r: seq<Issue>) {
    Every(r, NotCustom)
  }

  /** Field rules never report custom issues. */
  lemma CreateFieldsNoCustom(isEmail: string -> bool, d: CreateInput)
    ensures NoCustom(CreateFieldIssues(isEmail, d))
  {
    var parts := CreateFieldParts(isEmail, d);
    FlattenEvery(parts, NotCustom);
    assert Every(parts[0], NotCustom) && Every(parts[1], NotCustom) && Every(parts[2], NotCustom);
    assert Every(parts[3], NotCustom) && Every(parts[4], NotCustom) && Every(parts[5], NotCustom);
    assert Every(parts[6], NotCustom) && Every(parts[7], NotCustom) && Every(parts[8], NotCustom);
  }

  /** Only a corporate user gets custom issues: for any other user type,
      every issue comes from a field rule. */
  lemma NonCorporateFieldsOnly(isEmail: string -> bool, d: CreateInput)
    requires d.userType != Some(Corporate)
    ensures CreateIssues(isEmail, d) == CreateFieldIssues(isEmail, d)
    ensures NoCustom(CreateIssues(isEmail, d))
  {
    CreateFieldsNoCustom(isEmail, d);
  }

  /** A corporate user with every required field present has the field
      issues followed by the corporate issues. */
  lemma CorporateCreate(isEmail: string -> bool, d: CreateInput)
    requires d.userType == Some(Corporate)
    requires d.keycloakId.Some? && d.email.Some? && d.firstName.Some? && d.lastName.Some? && d.phone.Some?
    ensures CreateIssues(isEmail, d)
            == CreateFieldIssues(isEmail, d) + CorporateIssues(d.userType, d.companyName, d.taxNumber, d.taxOffice)
  {
    var parts := CreateFieldParts(isEmail, d);
    FlattenEvery(parts, NotFatal);
    forall k | 0 <= k < |parts| ensures Every(parts[k], NotFatal) {
    }
  }

  /** A missing required field or an invalid user type aborts the parse, so
      the corporate check does not run at all: a corporate user missing its
      phone gets no issue for a missing company name. */
  lemma AbortSkipsCorporateCheck(isEmail: string -> bool, d: CreateInput)
    requires d.keycloakId.None? || d.email.None? || d.firstName.None? || d.lastName.None?
             || d.phone.None? || d.userType.None? || !IsUserType(d.userType.value)
    ensures CreateIssues(isEmail, d) == CreateFieldIssues(isEmail, d)
    ensures NoCustom(CreateIssues(isEmail, d))
  {
    CreateFieldsNoCustom(isEmail, d);
    var parts := CreateFieldParts(isEmail, d);
    FlattenEvery(parts, NotFatal);
    var k := if d.keycloakId.None? then 0 else if d.email.None? then 1 else if d.firstName.None? then 2
             else if d.lastName.None? then 3 else if d.phone.None? then 4 else 5;
    assert !NotFatal(parts[k][0]);
  }

  /** Lengths are JavaScript's UTF-16 lengths: a first name of 26 emoji is
      52 units long, so it is too long although it has 26 characters. */
  lemma AstralNameTooLong()
    ensures var s := seq(26, i => '\U{1F600}');
      |s| == 26 && NameIssues(FirstName, FirstNameTooShort, FirstNameTooLong, s)
                   == [Issue(TooBig, FirstName, FirstNameTooLong)]
  {
    var s := seq(26, i => '\U{1F600}');
    Utf16LengthAstral(s);
  }
}
