/** The guest-profile forms. An individual needs a first and last name, an
    email (trimmed, lower case) and a phone of 10 to 15 characters; a
    company needs a name, a code (trimmed, upper case), a contact email
    (trimmed, lower case) and a contact phone of 10 to 15 characters. Both
    are not suspended unless said otherwise. Every length bound is checked
    on the text as received, before trimming. */
module ProfilesSchema {
  import opened Common
  import opened Js
  import opened Zod

  datatype IndividualForm = IndividualForm(
    firstName: string,
    lastName: string,
    email: string,
    phone: string,
    dateOfBirth: Option<string>,
    isSuspended: bool,
    notes: Option<string>)

  datatype IndividualInput = IndividualInput(
    firstName: JsValue,
    lastName: JsValue,
    email: JsValue,
    phone: JsValue,
    dateOfBirth: JsValue,
    isSuspended: JsValue,
    notes: JsValue)

  datatype CompanyForm = CompanyForm(
    companyName: string,
    companyCode: string,
    contactEmail: string,
    contactPhone: string,
    isSuspended: bool,
    notes: Option<string>)

  datatype CompanyInput = CompanyInput(
    companyName: JsValue,
    companyCode: JsValue,
    contactEmail: JsValue,
    contactPhone: JsValue,
    isSuspended: JsValue,
    notes: JsValue)

  /** `z.string().min(10).max(15).trim()`. */
  function Phone(v: JsValue): Option<string> {
    var t := Text(v);
    if t.Some? && 10 <= |t.value| <= 15 then Some(Trim(t.value)) else None
  }

  /** `z.string().trim().toLowerCase()` (the email format itself is not
      modelled). */
  function Email(v: JsValue): Option<string> {
    var t := Text(v);
    if t.Some? then Some(ToLower(Trim(t.value))) else None
  }

  /** `individualProfileSchema.safeParse`. */
  function ParseIndividual(input: IndividualInput): (r: Option<IndividualForm>)
    ensures r.Some? <==>
      && input.firstName.Str? && |input.firstName.s| >= 1
      && input.lastName.Str? && |input.lastName.s| >= 1
      && input.email.Str?
      && input.phone.Str? && 10 <= |input.phone.s| <= 15
      && (input.dateOfBirth.Undefined? || input.dateOfBirth.Str?)
      && (input.isSuspended.Undefined? || input.isSuspended.Bool?)
      && (input.notes.Undefined? || input.notes.Str?)
    ensures r.Some? ==>
      && r.value.firstName == Trim(input.firstName.s)
      && r.value.lastName == Trim(input.lastName.s)
      && r.value.email == ToLower(Trim(input.email.s))
      && r.value.phone == Trim(input.phone.s)
      && r.value.isSuspended == (input.isSuspended.Bool? && input.isSuspended.b)
      && Some(r.value.dateOfBirth) == OptionalText(input.dateOfBirth)
      && Some(r.value.notes) == OptionalText(input.notes)
  {
    var firstName := Text(input.firstName);
    var lastName := Text(input.lastName);
    var email := Email(input.email);
    var phone := Phone(input.phone);
    var dateOfBirth := OptionalText(input.dateOfBirth);
    var isSuspended := BoolOr(input.isSuspended, false);
    var notes := OptionalText(input.notes);
    if firstName.None? || |firstName.value| < 1 || lastName.None? || |lastName.value| < 1 then None
    else if email.None? || phone.None? then None
    else if dateOfBirth.None? || isSuspended.None? || notes.None? then None
    else
      Some(IndividualForm(Trim(firstName.value), Trim(lastName.value), email.value, phone.value,
                          dateOfBirth.value, isSuspended.value, notes.value))
  }

  /** `companyProfileSchema.safeParse`. */
  function ParseCompany(input: CompanyInput): (r: Option<CompanyForm>)
    ensures r.Some? <==>
      && input.companyName.Str? && |input.companyName.s| >= 1
      && input.companyCode.Str? && |input.companyCode.s| >= 1
      && input.contactEmail.Str?
      && input.contactPhone.Str? && 10 <= |input.contactPhone.s| <= 15
      && (input.isSuspended.Undefined? || input.isSuspended.Bool?)
      && (input.notes.Undefined? || input.notes.Str?)
    ensures r.Some? ==>
      && r.value.companyName == Trim(input.companyName.s)
      && r.value.companyCode == ToUpper(Trim(input.companyCode.s))
      && r.value.contactEmail == ToLower(Trim(input.contactEmail.s))
      && r.value.contactPhone == Trim(input.contactPhone.s)
      && r.value.isSuspended == (input.isSuspended.Bool? && input.isSuspended.b)
      && Some(r.value.notes) == OptionalText(input.notes)
  {
    var companyName := Text(input.companyName);
    var companyCode := Text(input.companyCode);
    var contactEmail := Email(input.contactEmail);
    var contactPhone := Phone(input.contactPhone);
    var isSuspended := BoolOr(input.isSuspended, false);
    var notes := OptionalText(input.notes);
    if companyName.None? || |companyName.value| < 1 || companyCode.None? || |companyCode.value| < 1 then None
    else if contactEmail.None? || contactPhone.None? then None
    else if isSuspended.None? || notes.None? then None
    else
      Some(CompanyForm(Trim(companyName.value), ToUpper(Trim(companyCode.value)), contactEmail.value,
                       contactPhone.value, isSuspended.value, notes.value))
  }

  /** The phone bound looks at the text as received: ten blanks pass it,
      and the phone is then stored empty. */
  lemma BlankPhoneAccepted(firstName: string, lastName: string, email: string)
    requires |firstName| >= 1 && |lastName| >= 1
    ensures var r := ParseIndividual(IndividualInput(Str(firstName), Str(lastName), Str(email),
                                                     Str("          "), Undefined, Undefined, Undefined));
      r.Some? && r.value.phone == "" && !r.value.isSuspended
  {
    var blanks := "          ";
    TrimEmptyIffBlank(blanks);
  }

  /** A company form in normal form: its name is trimmed, its code is
      trimmed and upper case, its email is trimmed and lower case, and none
      of them is empty. */
  predicate NormalCompany(f: CompanyForm) {
    && f.companyName != [] && f.companyName == Trim(f.companyName)
    && f.companyCode != [] && f.companyCode == ToUpper(Trim(f.companyCode))
    && f.contactEmail == ToLower(Trim(f.contactEmail))
    && 10 <= |f.contactPhone| <= 15 && f.contactPhone == Trim(f.contactPhone)
  }

  /** The input that submits a company form as it stands. */
  function SubmittedCompany(f: CompanyForm): CompanyInput {
    CompanyInput(Str(f.companyName), Str(f.companyCode), Str(f.contactEmail), Str(f.contactPhone),
                 Bool(f.isSuspended), OptionalTextValue(f.notes))
  }

  /** A company form in normal form is accepted as it stands and read back
      unchanged. */
  lemma ResubmitNormalCompany(f: CompanyForm)
    requires NormalCompany(f)
    ensures ParseCompany(SubmittedCompany(f)) == Some(f)
  {
    OptionalTextRoundTrip(f.notes);
  }

  /** Normalising a company code is idempotent, and a parsed company with a
      non-blank name and code and a phone that needs no trimming comes back
      unchanged when submitted again. */
  lemma {:induction false} ResubmitCompany(input: CompanyInput)
    requires ParseCompany(input).Some?
    requires var f := ParseCompany(input).value;
      f.companyName != [] && f.companyCode != [] && 10 <= |f.contactPhone|
    ensures ParseCompany(SubmittedCompany(ParseCompany(input).value)) == ParseCompany(input)
  {
    TrimIdempotent(input.companyName.s);
    TrimUpperIdempotent(input.companyCode.s);
    TrimLowerIdempotent(input.contactEmail.s);
    TrimIdempotent(input.contactPhone.s);
    ResubmitNormalCompany(ParseCompany(input).value);
  }
}
