/** Guest profiles: creating an individual profile (schema check, then the
    per-property duplicate-email check, then the insert) and the two
    searches, which build a filter from the query parameters that were
    given and refuse to run when none was. */
module ProfileController {
  import opened Common
  import opened Js
  import opened ProfilesSchema

  /** A stored individual profile. */
  datatype Individual = Individual(id: Id, propertyRef: Id, createdBy: Id, form: IndividualForm)

  /** A stored company profile. The company schema declares no property
      path, so a company document carries no property reference: the one
      the create handler passes is dropped on save. */
  datatype Company = Company(id: Id, form: CompanyForm)

  /** `pattern` occurs in `s` at position `i`, ignoring case. */
  predicate OccursAt(s: string, pattern: string, i: int) {
    0 <= i && i + |pattern| <= |s| && ToLower(s[i..i + |pattern|]) == ToLower(pattern)
  }

  /** A case-insensitive regular expression made of plain characters:
      `pattern` occurs somewhere in `s`, ignoring case. */
  predicate ContainsIgnoringCase(s: string, pattern: string) {
    exists i :: 0 <= i <= |s| - |pattern| && OccursAt(s, pattern, i)
  }

  // ------------------------------------------------------ individual search

  /** The query parameters of the individual search; `None` when absent. */
  datatype IndividualSearch = IndividualSearch(
    email: Option<string>,
    profileId: Option<string>,
    firstName: Option<string>,
    lastName: Option<string>,
    phoneNumber: Option<string>)

  /** One entry of the filter's `$and` list, holding the value as sent. */
  datatype Condition =
    | EmailIs(email: string)
    | IdIs(id: string)
    | FirstNameLike(pattern: string)
    | LastNameLike(pattern: string)
    | PhoneIs(phone: string)

  /** The position of each kind of condition in the list. */
  function Rank(c: Condition): nat {
    match c
    case EmailIs(_) => 0
    case IdIs(_) => 1
    case FirstNameLike(_) => 2
    case LastNameLike(_) => 3
    case PhoneIs(_) => 4
  }

  /** The condition belongs in the filter: its parameter was given (is
      truthy) and it carries that parameter's value. */
  predicate Asked(q: IndividualSearch, c: Condition) {
    match c
    case EmailIs(v) => Truthy(q.email) && v == q.email.value
    case IdIs(v) => Truthy(q.profileId) && v == q.profileId.value
    case FirstNameLike(v) => Truthy(q.firstName) && v == q.firstName.value
    case LastNameLike(v) => Truthy(q.lastName) && v == q.lastName.value
    case PhoneIs(v) => Truthy(q.phoneNumber) && v == q.phoneNumber.value
  }

  /** No search parameter was given. */
  predicate NothingAsked(q: IndividualSearch) {
    !Truthy(q.email) && !Truthy(q.profileId) && !Truthy(q.firstName) &&
    !Truthy(q.lastName) && !Truthy(q.phoneNumber)
  }

  /** How the store reads one condition. Values are cast as the profile
      schema says before they are compared: the email is trimmed and lower
      cased, the phone and the name patterns trimmed; names match as
      case-insensitive patterns. */
  predicate Satisfies(p: Individual, c: Condition) {
    match c
    case EmailIs(v) => p.form.email == ToLower(Trim(v))
    case IdIs(v) => p.id == v
    case FirstNameLike(v) => ContainsIgnoringCase(p.form.firstName, Trim(v))
    case LastNameLike(v) => ContainsIgnoringCase(p.form.lastName, Trim(v))
    case PhoneIs(v) => p.form.phone == Trim(v)
  }

  /** The search, stated directly on its parameters: every parameter that was
      given constrains the profile, and the others do not. */
  predicate MatchesSearch(p: Individual, q: IndividualSearch) {
    && (Truthy(q.email) ==> Satisfies(p, EmailIs(q.email.value)))
    && (Truthy(q.profileId) ==> Satisfies(p, IdIs(q.profileId.value)))
    && (Truthy(q.firstName) ==> Satisfies(p, FirstNameLike(q.firstName.value)))
    && (Truthy(q.lastName) ==> Satisfies(p, LastNameLike(q.lastName.value)))
    && (Truthy(q.phoneNumber) ==> Satisfies(p, PhoneIs(q.phoneNumber.value)))
  }

  /** The `$and` list of `GET_INDIVIDUAL_PROFILE`, built by pushing one
      condition for each parameter that was given, in the order email, id,
      first name, last name, phone. */
  method IndividualConditions(q: IndividualSearch) returns (conditions: seq<Condition>)
    ensures forall c :: c in conditions <==> Asked(q, c)
    ensures forall i :: 0 < i < |conditions| ==> Rank(conditions[i - 1]) < Rank(conditions[i])
    ensures conditions == [] <==> NothingAsked(q)
  {
    conditions := [];
    if Truthy(q.email) {
      conditions := conditions + [EmailIs(q.email.value)];
    }
    if Truthy(q.profileId) {
      conditions := conditions + [IdIs(q.profileId.value)];
    }
    if Truthy(q.firstName) {
      conditions := conditions + [FirstNameLike(q.firstName.value)];
    }
    if Truthy(q.lastName) {
      conditions := conditions + [LastNameLike(q.lastName.value)];
    }
    if Truthy(q.phoneNumber) {
      conditions := conditions + [PhoneIs(q.phoneNumber.value)];
    }
    forall c | Asked(q, c)
      ensures c in conditions
    {
      match c
      case EmailIs(_) =>
      case IdIs(_) =>
      case FirstNameLike(_) =>
      case LastNameLike(_) =>
      case PhoneIs(_) =>
    }
  }

  /** A profile meeting every condition of the list matches the search the
      list was built from. */
  lemma ConditionsImplySearch(q: IndividualSearch, conditions: seq<Condition>, p: Individual)
    requires forall c :: c in conditions <==> Asked(q, c)
    requires forall c :: c in conditions ==> Satisfies(p, c)
    ensures MatchesSearch(p, q)
  {
    if Truthy(q.email) { assert Asked(q, EmailIs(q.email.value)); }
    if Truthy(q.profileId) { assert Asked(q, IdIs(q.profileId.value)); }
    if Truthy(q.firstName) { assert Asked(q, FirstNameLike(q.firstName.value)); }
    if Truthy(q.lastName) { assert Asked(q, LastNameLike(q.lastName.value)); }
    if Truthy(q.phoneNumber) { assert Asked(q, PhoneIs(q.phoneNumber.value)); }
  }

  /** A profile matching the search meets every condition of the list built
      from it. */
  lemma SearchImpliesConditions(q: IndividualSearch, conditions: seq<Condition>, p: Individual)
    requires forall c :: c in conditions <==> Asked(q, c)
    requires MatchesSearch(p, q)
    ensures forall c :: c in conditions ==> Satisfies(p, c)
  {
    forall c | c in conditions
      ensures Satisfies(p, c)
    {
      assert Asked(q, c);
      match c
      case EmailIs(v) =>
      case IdIs(v) =>
      case FirstNameLike(v) =>
      case LastNameLike(v) =>
      case PhoneIs(v) =>
    }
  }

  /** The profiles of the property that meet every condition, in stored
      order. */
  function SelectIndividuals(ps: seq<Individual>, propertyId: Id, conditions: seq<Condition>)
    : (r: seq<Individual>)
    ensures forall p :: p in r <==>
      p in ps && p.propertyRef == propertyId && forall c :: c in conditions ==> Satisfies(p, c)
  {
    if ps == [] then []
    else
      var last := ps[|ps| - 1];
      var init := SelectIndividuals(ps[..|ps| - 1], propertyId, conditions);
      assert ps == ps[..|ps| - 1] + [last];
      if last.propertyRef == propertyId && forall c :: c in conditions ==> Satisfies(last, c)
      then init + [last] else init
  }

  // --------------------------------------------------------- company search

  /** The query parameters of the company search; `None` when absent. */
  datatype CompanySearch = CompanySearch(
    contactEmail: Option<string>,
    profileId: Option<string>,
    companyName: Option<string>,
    companyCode: Option<string>)

  /** The filter object of `GET_COMPANY_PROFILE`: the property plus one key
      per parameter that was set. `propertyRef` is `None` once the key has
      been stripped from the filter. */
  datatype CompanyQuery = CompanyQuery(
    propertyRef: Option<Id>,
    contactEmail: Option<string>,
    id: Option<string>,
    companyName: Option<string>,
    companyCode: Option<string>)

  /** The number of keys of the filter object. */
  function KeyCount(q: CompanyQuery): nat {
    (if q.propertyRef.Some? then 1 else 0)
      + (if q.contactEmail.Some? then 1 else 0) + (if q.id.Some? then 1 else 0)
      + (if q.companyName.Some? then 1 else 0) + (if q.companyCode.Some? then 1 else 0)
  }

  /** The filter the store runs. Under `strictQuery` a key the schema does
      not declare is stripped from a filter, and the company schema declares
      no `propertyRef`; otherwise the key is kept as given. */
  function SentFilter(q: CompanyQuery, strictQuery: bool): (r: CompanyQuery)
    ensures r.propertyRef.None? <==> strictQuery || q.propertyRef.None?
    ensures r.(propertyRef := q.propertyRef) == q
  {
    if strictQuery then q.(propertyRef := None) else q
  }

  /** How the store reads the filter: a `propertyRef` key matches no
      company, since no company document has that path; the contact email is
      trimmed and lower cased and the code trimmed before comparing (the
      code is not upper cased, so the comparison is case-sensitive); the
      name matches as a case-insensitive pattern. */
  predicate CompanyMatches(c: Company, q: CompanyQuery) {
    && q.propertyRef.None?
    && (q.contactEmail.Some? ==> c.form.contactEmail == ToLower(Trim(q.contactEmail.value)))
    && (q.id.Some? ==> c.id == q.id.value)
    && (q.companyName.Some? ==> ContainsIgnoringCase(c.form.companyName, Trim(q.companyName.value)))
    && (q.companyCode.Some? ==> c.form.companyCode == Trim(q.companyCode.value))
  }

  /** Builds the company filter key by key. A profile id becomes a key only
      when it is a well-formed ObjectId; otherwise it is dropped silently. */
  method CompanyFilter(propertyId: Id, s: CompanySearch) returns (q: CompanyQuery)
    ensures q.propertyRef == Some(propertyId)
    ensures q.contactEmail.Some? <==> Truthy(s.contactEmail)
    ensures q.id.Some? <==> Truthy(s.profileId) && IsObjectIdText(s.profileId.value)
    ensures q.companyName.Some? <==> Truthy(s.companyName)
    ensures q.companyCode.Some? <==> Truthy(s.companyCode)
    ensures q.contactEmail.Some? ==> q.contactEmail == s.contactEmail
    ensures q.id.Some? ==> q.id == s.profileId
    ensures q.companyName.Some? ==> q.companyName == s.companyName
    ensures q.companyCode.Some? ==> q.companyCode == s.companyCode
  {
    q := CompanyQuery(Some(propertyId), None, None, None, None);
    if Truthy(s.contactEmail) {
      q := q.(contactEmail := s.contactEmail);
    }
    if Truthy(s.profileId) && IsObjectIdText(s.profileId.value) {
      q := q.(id := s.profileId);
    }
    if Truthy(s.companyName) {
      q := q.(companyName := s.companyName);
    }
    if Truthy(s.companyCode) {
      q := q.(companyCode := s.companyCode);
    }
  }

  /** The profiles meeting the filter, in stored order. */
  function SelectCompanies(cs: seq<Company>, q: CompanyQuery): (r: seq<Company>)
    ensures forall c :: c in r <==> c in cs && CompanyMatches(c, q)
  {
    if cs == [] then []
    else
      var last := cs[|cs| - 1];
      assert cs == cs[..|cs| - 1] + [last];
      SelectCompanies(cs[..|cs| - 1], q) + (if CompanyMatches(last, q) then [last] else [])
  }

  /** A filter that still names a property finds no company at all. */
  lemma NothingMatchesScopedFilter(cs: seq<Company>, q: CompanyQuery)
    requires q.propertyRef.Some?
    ensures SelectCompanies(cs, q) == []
  {
  }

  // ------------------------------------------------------------ the store

  /** A form the profile model accepts on save: its required strings are
      not empty. */
  predicate Storable(f: IndividualForm) {
    f.firstName != "" && f.lastName != "" && f.email != "" && f.phone != ""
  }

  /** Some profile of the property already has this email. */
  predicate EmailTakenIn(ps: seq<Individual>, propertyId: Id, email: string) {
    exists i :: 0 <= i < |ps| && ps[i].form.email == email && ps[i].propertyRef == propertyId
  }

  /** Some profile, of any property, already has this email. */
  predicate EmailTaken(ps: seq<Individual>, email: string) {
    exists i :: 0 <= i < |ps| && ps[i].form.email == email
  }

  predicate IdTaken(ps: seq<Individual>, id: Id) {
    exists i :: 0 <= i < |ps| && ps[i].id == id
  }

  /** No two profiles share an id or an email. */
  predicate UniqueProfiles(ps: seq<Individual>) {
    forall i, j :: 0 <= i < j < |ps| ==> ps[i].id != ps[j].id && ps[i].form.email != ps[j].form.email
  }

  /** A profile whose id and email are both new keeps the profiles unique. */
  lemma AppendKeepsUnique(ps: seq<Individual>, p: Individual)
    requires UniqueProfiles(ps)
    requires !IdTaken(ps, p.id) && !EmailTaken(ps, p.form.email)
    ensures UniqueProfiles(ps + [p])
  {
    var qs := ps + [p];
    forall i, j | 0 <= i < j < |qs|
      ensures qs[i].id != qs[j].id && qs[i].form.email != qs[j].form.email
    {
      assert qs[i] == ps[i];
      if j == |ps| {
        assert qs[j] == p;
      } else {
        assert qs[j] == ps[j];
      }
    }
  }

  /** The individual and company profile collections. */
  class ProfileStore {
    var individuals: seq<Individual>
    var companies: seq<Company>

    /** Ids are unique, and so are emails, across all properties (the
        profile model declares a unique index on the email). */
    ghost predicate Valid()
      reads this
    {
      UniqueProfiles(individuals)
    }

    constructor ()
      ensures Valid() && individuals == [] && companies == []
    {
      individuals := [];
      companies := [];
    }

    /** `CREATE_INDIVIDUAL_PROFILE`. The store gives the profile the id
        `newId`. Invalid input is answered with 401; the validated form
        goes on to `StoreIndividual`. */
    method CreateIndividual(propertyId: Id, userId: Id, input: IndividualInput, newId: Id)
      returns (status: int, created: Option<Individual>)
      requires Valid()
      modifies this
      ensures Valid()
      ensures companies == old(companies)
      ensures status == CREATED || status == UNAUTHORIZED || status == CONFLICT || status == INTERNAL_ERROR
      ensures status != CREATED ==> created == None && individuals == old(individuals)
      ensures status == UNAUTHORIZED <==> ParseIndividual(input).None?
      ensures status == CONFLICT <==>
        && ParseIndividual(input).Some?
        && EmailTakenIn(old(individuals), propertyId, ParseIndividual(input).value.email)
      ensures status == CREATED <==>
        && ParseIndividual(input).Some?
        && !EmailTakenIn(old(individuals), propertyId, ParseIndividual(input).value.email)
        && Storable(ParseIndividual(input).value)
        && !EmailTaken(old(individuals), ParseIndividual(input).value.email)
        && !IdTaken(old(individuals), newId)
      ensures status == CREATED ==>
        && created == Some(Individual(newId, propertyId, userId, ParseIndividual(input).value))
        && individuals == old(individuals) + [created.value]
    {
      var fields := ParseIndividual(input);
      if fields.None? {
        return UNAUTHORIZED, None;
      }
      status, created := StoreIndividual(propertyId, userId, fields.value, newId);
    }

    /** The part of `CREATE_INDIVIDUAL_PROFILE` after validation: an email
        already used in the same property is answered with 409. The insert
        itself fails (500) when a required string is empty, when the id is
        in use, or when the email is used in another property, which the
        unique index on the email refuses. */
    method StoreIndividual(propertyId: Id, userId: Id, data: IndividualForm, newId: Id)
      returns (status: int, created: Option<Individual>)
      requires Valid()
      modifies this
      ensures Valid()
      ensures companies == old(companies)
      ensures status == CREATED || status == CONFLICT || status == INTERNAL_ERROR
      ensures status != CREATED ==> created == None && individuals == old(individuals)
      ensures status == CONFLICT <==> EmailTakenIn(old(individuals), propertyId, data.email)
      ensures status == CREATED <==>
        && !EmailTakenIn(old(individuals), propertyId, data.email)
        && Storable(data)
        && !EmailTaken(old(individuals), data.email)
        && !IdTaken(old(individuals), newId)
      ensures status == CREATED ==>
        && created == Some(Individual(newId, propertyId, userId, data))
        && individuals == old(individuals) + [created.value]
    {
      if EmailTakenIn(individuals, propertyId, data.email) {
        return CONFLICT, None;
      }
      if !Storable(data) || EmailTaken(individuals, data.email) || IdTaken(individuals, newId) {
        return INTERNAL_ERROR, None;
      }
      var profile := Individual(newId, propertyId, userId, data);
      AppendKeepsUnique(individuals, profile);
      individuals := individuals + [profile];
      return CREATED, Some(profile);
    }

    /** `GET_INDIVIDUAL_PROFILE`: 400 without any search parameter, before
        any query runs; otherwise 200 with the profiles of the property that
        match every given parameter. */
    method FindIndividuals(propertyId: Id, q: IndividualSearch) returns (status: int, found: seq<Individual>)
      ensures status == OK || status == BAD_REQUEST
      ensures status == BAD_REQUEST <==> NothingAsked(q)
      ensures status != OK ==> found == []
      ensures status == OK ==>
        forall p :: p in found <==>
          p in individuals && p.propertyRef == propertyId && MatchesSearch(p, q)
    {
      var conditions := IndividualConditions(q);
      if |conditions| == 0 {
        return BAD_REQUEST, [];
      }
      found := SelectIndividuals(individuals, propertyId, conditions);
      forall p | p in individuals
        ensures (forall c :: c in conditions ==> Satisfies(p, c)) <==> MatchesSearch(p, q)
      {
        if forall c :: c in conditions ==> Satisfies(p, c) {
          ConditionsImplySearch(q, conditions, p);
        }
        if MatchesSearch(p, q) {
          SearchImpliesConditions(q, conditions, p);
        }
      }
      return OK, found;
    }

    /** `GET_COMPANY_PROFILE`: 400 when the filter holds nothing but the
        property, which is also the answer when the only parameter given was
        a malformed profile id; otherwise 200 with the companies the store
        finds. No company document holds the property the filter names, so
        without `strictQuery` nothing is found, and with it the property key
        is stripped and the matches of every property are returned. */
    method FindCompanies(propertyId: Id, s: CompanySearch, strictQuery: bool) returns (status: int, found: seq<Company>)
      ensures status == OK || status == BAD_REQUEST
      ensures status == BAD_REQUEST <==>
        && !Truthy(s.contactEmail)
        && !(Truthy(s.profileId) && IsObjectIdText(s.profileId.value))
        && !Truthy(s.companyName)
        && !Truthy(s.companyCode)
      ensures status != OK ==> found == []
      ensures status == OK && !strictQuery ==> found == []
      ensures status == OK && strictQuery ==>
        forall c :: c in found <==>
          && c in companies
          && (Truthy(s.contactEmail) ==> c.form.contactEmail == ToLower(Trim(s.contactEmail.value)))
          && (Truthy(s.profileId) && IsObjectIdText(s.profileId.value) ==> c.id == s.profileId.value)
          && (Truthy(s.companyName) ==> ContainsIgnoringCase(c.form.companyName, Trim(s.companyName.value)))
          && (Truthy(s.companyCode) ==> c.form.companyCode == Trim(s.companyCode.value))
    {
      var query := CompanyFilter(propertyId, s);
      if KeyCount(query) == 1 {
        return BAD_REQUEST, [];
      }
      var sent := SentFilter(query, strictQuery);
      found := SelectCompanies(companies, sent);
      if !strictQuery {
        NothingMatchesScopedFilter(companies, sent);
      }
      forall c | c in companies
        ensures CompanyMatches(c, sent) <==>
          && strictQuery
          && (Truthy(s.contactEmail) ==> c.form.contactEmail == ToLower(Trim(s.contactEmail.value)))
          && (Truthy(s.profileId) && IsObjectIdText(s.profileId.value) ==> c.id == s.profileId.value)
          && (Truthy(s.companyName) ==> ContainsIgnoringCase(c.form.companyName, Trim(s.companyName.value)))
          && (Truthy(s.companyCode) ==> c.form.companyCode == Trim(s.companyCode.value))
      {
      }
      return OK, found;
    }
  }
}
