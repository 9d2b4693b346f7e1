/** models/employee.py: validation of dictionaries into the Employee records, the dictionaries
    `model_dump()` produces from them, and the merge a PATCH performs. */
module EmployeeModels {
  import opened Common
  import opened EmployeeIdPattern
  import opened Records

  /** The scalar fields `EmployeeBase` declares, as a set of keys. */
  const BaseFields: set<Field> :=
    {EmployeeId, FirstName, LastName, Email, Phone, BirthDate, Department, Team, YearsOfExp}

  /** The fields `EmployeeUpdate` declares: the base scalars and `company_ids`. */
  const UpdateFields: set<Field> := BaseFields + {CompanyIds}

  /** The fields `EmployeeCreate` cannot do without: the base scalars but `birth_date`, and
      `company_ids`. */
  const CreateRequired: set<Field> := BaseFields - {BirthDate} + {CompanyIds}

  /** A required `EmployeeIDType`: a string that matches the pattern. */
  function RequiredEmployeeId(d: Dict): Result<EmployeeIdStr> {
    if EmployeeId in d && d[EmployeeId].Text? && IsEmployeeId(d[EmployeeId].text) then Ok(d[EmployeeId].text)
    else Err(Invalid)
  }

  /** An `Optional[EmployeeIDType] = None`: absent or null is none, a string must match. */
  function OptionalEmployeeId(d: Dict): Result<Option<EmployeeIdStr>> {
    if EmployeeId !in d || d[EmployeeId].Null? then Ok(None)
    else if d[EmployeeId].Text? && IsEmployeeId(d[EmployeeId].text) then Ok(Some(d[EmployeeId].text))
    else Err(Invalid)
  }

  /** An id matching the pattern validates back to itself, required or optional; a string that
      does not match is rejected by both; an absent optional id is `None`. */
  lemma EmployeeIdRoundTrip(d: Dict, s: EmployeeIdStr, t: string)
    ensures RequiredEmployeeId(d[EmployeeId := Text(s)]) == Ok(s)
    ensures OptionalEmployeeId(d[EmployeeId := Text(s)]) == Ok(Some(s))
    ensures OptionalEmployeeId(d - {EmployeeId}) == Ok(None)
    ensures !IsEmployeeId(t) ==> RequiredEmployeeId(d[EmployeeId := Text(t)]).Err?
    ensures !IsEmployeeId(t) ==> OptionalEmployeeId(d[EmployeeId := Text(t)]).Err?
  {
  }

  /** The scalar fields of `EmployeeBase(**d)`: all required except `birth_date`. */
  function ParseEmployeeBase(d: Dict): (r: Result<EmployeeBase>)
    ensures r.Ok? ==> BaseFields - {BirthDate} <= d.Keys
    ensures r.Ok? ==> EmployeeId in d && d[EmployeeId] == Text(r.value.employeeId)
    ensures r.Ok? && BirthDate !in d ==> r.value.birthDate.None?
    ensures EmployeeId in d && d[EmployeeId].Text? && !IsEmployeeId(d[EmployeeId].text) ==> r == Err(Invalid)
  {
    var employeeId :- RequiredEmployeeId(d);
    var firstName :- RequiredText(d, FirstName);
    var lastName :- RequiredText(d, LastName);
    var email :- RequiredText(d, Email);
    var phone :- RequiredText(d, Phone);
    var birthDate :- OptionalDay(d, BirthDate);
    var department :- RequiredText(d, Department);
    var team :- RequiredText(d, Team);
    var yearsOfExp :- RequiredNumber(d, YearsOfExp);
    Ok(EmployeeBase(employeeId, firstName, lastName, email, phone, birthDate, department, team, yearsOfExp))
  }

  /** `EmployeeCreate(**d)`: the base fields, the optional `companies`, and `company_ids`,
      which is required. */
  function ParseEmployeeCreate(d: Dict): (r: Result<EmployeeCreate>)
    ensures r.Ok? ==> CreateRequired <= d.Keys
    ensures r.Ok? ==> CompanyIds in d && d[CompanyIds] == IdList(r.value.companyIds)
    ensures r.Ok? ==> Ok(r.value.base) == ParseEmployeeBase(d)
  {
    var base :- ParseEmployeeBase(d);
    var companies :- OptionalSnapshots(d, Companies);
    var companyIds :- RequiredIds(d, CompanyIds);
    Ok(EmployeeCreate(base, companies, companyIds))
  }

  /** `EmployeeUpdate(**d)`: every field optional; an `employee_id` that is sent must still
      match the pattern. */
  function ParseEmployeeUpdate(d: Dict): (r: Result<EmployeeUpdate>)
    ensures d.Keys !! UpdateFields ==> r == Ok(EmptyEmployeeUpdate())
    ensures EmployeeId in d && d[EmployeeId].Text? && !IsEmployeeId(d[EmployeeId].text) ==> r == Err(Invalid)
    ensures r.Ok? && EmployeeId in d && !d[EmployeeId].Null? ==> d[EmployeeId].Text? && r.value.employeeId == Some(d[EmployeeId].text)
  {
    var employeeId :- OptionalEmployeeId(d);
    var firstName :- OptionalText(d, FirstName);
    var lastName :- OptionalText(d, LastName);
    var email :- OptionalText(d, Email);
    var phone :- OptionalText(d, Phone);
    var birthDate :- OptionalDay(d, BirthDate);
    var department :- OptionalText(d, Department);
    var team :- OptionalText(d, Team);
    var yearsOfExp :- OptionalNumber(d, YearsOfExp);
    var companyIds :- OptionalIds(d, CompanyIds);
    Ok(EmployeeUpdate(employeeId, firstName, lastName, email, phone, birthDate, department, team, yearsOfExp, companyIds))
  }

  /** The update that sets nothing. */
  function EmptyEmployeeUpdate(): EmployeeUpdate {
    EmployeeUpdate(None, None, None, None, None, None, None, None, None, None)
  }

  /** `EmployeeRead(**d)`: the base fields; `companies` defaults to the empty list; `id`,
      `created_at` and `updated_at` are taken from `d` when present, and otherwise come from
      their default factories, here the fresh `generatedId` and the clock reading `now`. */
  function ParseEmployeeRead(d: Dict, generatedId: Uuid, now: Timestamp): (r: Result<EmployeeRead>)
    ensures r.Ok? <==> ParseEmployeeBase(d).Ok? && (Id in d ==> d[Id].Ident?) && (Companies in d ==> d[Companies].Snapshots?)
                        && (CreatedAt in d ==> d[CreatedAt].Instant?) && (UpdatedAt in d ==> d[UpdatedAt].Instant?)
    ensures r.Ok? ==> r.value.base == ParseEmployeeBase(d).value
    ensures r.Ok? ==> r.value.id == if Id in d then d[Id].uuid else generatedId
    ensures r.Ok? ==> r.value.companies == if Companies in d then d[Companies].snapshots else []
    ensures r.Ok? ==> r.value.createdAt == if CreatedAt in d then d[CreatedAt].time else now
    ensures r.Ok? ==> r.value.updatedAt == if UpdatedAt in d then d[UpdatedAt].time else now
  {
    var base :- ParseEmployeeBase(d);
    var id :- UuidOr(d, Id, generatedId);
    var createdAt :- InstantOr(d, CreatedAt, now);
    var updatedAt :- InstantOr(d, UpdatedAt, now);
    var companies :- SnapshotsOr(d, Companies);
    Ok(EmployeeRead(id, base, companies, createdAt, updatedAt))
  }

  /** What scalar field `f` of `b` dumps to. */
  function BaseEntry(b: EmployeeBase, f: Field): Value {
    match f
    case EmployeeId => Text(b.employeeId)
    case FirstName => Text(b.firstName)
    case LastName => Text(b.lastName)
    case Email => Text(b.email)
    case Phone => Text(b.phone)
    case BirthDate => DayOrNull(b.birthDate)
    case Department => Text(b.department)
    case Team => Text(b.team)
    case YearsOfExp => Number(b.yearsOfExp)
    case _ => Null
  }

  /** `model_dump()` of the scalar base fields. */
  function DumpEmployeeBase(b: EmployeeBase): Dict {
    map f | f in BaseFields :: BaseEntry(b, f)
  }

  /** `model_dump()` of an `EmployeeCreate`. */
  function DumpEmployeeCreate(p: EmployeeCreate): Dict {
    DumpEmployeeBase(p.base)[Companies := if p.companies.Some? then Snapshots(p.companies.value) else Null]
                            [CompanyIds := IdList(p.companyIds)]
  }

  /** `model_dump()` of an `EmployeeRead`. */
  function DumpEmployee(e: EmployeeRead): Dict {
    DumpEmployeeBase(e.base)[Id := Ident(e.id)][Companies := Snapshots(e.companies)]
                            [CreatedAt := Instant(e.createdAt)][UpdatedAt := Instant(e.updatedAt)]
  }

  /** What field `f` of an update dumps to, when it was set. */
  function UpdateEntry(u: EmployeeUpdate, f: Field): Option<Value> {
    match f
    case EmployeeId => if u.employeeId.Some? then Some(Text(u.employeeId.value)) else None
    case FirstName => if u.firstName.Some? then Some(Text(u.firstName.value)) else None
    case LastName => if u.lastName.Some? then Some(Text(u.lastName.value)) else None
    case Email => if u.email.Some? then Some(Text(u.email.value)) else None
    case Phone => if u.phone.Some? then Some(Text(u.phone.value)) else None
    case BirthDate => if u.birthDate.Some? then Some(Day(u.birthDate.value)) else None
    case Department => if u.department.Some? then Some(Text(u.department.value)) else None
    case Team => if u.team.Some? then Some(Text(u.team.value)) else None
    case YearsOfExp => if u.yearsOfExp.Some? then Some(Number(u.yearsOfExp.value)) else None
    case CompanyIds => if u.companyIds.Some? then Some(IdList(u.companyIds.value)) else None
    case _ => None
  }

  /** `model_dump(exclude_unset=True)` of an `EmployeeUpdate`: only the fields that were set. */
  function DumpEmployeeUpdate(u: EmployeeUpdate): Dict {
    map f | f in UpdateFields && UpdateEntry(u, f).Some? :: UpdateEntry(u, f).value
  }

  /** The stored scalar fields with every field the update sets overwritten. */
  function MergeEmployee(b: EmployeeBase, u: EmployeeUpdate): EmployeeBase {
    EmployeeBase(u.employeeId.GetOr(b.employeeId), u.firstName.GetOr(b.firstName), u.lastName.GetOr(b.lastName),
                 u.email.GetOr(b.email), u.phone.GetOr(b.phone), u.birthDate.Or(b.birthDate),
                 u.department.GetOr(b.department), u.team.GetOr(b.team), u.yearsOfExp.GetOr(b.yearsOfExp))
  }

  /** The keys of a dumped `EmployeeRead`. */
  lemma DumpEmployeeKeys(e: EmployeeRead)
    ensures forall f :: f in DumpEmployee(e) <==>
      f in BaseFields || f == Id || f == Companies || f == CreatedAt || f == UpdatedAt
  {
  }

  /** What the dump of an update holds at one key: the field's value exactly when the update
      sets that field (`company_ids` included), and nothing at a key it does not declare. */
  lemma UpdateDumpKeys(u: EmployeeUpdate, f: Field)
    ensures f in DumpEmployeeUpdate(u) <==> UpdateEntry(u, f).Some?
    ensures f in DumpEmployeeUpdate(u) ==> DumpEmployeeUpdate(u)[f] == UpdateEntry(u, f).value
    ensures f in DumpEmployeeUpdate(u) ==> f in UpdateFields
  {
    if UpdateEntry(u, f).Some? {
      assert f in UpdateFields;
    }
  }

  /** Two dictionaries that hold the same entries for the keys in `fields`. */
  ghost predicate AgreeOn(d1: Dict, d2: Dict, fields: set<Field>) {
    forall f :: f in fields ==> (f in d1 <==> f in d2) && (f in d1 ==> d1[f] == d2[f])
  }

  /** Validating the scalar fields reads nothing but those fields. */
  lemma BaseParseIsLocal(d1: Dict, d2: Dict)
    requires AgreeOn(d1, d2, BaseFields)
    ensures ParseEmployeeBase(d1) == ParseEmployeeBase(d2)
  {
    assert RequiredEmployeeId(d1) == RequiredEmployeeId(d2);
    assert RequiredText(d1, FirstName) == RequiredText(d2, FirstName);
    assert RequiredText(d1, LastName) == RequiredText(d2, LastName);
    assert RequiredText(d1, Email) == RequiredText(d2, Email);
    assert RequiredText(d1, Phone) == RequiredText(d2, Phone);
    assert OptionalDay(d1, BirthDate) == OptionalDay(d2, BirthDate);
    assert RequiredText(d1, Department) == RequiredText(d2, Department);
    assert RequiredText(d1, Team) == RequiredText(d2, Team);
    assert RequiredNumber(d1, YearsOfExp) == RequiredNumber(d2, YearsOfExp);
  }

  /** Validating an update reads nothing but its declared fields. */
  lemma UpdateParseIsLocal(d1: Dict, d2: Dict)
    requires AgreeOn(d1, d2, UpdateFields)
    ensures ParseEmployeeUpdate(d1) == ParseEmployeeUpdate(d2)
  {
    assert OptionalEmployeeId(d1) == OptionalEmployeeId(d2);
    assert OptionalText(d1, FirstName) == OptionalText(d2, FirstName);
    assert OptionalText(d1, LastName) == OptionalText(d2, LastName);
    assert OptionalText(d1, Email) == OptionalText(d2, Email);
    assert OptionalText(d1, Phone) == OptionalText(d2, Phone);
    assert OptionalDay(d1, BirthDate) == OptionalDay(d2, BirthDate);
    assert OptionalText(d1, Department) == OptionalText(d2, Department);
    assert OptionalText(d1, Team) == OptionalText(d2, Team);
    assert OptionalNumber(d1, YearsOfExp) == OptionalNumber(d2, YearsOfExp);
    assert OptionalIds(d1, CompanyIds) == OptionalIds(d2, CompanyIds);
  }

  /** `EmployeeUpdate` declares no `id`, `companies` or timestamps: sending them changes nothing. */
  lemma UpdateIgnoresUndeclaredKeys(d: Dict, f: Field, v: Value)
    requires f !in UpdateFields
    ensures ParseEmployeeUpdate(d[f := v]) == ParseEmployeeUpdate(d)
  {
    UpdateParseIsLocal(d[f := v], d);
  }

  /** What the dump of the scalar fields holds, key by key. */
  lemma BaseDumpAt(b: EmployeeBase)
    ensures var d := DumpEmployeeBase(b);
      && (forall f :: f in d <==> f in BaseFields)
      && d[EmployeeId] == Text(b.employeeId) && d[FirstName] == Text(b.firstName)
      && d[LastName] == Text(b.lastName) && d[Email] == Text(b.email) && d[Phone] == Text(b.phone)
      && d[BirthDate] == DayOrNull(b.birthDate) && d[Department] == Text(b.department)
      && d[Team] == Text(b.team) && d[YearsOfExp] == Number(b.yearsOfExp)
  {
  }

  /** Dumping the scalar fields and re-validating them gives them back. */
  lemma BaseDumpRoundTrip(b: EmployeeBase)
    ensures ParseEmployeeBase(DumpEmployeeBase(b)) == Ok(b)
  {
    BaseDumpAt(b);
  }

  /** Dumping a create payload and re-validating it gives it back. */
  lemma CreateDumpRoundTrip(p: EmployeeCreate)
    ensures ParseEmployeeCreate(DumpEmployeeCreate(p)) == Ok(p)
  {
    var d := DumpEmployeeCreate(p);
    var withLinks := DumpEmployeeBase(p.base)[Companies := if p.companies.Some? then Snapshots(p.companies.value) else Null];
    assert ParseEmployeeBase(d) == Ok(p.base) by {
      BaseParseIgnores(withLinks, CompanyIds, IdList(p.companyIds));
      BaseParseIgnores(DumpEmployeeBase(p.base), Companies, withLinks[Companies]);
      BaseDumpRoundTrip(p.base);
    }
    assert OptionalSnapshots(d, Companies) == Ok(p.companies);
    assert RequiredIds(d, CompanyIds) == Ok(p.companyIds);
  }

  /** Dumping an update and re-validating it gives it back. */
  lemma UpdateDumpRoundTrip(u: EmployeeUpdate)
    ensures ParseEmployeeUpdate(DumpEmployeeUpdate(u)) == Ok(u)
  {
    UpdateDumpIdentity(u);
    UpdateDumpPlacement(u);
  }

  /** The identity and contact fields of a dumped update validate to what was set. */
  lemma UpdateDumpIdentity(u: EmployeeUpdate)
    ensures var d := DumpEmployeeUpdate(u);
      && OptionalEmployeeId(d) == Ok(u.employeeId)
      && OptionalText(d, FirstName) == Ok(u.firstName)
      && OptionalText(d, LastName) == Ok(u.lastName)
      && OptionalText(d, Email) == Ok(u.email)
      && OptionalText(d, Phone) == Ok(u.phone)
  {
    UpdateDumpKeys(u, EmployeeId);
    UpdateDumpKeys(u, FirstName);
    UpdateDumpKeys(u, LastName);
    UpdateDumpKeys(u, Email);
    UpdateDumpKeys(u, Phone);
  }

  /** The remaining fields of a dumped update validate to what was set. */
  lemma UpdateDumpPlacement(u: EmployeeUpdate)
    ensures var d := DumpEmployeeUpdate(u);
      && OptionalDay(d, BirthDate) == Ok(u.birthDate)
      && OptionalText(d, Department) == Ok(u.department)
      && OptionalText(d, Team) == Ok(u.team)
      && OptionalNumber(d, YearsOfExp) == Ok(u.yearsOfExp)
      && OptionalIds(d, CompanyIds) == Ok(u.companyIds)
  {
    UpdateDumpKeys(u, BirthDate);
    UpdateDumpKeys(u, Department);
    UpdateDumpKeys(u, Team);
    UpdateDumpKeys(u, YearsOfExp);
    UpdateDumpKeys(u, CompanyIds);
  }

  /** The keys of a dumped `EmployeeRead` beyond the scalar fields. */
  lemma DumpEmployeeAt(e: EmployeeRead)
    ensures var d := DumpEmployee(e);
      && AgreeOn(d, DumpEmployeeBase(e.base), BaseFields)
      && d[Id] == Ident(e.id) && d[Companies] == Snapshots(e.companies)
      && d[CreatedAt] == Instant(e.createdAt) && d[UpdatedAt] == Instant(e.updatedAt)
  {
    var d := DumpEmployee(e);
    forall f | f in BaseFields
      ensures (f in d <==> f in DumpEmployeeBase(e.base)) && (f in d ==> d[f] == DumpEmployeeBase(e.base)[f])
    {
      ScalarIsNotMeta(f);
    }
  }

  /** A dictionary whose scalar fields validate to `x.base`, and whose other keys hold `x`'s
      values or are absent where `x` holds what the default factory gives, validates to `x`. */
  lemma ReadFromParts(d: Dict, generatedId: Uuid, now: Timestamp, x: EmployeeRead)
    requires ParseEmployeeBase(d) == Ok(x.base)
    requires if Id in d then d[Id] == Ident(x.id) else x.id == generatedId
    requires if Companies in d then d[Companies] == Snapshots(x.companies) else x.companies == []
    requires if CreatedAt in d then d[CreatedAt] == Instant(x.createdAt) else x.createdAt == now
    requires if UpdatedAt in d then d[UpdatedAt] == Instant(x.updatedAt) else x.updatedAt == now
    ensures ParseEmployeeRead(d, generatedId, now) == Ok(x)
  {
  }

  /** `EmployeeRead(**e.model_dump())` is `e`: no default factory runs, whatever the clock. */
  lemma ReadDumpRoundTrip(e: EmployeeRead, generatedId: Uuid, now: Timestamp)
    ensures ParseEmployeeRead(DumpEmployee(e), generatedId, now) == Ok(e)
  {
    var d := DumpEmployee(e);
    DumpEmployeeAt(e);
    assert ParseEmployeeBase(d) == Ok(e.base) by {
      BaseParseIsLocal(d, DumpEmployeeBase(e.base));
      BaseDumpRoundTrip(e.base);
    }
    ReadFromParts(d, generatedId, now, e);
  }

  /** The create path: `model_dump(exclude={"company_ids"})`, `pop("companies")`, then
      `EmployeeRead(**employee_data, companies=linked)`. Whatever `companies` the payload held is
      gone; the record has the generated id, both timestamps from the clock and `linked`. */
  lemma CreateDictBuildsFreshRecord(p: EmployeeCreate, linked: seq<CompanyRead>, generatedId: Uuid, now: Timestamp)
    ensures DumpEmployeeCreate(p) - {CompanyIds, Companies} == DumpEmployeeBase(p.base)
    ensures ParseEmployeeRead((DumpEmployeeCreate(p) - {CompanyIds, Companies})[Companies := Snapshots(linked)], generatedId, now)
         == Ok(EmployeeRead(generatedId, p.base, linked, now, now))
  {
    CreateDictDropsLinks(p);
    FreshRecordFromScalars(p.base, linked, generatedId, now);
  }

  /** The scalar fields plus `companies`: every other field comes from its default factory. */
  lemma FreshRecordFromScalars(b: EmployeeBase, linked: seq<CompanyRead>, generatedId: Uuid, now: Timestamp)
    ensures ParseEmployeeRead(DumpEmployeeBase(b)[Companies := Snapshots(linked)], generatedId, now)
         == Ok(EmployeeRead(generatedId, b, linked, now, now))
  {
    ScalarsWithLinks(b, linked);
    ReadFromParts(DumpEmployeeBase(b)[Companies := Snapshots(linked)], generatedId, now,
                  EmployeeRead(generatedId, b, linked, now, now));
  }

  /** The scalar fields plus `companies` validate to the scalars and hold no id or timestamp. */
  lemma ScalarsWithLinks(b: EmployeeBase, linked: seq<CompanyRead>)
    ensures var d := DumpEmployeeBase(b)[Companies := Snapshots(linked)];
      ParseEmployeeBase(d) == Ok(b) && Id !in d && CreatedAt !in d && UpdatedAt !in d
  {
    MetaIsNotScalar();
    BaseParseIgnores(DumpEmployeeBase(b), Companies, Snapshots(linked));
    BaseDumpRoundTrip(b);
  }

  /** Validating the scalar fields ignores every key `EmployeeBase` does not declare. */
  lemma BaseParseIgnores(d: Dict, f: Field, v: Value)
    requires f !in BaseFields
    ensures ParseEmployeeBase(d[f := v]) == ParseEmployeeBase(d)
  {
    BaseParseIsLocal(d[f := v], d);
  }

  /** Excluding `company_ids` and popping `companies` leaves the scalar fields only. */
  lemma CreateDictDropsLinks(p: EmployeeCreate)
    ensures DumpEmployeeCreate(p) - {CompanyIds, Companies} == DumpEmployeeBase(p.base)
  {
    BaseDumpAt(p.base);
    assert (DumpEmployeeCreate(p) - {CompanyIds, Companies}).Keys == DumpEmployeeBase(p.base).Keys;
  }

  /** The PUT path: `EmployeeRead(id=employee_id, **employee_data, companies=linked)`. The path
      id, the payload's fields, `linked`, and both timestamps regenerated from the clock. */
  lemma ReplaceDictUsesPathId(id: Uuid, p: EmployeeCreate, linked: seq<CompanyRead>, generatedId: Uuid, now: Timestamp)
    ensures ParseEmployeeRead((DumpEmployeeCreate(p) - {CompanyIds, Companies})[Id := Ident(id)][Companies := Snapshots(linked)], generatedId, now)
         == Ok(EmployeeRead(id, p.base, linked, now, now))
  {
    var b := DumpEmployeeBase(p.base);
    CreateDictDropsLinks(p);
    MetaIsNotScalar();
    var d := b[Id := Ident(id)][Companies := Snapshots(linked)];
    assert ParseEmployeeBase(d) == Ok(p.base) by {
      BaseParseIgnores(b, Id, Ident(id));
      BaseParseIgnores(b[Id := Ident(id)], Companies, Snapshots(linked));
      BaseDumpRoundTrip(p.base);
    }
    ReadFromParts(d, generatedId, now, EmployeeRead(id, p.base, linked, now, now));
  }

  /** The delete cascade: `emp_dict["companies"] = updated_companies` and
      `EmployeeRead(**emp_dict)`. Only the snapshots change; id and timestamps are kept. */
  lemma CascadeDictKeepsTheRest(e: EmployeeRead, kept: seq<CompanyRead>, generatedId: Uuid, now: Timestamp)
    ensures ParseEmployeeRead(DumpEmployee(e)[Companies := Snapshots(kept)], generatedId, now) == Ok(e.(companies := kept))
  {
    assert DumpEmployee(e)[Companies := Snapshots(kept)] == DumpEmployee(e.(companies := kept));
    ReadDumpRoundTrip(e.(companies := kept), generatedId, now);
  }

  /** Writing the stored snapshots back over a dumped record changes nothing. */
  lemma SameSnapshotsChangeNothing(e: EmployeeRead)
    ensures DumpEmployee(e)[Companies := Snapshots(e.companies)] == DumpEmployee(e)
  {
    var d := DumpEmployee(e);
    assert Companies in d && d[Companies] == Snapshots(e.companies);
  }

  /** A scalar field of the merged record dumps to the update's value if it was set, else to
      the stored one. */
  lemma MergeDumpAt(b: EmployeeBase, u: EmployeeUpdate, f: Field)
    requires f in BaseFields
    ensures f in UpdateFields
    ensures DumpEmployeeBase(MergeEmployee(b, u))[f]
         == if UpdateEntry(u, f).Some? then UpdateEntry(u, f).value else DumpEmployeeBase(b)[f]
  {
    var m := MergeEmployee(b, u);
    assert DumpEmployeeBase(m)[f] == BaseEntry(m, f) && DumpEmployeeBase(b)[f] == BaseEntry(b, f);
  }

  /** A scalar field is none of the keys a read record adds, and an update declares it. */
  lemma ScalarIsNotMeta(f: Field)
    requires f in BaseFields
    ensures f != Id && f != Companies && f != CreatedAt && f != UpdatedAt && f != CompanyIds
    ensures f in UpdateFields
  {
  }

  /** None of the keys a read record adds is a scalar field. */
  lemma MetaIsNotScalar()
    ensures Id !in BaseFields && Companies !in BaseFields && CreatedAt !in BaseFields
    ensures UpdatedAt !in BaseFields && CompanyIds !in BaseFields
  {
  }

  /** A scalar field of the stored dictionary, with its snapshots replaced, is as stored. */
  lemma StoredDictAt(e: EmployeeRead, linked: seq<CompanyRead>, f: Field)
    requires f in BaseFields
    ensures var stored := DumpEmployee(e)[Companies := Snapshots(linked)];
      f in stored && stored[f] == DumpEmployeeBase(e.base)[f]
  {
    ScalarIsNotMeta(f);
  }

  /** A scalar field of the sent dictionary, without `company_ids`, is there exactly when the
      update sets it. */
  lemma SentDictAt(u: EmployeeUpdate, f: Field)
    requires f in BaseFields
    ensures var sent := DumpEmployeeUpdate(u) - {CompanyIds};
      && (f in sent <==> UpdateEntry(u, f).Some?)
      && (f in sent ==> sent[f] == UpdateEntry(u, f).value)
  {
    UpdateDumpKeys(u, f);
  }

  /** A scalar field of the PATCH dictionary holds what the merged record dumps to. */
  lemma PatchDictAt(e: EmployeeRead, u: EmployeeUpdate, linked: seq<CompanyRead>, f: Field)
    requires f in BaseFields
    ensures var d := DumpEmployee(e)[Companies := Snapshots(linked)] + (DumpEmployeeUpdate(u) - {CompanyIds});
      f in d && f in DumpEmployeeBase(MergeEmployee(e.base, u)) && d[f] == DumpEmployeeBase(MergeEmployee(e.base, u))[f]
  {
    MergeDumpAt(e.base, u, f);
    StoredDictAt(e, linked, f);
    SentDictAt(u, f);
  }

  /** The PATCH path: `stored["companies"] = linked` (only when `company_ids` was sent),
      `stored.update(update_data)` without `company_ids`, then `EmployeeRead(**stored)`. The
      set fields are merged, the snapshots are `linked`, id and both timestamps are kept. */
  lemma PatchDictMerges(e: EmployeeRead, u: EmployeeUpdate, linked: seq<CompanyRead>, generatedId: Uuid, now: Timestamp)
    ensures ParseEmployeeRead(DumpEmployee(e)[Companies := Snapshots(linked)] + (DumpEmployeeUpdate(u) - {CompanyIds}), generatedId, now)
         == Ok(e.(base := MergeEmployee(e.base, u), companies := linked))
  {
    var d := DumpEmployee(e)[Companies := Snapshots(linked)] + (DumpEmployeeUpdate(u) - {CompanyIds});
    PatchDictBase(e, u, linked);
    PatchDictRest(e, u, linked);
    ReadFromParts(d, generatedId, now, e.(base := MergeEmployee(e.base, u), companies := linked));
  }

  /** The scalar fields of the PATCH dictionary validate to the merged record. */
  lemma PatchDictBase(e: EmployeeRead, u: EmployeeUpdate, linked: seq<CompanyRead>)
    ensures ParseEmployeeBase(DumpEmployee(e)[Companies := Snapshots(linked)] + (DumpEmployeeUpdate(u) - {CompanyIds}))
         == Ok(MergeEmployee(e.base, u))
  {
    var d := DumpEmployee(e)[Companies := Snapshots(linked)] + (DumpEmployeeUpdate(u) - {CompanyIds});
    var m := MergeEmployee(e.base, u);
    forall f | f in BaseFields
      ensures (f in d <==> f in DumpEmployeeBase(m)) && (f in d ==> d[f] == DumpEmployeeBase(m)[f])
    {
      PatchDictAt(e, u, linked, f);
    }
    BaseParseIsLocal(d, DumpEmployeeBase(m));
    BaseDumpRoundTrip(m);
  }

  /** The PATCH dictionary keeps the stored id and timestamps and holds `linked`. */
  lemma PatchDictRest(e: EmployeeRead, u: EmployeeUpdate, linked: seq<CompanyRead>)
    ensures var d := DumpEmployee(e)[Companies := Snapshots(linked)] + (DumpEmployeeUpdate(u) - {CompanyIds});
      && Id in d && d[Id] == Ident(e.id) && Companies in d && d[Companies] == Snapshots(linked)
      && CreatedAt in d && d[CreatedAt] == Instant(e.createdAt) && UpdatedAt in d && d[UpdatedAt] == Instant(e.updatedAt)
  {
    UpdateDumpKeys(u, Id);
    UpdateDumpKeys(u, Companies);
    UpdateDumpKeys(u, CreatedAt);
    UpdateDumpKeys(u, UpdatedAt);
  }

  /** An update that sets nothing leaves every scalar field as stored. */
  lemma EmptyMergeIsIdentity(b: EmployeeBase)
    ensures MergeEmployee(b, EmptyEmployeeUpdate()) == b
  {
  }

  /** Applying the same update twice is applying it once. */
  lemma MergeIdempotent(b: EmployeeBase, u: EmployeeUpdate)
    ensures MergeEmployee(MergeEmployee(b, u), u) == MergeEmployee(b, u)
  {
  }
}
