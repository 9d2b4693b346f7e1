/** The Pydantic record shapes of models/company.py and models/employee.py, and the plain
    dictionaries (`model_dump()`, request bodies) that are validated into them. */
module Records {
  import opened Common
  import opened EmployeeIdPattern

  /** `CompanyBase`, which `CompanyCreate` is without additions: a name is required, the other
      four fields may be absent. */
  datatype CompanyBase = CompanyBase(
    name: string,
    website: Option<Url>,
    industry: Option<string>,
    founded: Option<Date>,
    size: Option<string>)

  /** `CompanyUpdate`: every field optional (`None` = not sent), and no `id` or timestamps. */
  datatype CompanyUpdate = CompanyUpdate(
    name: Option<string>,
    website: Option<Url>,
    industry: Option<string>,
    founded: Option<Date>,
    size: Option<string>)

  /** `CompanyRead`: the base fields plus the server-owned id and timestamps. */
  datatype CompanyRead = CompanyRead(id: Uuid, base: CompanyBase, createdAt: Timestamp, updatedAt: Timestamp)

  /** `EmployeeIDType`: a string that matches the employee id pattern. */
  type EmployeeIdStr = s: string | IsEmployeeId(s) witness "AD123"

  /** The scalar fields `EmployeeBase` declares; its `companies` field is typed differently by
      each variant and so is kept beside it in `EmployeeCreate` and `EmployeeRead`. */
  datatype EmployeeBase = EmployeeBase(
    employeeId: EmployeeIdStr,
    firstName: string,
    lastName: string,
    email: string,
    phone: string,
    birthDate: Option<Date>,
    department: string,
    team: string,
    yearsOfExp: int)

  /** `EmployeeCreate`: the base fields, the inherited optional `companies` (which every
      handler discards), and the required `company_ids`. */
  datatype EmployeeCreate = EmployeeCreate(
    base: EmployeeBase,
    companies: Option<seq<CompanyRead>>,
    companyIds: seq<Uuid>)

  /** `EmployeeUpdate`: every field optional, no `id`, `companies` or timestamps. */
  datatype EmployeeUpdate = EmployeeUpdate(
    employeeId: Option<EmployeeIdStr>,
    firstName: Option<string>,
    lastName: Option<string>,
    email: Option<string>,
    phone: Option<string>,
    birthDate: Option<Date>,
    department: Option<string>,
    team: Option<string>,
    yearsOfExp: Option<int>,
    companyIds: Option<seq<Uuid>>)

  /** `EmployeeRead`: the base fields, the embedded company snapshots, and the server-owned
      id and timestamps. */
  datatype EmployeeRead = EmployeeRead(
    id: Uuid,
    base: EmployeeBase,
    companies: seq<CompanyRead>,
    createdAt: Timestamp,
    updatedAt: Timestamp)

  /** The keys a dictionary can hold: every field name of the two record kinds, or any other. */
  datatype Field =
    | Id | Name | Website | Industry | Founded | Size | CreatedAt | UpdatedAt
    | EmployeeId | FirstName | LastName | Email | Phone | BirthDate | Department | Team
    | YearsOfExp | Companies | CompanyIds
    | Other(key: string)

  /** A dictionary value, already decoded to the kind of its field; nested company objects are
      carried as records. */
  datatype Value =
    | Text(text: string)
    | Number(number: int)
    | Day(day: Date)
    | Ident(uuid: Uuid)
    | Instant(time: Timestamp)
    | IdList(ids: seq<Uuid>)
    | Snapshots(snapshots: seq<CompanyRead>)
    | Null

  /** A request body or the result of `model_dump()`. */
  type Dict = map<Field, Value>

  // Validation of one field, as Pydantic does it for each declared type.

  /** A required `str`. */
  function RequiredText(d: Dict, f: Field): Result<string> {
    if f in d && d[f].Text? then Ok(d[f].text) else Err(Invalid)
  }

  /** A required `int`. */
  function RequiredNumber(d: Dict, f: Field): Result<int> {
    if f in d && d[f].Number? then Ok(d[f].number) else Err(Invalid)
  }

  /** A required `List[UUID]`. */
  function RequiredIds(d: Dict, f: Field): Result<seq<Uuid>> {
    if f in d && d[f].IdList? then Ok(d[f].ids) else Err(Invalid)
  }

  /** An `Optional[str] = None`: absent or null gives `None`. */
  function OptionalText(d: Dict, f: Field): Result<Option<string>> {
    if f !in d || d[f].Null? then Ok(None) else if d[f].Text? then Ok(Some(d[f].text)) else Err(Invalid)
  }

  /** An `Optional[date] = None`. */
  function OptionalDay(d: Dict, f: Field): Result<Option<Date>> {
    if f !in d || d[f].Null? then Ok(None) else if d[f].Day? then Ok(Some(d[f].day)) else Err(Invalid)
  }

  /** An `Optional[int] = None`. */
  function OptionalNumber(d: Dict, f: Field): Result<Option<int>> {
    if f !in d || d[f].Null? then Ok(None) else if d[f].Number? then Ok(Some(d[f].number)) else Err(Invalid)
  }

  /** An `Optional[List[UUID]] = None`. */
  function OptionalIds(d: Dict, f: Field): Result<Option<seq<Uuid>>> {
    if f !in d || d[f].Null? then Ok(None) else if d[f].IdList? then Ok(Some(d[f].ids)) else Err(Invalid)
  }

  /** An `Optional[List[CompanyRead]] = None`. */
  function OptionalSnapshots(d: Dict, f: Field): Result<Option<seq<CompanyRead>>> {
    if f !in d || d[f].Null? then Ok(None) else if d[f].Snapshots? then Ok(Some(d[f].snapshots)) else Err(Invalid)
  }

  /** A field with `default_factory`: absent gives the factory's value, present must have the type. */
  function UuidOr(d: Dict, f: Field, generated: Uuid): Result<Uuid> {
    if f !in d then Ok(generated) else if d[f].Ident? then Ok(d[f].uuid) else Err(Invalid)
  }

  /** A `datetime` field with `default_factory=datetime.utcnow`. */
  function InstantOr(d: Dict, f: Field, now: Timestamp): Result<Timestamp> {
    if f !in d then Ok(now) else if d[f].Instant? then Ok(d[f].time) else Err(Invalid)
  }

  /** A `List[CompanyRead]` field with `default_factory=list`. */
  function SnapshotsOr(d: Dict, f: Field): Result<seq<CompanyRead>> {
    if f !in d then Ok([]) else if d[f].Snapshots? then Ok(d[f].snapshots) else Err(Invalid)
  }

  /** The dumped form of an optional string / date / int. */
  function TextOrNull(o: Option<string>): Value { if o.Some? then Text(o.value) else Null }
  function DayOrNull(o: Option<Date>): Value { if o.Some? then Day(o.value) else Null }

  /** A required field validates the value its dump holds back to that value; a missing key or
      a null is rejected, whatever else the dictionary holds. */
  lemma RequiredRoundTrip(d: Dict, f: Field, s: string, n: int, ids: seq<Uuid>)
    ensures RequiredText(d[f := Text(s)], f) == Ok(s)
    ensures RequiredNumber(d[f := Number(n)], f) == Ok(n)
    ensures RequiredIds(d[f := IdList(ids)], f) == Ok(ids)
    ensures RequiredText(d - {f}, f).Err? && RequiredNumber(d - {f}, f).Err? && RequiredIds(d - {f}, f).Err?
    ensures RequiredText(d[f := Null], f).Err? && RequiredNumber(d[f := Null], f).Err? && RequiredIds(d[f := Null], f).Err?
  {
  }

  /** An optional field validates its dumped value, `None` dumped as null included, back to that
      value; an absent key is `None`. */
  lemma OptionalRoundTrip(d: Dict, f: Field, text: Option<string>, day: Option<Date>, n: int,
                          ids: seq<Uuid>, cs: seq<CompanyRead>)
    ensures OptionalText(d[f := TextOrNull(text)], f) == Ok(text)
    ensures OptionalDay(d[f := DayOrNull(day)], f) == Ok(day)
    ensures OptionalNumber(d[f := Number(n)], f) == Ok(Some(n))
    ensures OptionalIds(d[f := IdList(ids)], f) == Ok(Some(ids))
    ensures OptionalSnapshots(d[f := Snapshots(cs)], f) == Ok(Some(cs))
    ensures OptionalText(d - {f}, f) == Ok(None) && OptionalDay(d - {f}, f) == Ok(None)
    ensures OptionalNumber(d - {f}, f) == Ok(None) && OptionalIds(d - {f}, f) == Ok(None)
    ensures OptionalSnapshots(d - {f}, f) == Ok(None)
  {
  }

  /** A field with a default factory takes the factory's value only when the key is absent;
      a dumped value validates back to itself, and a null is rejected. */
  lemma FactoryRoundTrip(d: Dict, f: Field, id: Uuid, generated: Uuid, t: Timestamp, now: Timestamp,
                         cs: seq<CompanyRead>)
    ensures UuidOr(d - {f}, f, generated) == Ok(generated) && UuidOr(d[f := Ident(id)], f, generated) == Ok(id)
    ensures InstantOr(d - {f}, f, now) == Ok(now) && InstantOr(d[f := Instant(t)], f, now) == Ok(t)
    ensures SnapshotsOr(d - {f}, f) == Ok([]) && SnapshotsOr(d[f := Snapshots(cs)], f) == Ok(cs)
    ensures UuidOr(d[f := Null], f, generated).Err? && InstantOr(d[f := Null], f, now).Err?
    ensures SnapshotsOr(d[f := Null], f).Err?
  {
  }
}
