# Employee/Company store: a Dafny model

This project models the core of a small FastAPI service. The service keeps two in-memory
dictionaries: companies and employees, each keyed by a UUID. It exposes create, get, list
(with filters), partial update (PATCH), full replace (PUT) and delete for both. Records are
Pydantic models:

- A company has a required name and optional website, industry, founding date and size.
- An employee has a patterned business id (`^[A-Z]{2,3}\d{3,5}$`), names, contact data,
  department, team, years of experience, and the list of companies it is linked to.
- The server owns every record's `id`, `created_at` and `updated_at`. Each is filled by a
  default factory when it is absent from the dictionary a record is built from.

An employee does not store company ids. It stores *snapshots*: copies of the company records
taken when the link was made. The snapshots are not refreshed when a company is later patched
or replaced. Deleting a company removes its snapshots from every employee.

The model has six layers:

- `common.dfy`: identifiers, timestamps, `Option`, `Result`, and the error kinds.
  - `NotFound` is a missing path id.
  - `UnknownCompany(id)` is the 404 naming a missing company id.
  - `Conflict` is the 400 for an id collision.
  - `Invalid` is a validation failure.
- `employee_id.dfy`: the employee-id pattern as a validator, proved equal to the pattern read
  literally.
- `records.dfy`, `company_models.dfy`, `employee_models.dfy`: the Pydantic classes.
  - Records are datatypes.
  - A dictionary (request body or `model_dump()`) is a `map<Field, Value>`.
  - Validation `Cls(**d)` is a `Parse…` function taking the fresh id and clock reading the
    default factories would produce.
  - `model_dump` is a `Dump…` function.
  - The lemmas show what each handler's dump, edit and rebuild sequence produces as a record.
- `seqs.dfy`: list comprehensions (`Filter`) and `list(d.values())` (`Values`, over the keys in
  insertion order).
- `queries.dfy`: the two list handlers as their chains of comprehensions, each proved equal to
  one filter by the conjunction of the supplied parameters.
- `store.dfy`: class `Store`, holding the two dictionaries as maps plus their key orders, with
  one method per handler.
  - Every handler method preserves `Valid()`. It requires that:
    - each key order lists its map's keys exactly once;
    - every record sits under its own id;
    - every embedded snapshot is of a stored company.
  - Every handler method states its result and its whole new state, including "nothing
    changes" on each error path.
  - `PruneSnapshots`, the loop step inside `DeleteCompany`, needs only the employee key order.
    It keeps the keys and that order, and `DeleteCompany` re-establishes `Valid()` after it.

Where the code and the documented intent differ, the model follows the code:

- PATCH keeps both stored timestamps. `updated_at` is not refreshed, because `CompanyRead(**stored)`
  finds it in `stored`.
- PUT regenerates both `created_at` and `updated_at` from the clock.
- The delete cascade keeps the timestamps of the employees it rewrites.
- A company name may be any string, including the empty one.
- `employee_id` is not unique across employees.

## Model

| member | source | states |
|---|---|---|
| EmployeeIdPattern.LeadingUpper | models/employee.py:11 | the measured run of capitals fits in the string, is all `A`-`Z`, and is followed by the end or by a character that is not a capital |
| EmployeeIdPattern.IsEmployeeId | models/employee.py:11 | the validator, by definition: the leading run of capitals is 2 or 3 long and the rest is 3 to 5 ASCII digits; `IsEmployeeIdMatchesPattern` proves it equal to the pattern |
| EmployeeIdPattern.IsEmployeeIdMatchesPattern | models/employee.py:11 | the validator accepts a string iff it splits into 2-3 capitals followed by 3-5 digits |
| EmployeeIdPattern.EmployeeIdShape | models/employee.py:10-11 | an accepted id is 5-8 characters long, starts with a capital and ends with a digit |
| EmployeeIdPattern.LeadingUpperOf | models/employee.py:11 | the run of capitals `[A-Z]` the validator measures is exactly the capital prefix when the next character is not a capital |
| EmployeeIdPattern.Accepts | models/employee.py:11 | any two or three capitals followed by three to five digits are accepted |
| EmployeeIdPattern.DocumentedExamplesAccepted | models/employee.py:10-18 | the ids the type's comment and the `employee_id` field give as examples, AD123 and JDS45678, are accepted |
| EmployeeIdPattern.CreateExampleAccepted | models/employee.py:116 | the id of the `EmployeeCreate` schema example, JD567, is accepted |
| EmployeeIdPattern.NearMissesRejected | models/employee.py:11 | one letter, four letters, lower case, two digits, six digits and a trailing letter are each rejected |
| CompanyModels.ParseCompanyCreate | models/company.py:8-33 | a body without `name` is invalid; on success the name is the body's and every absent optional field is none |
| CompanyModels.ParseCompanyUpdate | models/company.py:55-80 | a body with no declared field is the empty update; a sent name must be a string and becomes the update's name |
| CompanyModels.ParseCompanyRead | models/company.py:101-116 | succeeds iff the base fields validate and any present id/timestamps have the right kind; id and timestamps come from the dictionary when present, else from the factories |
| CompanyModels.DumpCompanyBase | models/company.py:8-33 | by definition `model_dump()` of a payload holds the five base fields, an unset optional one as null; `BaseDumpRoundTrip` proves validation gives the payload back |
| CompanyModels.DumpCompany | models/company.py:101-116 | by definition the base dump plus `id`, `created_at` and `updated_at`; `DumpCompanyKeys` and `ReadDumpRoundTrip` are its lemmas |
| CompanyModels.DumpCompanyUpdate | main.py:90 | by definition `model_dump(exclude_unset=True)`, holding only the fields the update sets; `UpdateDumpKeys` and `UpdateDumpRoundTrip` are its lemmas |
| CompanyModels.MergeCompany | main.py:89-91 | by definition each base field is the update's value when set and the stored one otherwise; `PatchDictMerges` proves the dictionary path computes it |
| CompanyModels.DumpCompanyKeys | models/company.py:101-116 | a dumped company holds exactly the five base fields, `id`, `created_at` and `updated_at` |
| CompanyModels.UpdateDumpKeys | main.py:90 | the `exclude_unset` dump of an update holds exactly the fields the update sets, with their values |
| CompanyModels.CreateIgnoresUndeclaredKeys | models/company.py:50-52 | a key `CompanyCreate` does not declare (an id or a timestamp included) does not change what a body validates to |
| CompanyModels.UpdateIgnoresUndeclaredKeys | models/company.py:55-80 | likewise for `CompanyUpdate`: a PATCH body cannot carry an id or timestamps |
| CompanyModels.NameAloneSuffices | models/company.py:8-33 | a body with only a name validates to that name and no other field |
| CompanyModels.BaseDumpRoundTrip | main.py:58 | validating the dump of a company payload gives the payload back |
| CompanyModels.UpdateDumpRoundTrip | main.py:90 | validating the dump of an update gives the update back |
| CompanyModels.ReadDumpRoundTrip | main.py:89-91 | rebuilding a company from its dump gives it back, whatever id and clock the factories would supply |
| CompanyModels.CreateDictBuildsFreshRecord | main.py:58 | the create path builds the payload's fields under the generated id, with both timestamps from the clock |
| CompanyModels.PatchDictIsDumpOfMerge | main.py:89-90 | the stored dump updated by the update's dump is the dump of the merged record |
| CompanyModels.PatchDictMerges | main.py:89-91 | the PATCH rebuild is the stored record with the set fields overwritten, same id, same two timestamps |
| CompanyModels.ReplaceDictUsesPathId | main.py:100-103 | the PUT rebuild has the path id, the payload's fields, and both timestamps from the clock |
| CompanyModels.EmptyMergeIsIdentity | main.py:89-91 | an update that sets nothing leaves every base field as stored |
| CompanyModels.MergeIdempotent | main.py:89-91 | applying an update twice equals applying it once |
| Records.RequiredText | models/employee.py:20-29 | by definition a required `str` is accepted only when the key holds a string, and gives that string; `RequiredRoundTrip` proves a dumped string validates back and a missing or null one is rejected |
| Records.RequiredNumber | models/employee.py:55-59 | by definition a required `int` is accepted only when the key holds an integer; `RequiredRoundTrip` proves a dumped integer validates back and a missing or null one is rejected |
| Records.RequiredIds | models/employee.py:108-110 | by definition a required `List[UUID]` is accepted only when the key holds a list of ids; `RequiredRoundTrip` proves a dumped list validates back and a missing or null one is rejected |
| Records.OptionalText | models/company.py:19-23 | by definition an `Optional[str] = None` is none when absent or null, else must be a string; `OptionalRoundTrip` proves its dump validates back and an absent key is none |
| Records.OptionalDay | models/company.py:24-28 | by definition an `Optional[date] = None` is none when absent or null, else must be a date; `OptionalRoundTrip` proves its dump validates back and an absent key is none |
| Records.OptionalNumber | models/employee.py:146 | by definition an `Optional[int] = None` is none when absent or null, else must be an integer; `OptionalRoundTrip` proves a sent integer validates back and an absent key is none |
| Records.OptionalIds | models/employee.py:147-151 | by definition an `Optional[List[UUID]] = None` is none when absent or null, else must be a list of ids; `OptionalRoundTrip` proves a sent list validates back and an absent key is none |
| Records.OptionalSnapshots | models/employee.py:60-75 | by definition an `Optional[List[CompanyRead]] = None` is none when absent or null, else must be a list of companies; `OptionalRoundTrip` proves a sent list validates back and an absent key is none |
| Records.UuidOr | models/company.py:102-106 | by definition a `UUID` with `default_factory=uuid4`; `FactoryRoundTrip` proves an absent key gives the generated id, a stored id validates back and a null is rejected |
| Records.InstantOr | models/company.py:107-116 | by definition a `datetime` with `default_factory=datetime.utcnow`; `FactoryRoundTrip` proves an absent key gives the clock reading, a stored timestamp validates back and a null is rejected |
| Records.SnapshotsOr | models/employee.py:181-196 | by definition a `List[CompanyRead]` with `default_factory=list`; `FactoryRoundTrip` proves an absent key gives the empty list, a stored list validates back and a null is rejected |
| Records.RequiredRoundTrip | models/employee.py:20-29 | a required `str`, `int` or `List[UUID]` field validates its dumped value back to that value; a missing key or a null is rejected |
| Records.OptionalRoundTrip | models/company.py:19-28 | an optional field validates its dump (`None` as null) back to the same value; an absent key is none |
| Records.FactoryRoundTrip | models/company.py:102-116 | a default-factory field takes the factory value only when absent; a stored value validates back to itself; a null is rejected |
| EmployeeModels.RequiredEmployeeId | models/employee.py:15-19 | by definition the field must be present, a string, and match the pattern; `EmployeeIdRoundTrip` proves a matching id validates back and a non-matching one is rejected, and the bad-id clause of `ParseEmployeeBase` carries this to the payload |
| EmployeeModels.OptionalEmployeeId | models/employee.py:136-138 | by definition absent or null is "not set" and a present string must match the pattern; `EmployeeIdRoundTrip` proves both, and the bad-id clause of `ParseEmployeeUpdate` carries this to the update |
| EmployeeModels.EmployeeIdRoundTrip | models/employee.py:15-19 | an id matching the pattern validates back to itself, required or optional; a non-matching string is rejected by both; an absent optional id is none |
| EmployeeModels.ParseEmployeeBase | models/employee.py:14-59 | success needs every required field; an id not matching the pattern is invalid; an absent birth date is none |
| EmployeeModels.ParseEmployeeCreate | models/employee.py:106-110 | success needs `company_ids` too; the base part is what `EmployeeBase` validates |
| EmployeeModels.ParseEmployeeUpdate | models/employee.py:134-151 | a body with no declared field is the empty update; an id not matching the pattern is invalid; a sent id becomes the update's id |
| EmployeeModels.ParseEmployeeRead | models/employee.py:164-196 | succeeds iff the base validates and any present id/companies/timestamps have the right kind; those come from the dictionary when present, else from the factories (`companies` defaults to empty) |
| EmployeeModels.DumpEmployeeBase | models/employee.py:14-59 | by definition the nine scalar fields, an unset birth date as null; `BaseDumpRoundTrip` proves validation gives them back |
| EmployeeModels.DumpEmployeeCreate | models/employee.py:106-110 | by definition the scalar dump plus `companies` (null when unset) and `company_ids`; `CreateDumpRoundTrip` is its lemma |
| EmployeeModels.DumpEmployee | models/employee.py:164-196 | by definition the scalar dump plus `id`, `companies` and both timestamps; `DumpEmployeeKeys` and `ReadDumpRoundTrip` are its lemmas |
| EmployeeModels.DumpEmployeeUpdate | main.py:196 | by definition `model_dump(exclude_unset=True)`, holding only the fields the update sets, `company_ids` included; `UpdateDumpKeys` and `UpdateDumpRoundTrip` are its lemmas |
| EmployeeModels.MergeEmployee | main.py:207-208 | by definition each scalar field is the update's value when set and the stored one otherwise; `PatchDictMerges` proves the dictionary path computes it |
| EmployeeModels.DumpEmployeeKeys | models/employee.py:164-196 | a dumped employee holds exactly the nine base fields, `id`, `companies` and both timestamps |
| EmployeeModels.UpdateDumpKeys | main.py:196 | the `exclude_unset` dump of an update holds exactly the fields the update sets, `company_ids` included |
| EmployeeModels.BaseParseIsLocal | models/employee.py:14-59 | base validation depends only on the nine base keys |
| EmployeeModels.UpdateParseIsLocal | models/employee.py:134-151 | update validation depends only on the declared update keys |
| EmployeeModels.UpdateIgnoresUndeclaredKeys | models/employee.py:134-151 | a key `EmployeeUpdate` does not declare does not change what a body validates to |
| EmployeeModels.BaseDumpRoundTrip | models/employee.py:14-59 | validating the dump of the scalar fields gives them back |
| EmployeeModels.CreateDumpRoundTrip | models/employee.py:106-110 | validating the dump of a create payload gives the payload back |
| EmployeeModels.UpdateDumpRoundTrip | main.py:196 | validating the dump of an update gives the update back |
| EmployeeModels.ReadDumpRoundTrip | main.py:116-118 | rebuilding an employee from its dump gives it back, whatever the factories would supply |
| EmployeeModels.CreateDictDropsLinks | main.py:137-138 | the create payload's dump without `company_ids` and `companies` is the dump of its scalar fields |
| EmployeeModels.CreateDictBuildsFreshRecord | main.py:134-140 | the create path builds the scalar fields with the resolved snapshots, the generated id and both timestamps from the clock, whatever `companies` the payload sent |
| EmployeeModels.ReplaceDictUsesPathId | main.py:220-228 | the PUT rebuild has the path id, the payload's scalar fields, the resolved snapshots and both timestamps from the clock |
| EmployeeModels.CascadeDictKeepsTheRest | main.py:116-118 | the cascade's rebuild changes the snapshots and nothing else, timestamps included |
| EmployeeModels.PatchDictMerges | main.py:194-208 | the PATCH rebuild is the stored record with the set fields overwritten and the given snapshots, same id and both timestamps |
| EmployeeModels.EmptyMergeIsIdentity | main.py:207-208 | an update that sets nothing leaves every scalar field as stored |
| EmployeeModels.MergeIdempotent | main.py:207-208 | applying an update twice equals applying it once |
| Seqs.Filter | main.py:70-76 | a comprehension is no longer than its input, keeps only passing elements, and keeps every passing one |
| Seqs.FilterIsSubsequence | main.py:70-76 | a comprehension keeps the relative order of what it keeps |
| Seqs.FilterShorterIff | main.py:114-115 | the comprehension is shorter than its input iff some element fails the guard |
| Seqs.FilterTwice | main.py:71-76 | two comprehensions in a row equal one comprehension by the conjunction |
| Seqs.FilterNoDup | main.py:119 | filtering a list without repeats leaves none |
| Seqs.Values | main.py:70 | by definition `list(d.values())`, one value per key in key order; `ValuesAppend`, `ValuesFilter` and `ResolveKeepsIds` state what the handlers rely on |
| Seqs.ValuesAppend | main.py:61 | inserting a new key appends its value to the listing |
| Seqs.ValuesFilter | main.py:119 | listing only the kept keys lists exactly the values the matching guard keeps |
| Queries.ListCompanies | main.py:70-77 | by definition the handler's chain: all companies, then one comprehension per supplied parameter in the order name, industry, size; `ListCompaniesIsFilter` and `ListCompaniesSpec` are its lemmas |
| Queries.CompanyMatches | main.py:65-68 | by definition the conjunction of the supplied parameters, each an equality with the company's field |
| Queries.ListEmployees | main.py:160-181 | by definition the handler's nine-step chain, in its order; `ListEmployeesIsFilter` and `ListEmployeesSpec` are its lemmas |
| Queries.EmployeeMatches | main.py:149-158 | by definition the conjunction of the supplied parameters: equalities, an inclusive lower bound on experience, and a linked company with the name |
| Queries.Narrow | main.py:71-76 | one `if param is not None` line turns "passes the guards so far" into "passes them and this one, if supplied" |
| Queries.ListCompaniesIsFilter | main.py:64-77 | the company chain equals one filter by "matches every supplied parameter" |
| Queries.ListCompaniesSpec | main.py:64-77 | the listing is ordered, sound and complete for that conjunction, and is everything when no parameter is supplied |
| Queries.ListEmployeesIsFilter | main.py:148-181 | the nine-step employee chain equals one filter by the conjunction |
| Queries.ListEmployeesSpec | main.py:148-181 | the listing is ordered, sound and complete for that conjunction, and is everything when no parameter is supplied |
| Queries.ExperienceBoundInclusive | main.py:176-177 | `min_years_of_exp` keeps an employee with exactly that many years |
| Queries.DepartmentAndExperienceExample | main.py:172-177 | of Eng/2, Eng/6 and Sales/6, department Eng with at least 5 years lists only Eng/6 |
| EntityStore.FirstMissing | main.py:129-131 | no id is reported iff every id is stored; a reported id is listed and not stored |
| EntityStore.FirstMissingIsFirst | main.py:129-131 | the reported id is the first unknown one: every id listed before it is stored |
| EntityStore.ResolveKeepsIds | main.py:134 | in a valid store the snapshots looked up for a list of ids (`Values` of the ids) carry those ids, in order, all of stored companies |
| EntityStore.Unlink | main.py:114-118 | by definition the cascade for one employee: the comprehension without the company's snapshots, rebuilt only when it is shorter; `UnlinkSpec` states its effect |
| EntityStore.UnlinkAll | main.py:113-118 | by definition the cascade applied at every key; `CascadeReachesEveryone` proves the loop computes it |
| EntityStore.UnlinkSpec | main.py:114-118 | the cascade drops exactly the snapshots of the deleted company, keeps the rest in order, changes nothing else, and leaves an employee without such a snapshot as it was |
| EntityStore.SnapshotsStayLive | main.py:113-119 | after the cascade every remaining snapshot is of a company that is still stored |
| EntityStore.RemoveFromListing | main.py:119 | deleting a key keeps the key order exact and removes exactly that record from the listing |
| EntityStore.RebuildWithSnapshots | main.py:116-118 | rebuilding an employee from its dump with the snapshots replaced gives the employee with those snapshots and every other field, timestamps included, unchanged |
| EntityStore.ApplyEmployeePatch | main.py:194-208 | the PATCH rebuild keeps the id and both timestamps, overwrites exactly the scalar fields the update sets, and replaces the snapshots only when new ones were resolved |
| EntityStore.CascadeReachesEveryone | main.py:113-118 | a pass applying the cascade at every listed key applies it to the whole dictionary and keeps every snapshot live |
| EntityStore.Store.constructor | main.py:21-22 | the store starts with both dictionaries empty and valid |
| EntityStore.Store.CompanyList | main.py:70 | by definition `list(companies.values())`, the records in insertion order |
| EntityStore.Store.EmployeeList | main.py:160 | by definition `list(employees.values())`, the records in insertion order |
| EntityStore.Store.CreateCompany | main.py:56-62 | a taken id is a conflict with nothing changed; otherwise the payload is stored under the new id with both timestamps from the clock and appended to the listing |
| EntityStore.Store.GetCompany | main.py:79-83 | the stored company, or not found exactly when the id is absent |
| EntityStore.Store.ListCompanies | main.py:64-77 | the stored companies, in insertion order, filtered by the conjunction of the supplied parameters |
| EntityStore.Store.UpdateCompany | main.py:85-92 | not found with nothing changed; otherwise the merge under the same id and timestamps, with every employee snapshot left as it was |
| EntityStore.Store.ReplaceCompany | main.py:94-106 | not found with nothing changed; otherwise the payload under the path id with both timestamps from the clock |
| EntityStore.Store.DeleteCompany | main.py:108-120 | not found with nothing changed; otherwise the company leaves the map and the listing, every employee is cascaded, and no snapshot of it remains |
| EntityStore.Store.PruneSnapshots | main.py:113-118 | the loop cascades every employee, keeping the keys and the key order |
| EntityStore.Store.CreateEmployee | main.py:126-146 | the first unknown company id is reported with nothing changed; then a taken id is a conflict; otherwise the scalar fields with the resolved snapshots are stored under the new id and appended |
| EntityStore.Store.FindMissingCompany | main.py:129-131 | the loop reports exactly `FirstMissing` of the ids against the stored companies |
| EntityStore.Store.GetEmployee | main.py:183-187 | the stored employee, or not found exactly when the id is absent |
| EntityStore.Store.ListEmployees | main.py:148-181 | the stored employees, in insertion order, filtered by the conjunction of the supplied parameters |
| EntityStore.Store.UpdateEmployee | main.py:189-209 | not found, then an unknown company id, each with nothing changed; otherwise the merge with the re-resolved snapshots if `company_ids` was sent (else the stored ones), same id and timestamps |
| EntityStore.Store.ReplaceEmployee | main.py:211-231 | not found, then an unknown company id, each with nothing changed; otherwise the payload's scalar fields, resolved snapshots, path id and both timestamps from the clock |
| EntityStore.Store.DeleteEmployee | main.py:233-238 | not found with nothing changed; otherwise only that employee leaves the map and the listing |
| EntityStore.LinkThenDeleteCompany | main.py:108-146 | create a company, create an employee linked to it, delete the company: the employee was created with the company's snapshot, the company is then not found, and the employee has no snapshots |

## Left out

- The health endpoints, the root endpoint and the `uvicorn` entry point (main.py:34-54, 243-253) touch neither store.
- Routing, status codes (201, 204, 400, 404, 422) and response serialisation are not modelled: each handler returns a `Result` whose error kind stands for the status.
- `EmailStr` and `AnyUrl` validation is not modelled: email and website are plain strings. Dates and datetimes are integers, with no calendar and no ISO-8601 parsing.
- Pydantic's lax coercions (a numeric string accepted for an `int`, for example) are not modelled: dictionary values arrive already decoded to their kind.
- `uuid4()` and `datetime.utcnow()` are parameters (`newId`, `now`). The source reads the clock once per timestamp field, so `created_at` and `updated_at` of a new record can differ by microseconds; the model uses one `now` for both.
- A field sent as explicit `null` in a PATCH body is treated as not sent. In the source it counts as set, with three outcomes:
  - a null optional scalar field would be cleared;
  - a null required field would make the rebuild fail;
  - a null `company_ids` in an employee PATCH makes `update_data.pop("company_ids")` return `None`, so the loop at main.py:201 raises (a server error) before anything is written. The model instead returns the employee with its fields as stored.
- `EmployeeIdPattern.IsEmployeeId`: only ASCII digits are accepted for `\d`, while the source's regex also accepts other Unicode decimal digits.
- Concurrency: requests run one at a time; the unguarded sharing of the two dictionaries across worker threads is not modelled.
- `employee_data.pop("id", None)` in `replace_employee` is a no-op, since `EmployeeCreate` declares no `id`; the model has nothing for it.
- Snapshots are not refreshed when a company is patched or replaced. This is the source's behaviour, not an omission: `EntityStore.Store.UpdateCompany` and `EntityStore.Store.ReplaceCompany` state that the employees are unchanged.
