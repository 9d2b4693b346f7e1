/** main.py: the two module-level dictionaries `companies` and `employees` and the handlers
    that read and change them. Each dictionary is a map plus the sequence of its keys in
    insertion order, which is the order `list(d.values())` returns. */
module EntityStore {
  import opened Common
  import opened Records
  import opened Seqs
  import CompanyModels
  import EmployeeModels
  import Queries

  /** The keys of `order` are exactly `keys`, each once. */
  ghost predicate KeyOrder(order: seq<Uuid>, keys: set<Uuid>) {
    && NoDup(order)
    && (forall i :: 0 <= i < |order| ==> order[i] in keys)
    && (forall k :: k in keys ==> k in order)
  }

  /** Every snapshot is of a company that is stored. */
  ghost predicate LinksLive(snapshots: seq<CompanyRead>, companyIds: set<Uuid>) {
    forall i :: 0 <= i < |snapshots| ==> snapshots[i].id in companyIds
  }

  /** The first id of `ids` that is not in `known`, if any: the company a 404 names. */
  function FirstMissing(ids: seq<Uuid>, known: set<Uuid>): (m: Option<Uuid>)
    ensures m.None? <==> forall i :: 0 <= i < |ids| ==> ids[i] in known
    ensures m.Some? ==> m.value in ids && m.value !in known
  {
    if ids == [] then None
    else if ids[0] !in known then Some(ids[0])
    else FirstMissing(ids[1..], known)
  }

  /** The id `FirstMissing` reports is the first unknown one: every id before it is known. */
  lemma {:induction false} FirstMissingIsFirst(ids: seq<Uuid>, known: set<Uuid>) returns (i: nat)
    requires FirstMissing(ids, known).Some?
    ensures i < |ids| && ids[i] == FirstMissing(ids, known).value
    ensures forall j :: 0 <= j < i ==> ids[j] in known
  {
    if ids[0] !in known {
      i := 0;
    } else {
      var k := FirstMissingIsFirst(ids[1..], known);
      i := k + 1;
      assert forall j :: 0 <= j < k ==> ids[1..][j] == ids[j + 1];
    }
  }

  /** `[companies[cid] for cid in ids]` is `Values(ids, companies)`: one snapshot per id, in
      order, repeats kept. In a store whose records sit under their own ids, the resolved
      snapshots carry exactly the requested ids, in the requested order. */
  lemma ResolveKeepsIds(ids: seq<Uuid>, companies: map<Uuid, CompanyRead>)
    requires forall i :: 0 <= i < |ids| ==> ids[i] in companies
    requires forall k :: k in companies ==> companies[k].id == k
    ensures forall i :: 0 <= i < |ids| ==> Values(ids, companies)[i].id == ids[i]
    ensures LinksLive(Values(ids, companies), companies.Keys)
  {
  }

  /** The guard `c.id != cid` of the cascade's comprehension. */
  function NotCompany(cid: Uuid): CompanyRead -> bool { (c: CompanyRead) => c.id != cid }

  /** The guard of a listing without the key `k`. */
  function NotKey(k: Uuid): Uuid -> bool { (x: Uuid) => x != k }

  /** The guard of an employee listing without the record `k`. */
  function NotEmployee(k: Uuid): EmployeeRead -> bool { (e: EmployeeRead) => e.id != k }

  /** The cascade for one employee: its snapshots without those of company `cid`, rewritten
      only when that drops something. */
  function Unlink(e: EmployeeRead, cid: Uuid): EmployeeRead {
    var kept := Filter(e.companies, NotCompany(cid));
    if |kept| != |e.companies| then e.(companies := kept) else e
  }

  /** The cascade leaves no snapshot of `cid`, keeps the others in their order, changes no
      other field, and leaves an employee without such a snapshot as it was. */
  lemma UnlinkSpec(e: EmployeeRead, cid: Uuid)
    ensures Unlink(e, cid) == e.(companies := Filter(e.companies, NotCompany(cid)))
    ensures forall i :: 0 <= i < |Unlink(e, cid).companies| ==> Unlink(e, cid).companies[i].id != cid
    ensures IsSubsequence(Unlink(e, cid).companies, e.companies)
    ensures (forall i :: 0 <= i < |e.companies| ==> e.companies[i].id != cid) ==> Unlink(e, cid) == e
  {
    FilterShorterIff(e.companies, NotCompany(cid));
    if |Filter(e.companies, NotCompany(cid))| == |e.companies| {
      FilterKeepsAll(e.companies, NotCompany(cid));
    }
    FilterIsSubsequence(e.companies, NotCompany(cid));
  }

  /** After the cascade, an employee whose snapshots were all of stored companies holds only
      snapshots of companies that remain once `cid` is removed. */
  lemma SnapshotsStayLive(e: EmployeeRead, cid: Uuid, companyIds: set<Uuid>)
    requires LinksLive(e.companies, companyIds)
    ensures LinksLive(Unlink(e, cid).companies, companyIds - {cid})
  {
    UnlinkSpec(e, cid);
    var kept := Unlink(e, cid).companies;
    forall i | 0 <= i < |kept|
      ensures kept[i].id in companyIds - {cid}
    {
      assert kept[i] in e.companies;
    }
  }

  /** Deleting key `id` from a dictionary listed in key order: the key order without `id`
      still lists exactly the remaining keys, and the listing loses exactly the values the
      guard `keepValue` rejects, which are those stored under `id`. */
  lemma RemoveFromListing<V>(order: seq<Uuid>, m: map<Uuid, V>, id: Uuid, keepValue: V -> bool)
    requires KeyOrder(order, m.Keys)
    requires forall k :: k in m ==> keepValue(m[k]) == (k != id)
    ensures KeyOrder(Filter(order, NotKey(id)), (m - {id}).Keys)
    ensures Values(Filter(order, NotKey(id)), m - {id}) == Filter(Values(order, m), keepValue)
  {
    var kept := Filter(order, NotKey(id));
    ValuesFilter(order, m, NotKey(id), keepValue);
    FilterNoDup(order, NotKey(id));
    forall i | 0 <= i < |kept|
      ensures kept[i] in m - {id}
    {
      assert NotKey(id)(kept[i]);
    }
    forall k | k in m - {id}
      ensures k in kept
    {
      var i :| 0 <= i < |order| && order[i] == k;
      assert NotKey(id)(order[i]);
    }
    ValuesWithout(kept, m, id);
  }

  /** A pass over every key of the listing that applied the cascade to each employee has
      applied it to the whole dictionary, and keeps the store's invariant for the remaining
      companies. */
  lemma CascadeReachesEveryone(order: seq<Uuid>, before: map<Uuid, EmployeeRead>, after: map<Uuid, EmployeeRead>,
                               cid: Uuid, companyIds: set<Uuid>)
    requires KeyOrder(order, before.Keys) && after.Keys == before.Keys
    requires forall j :: 0 <= j < |order| ==> after[order[j]] == Unlink(before[order[j]], cid)
    requires forall k :: k in before ==> before[k].id == k && LinksLive(before[k].companies, companyIds)
    ensures after == UnlinkAll(before, cid)
    ensures forall k :: k in after ==> after[k].id == k && LinksLive(after[k].companies, companyIds - {cid})
  {
    forall k | k in after
      ensures after[k] == Unlink(before[k], cid)
      ensures after[k].id == k
      ensures LinksLive(after[k].companies, companyIds - {cid})
    {
      var j :| 0 <= j < |order| && order[j] == k;
      UnlinkSpec(before[k], cid);
      SnapshotsStayLive(before[k], cid, companyIds);
    }
  }

  /** `emp_dict = emp.model_dump()`, `emp_dict["companies"] = kept`, `EmployeeRead(**emp_dict)`:
      the employee with the given snapshots and everything else, timestamps included, kept. */
  method RebuildWithSnapshots(emp: EmployeeRead, kept: seq<CompanyRead>) returns (r: EmployeeRead)
    ensures r == emp.(companies := kept)
  {
    var empDict := EmployeeModels.DumpEmployee(emp);
    empDict := empDict[Companies := Snapshots(kept)];
    // Every key of `EmployeeRead` is in `empDict`: no default factory runs, so the id and the
    // clock reading handed over for them are never used.
    EmployeeModels.CascadeDictKeepsTheRest(emp, kept, emp.id, emp.createdAt);
    r := EmployeeModels.ParseEmployeeRead(empDict, emp.id, emp.createdAt).value;
  }

  /** `stored = emp.model_dump()`, `stored["companies"] = linked` when `company_ids` was sent,
      `stored.update(update_data)` without `company_ids`, then `EmployeeRead(**stored)`: the
      scalar fields the update sets are overwritten, the snapshots are replaced only when new
      ones were resolved, and the id and both timestamps are kept. */
  method ApplyEmployeePatch(e: EmployeeRead, u: EmployeeUpdate, relink: Option<seq<CompanyRead>>)
    returns (r: EmployeeRead)
    ensures r.id == e.id && r.createdAt == e.createdAt && r.updatedAt == e.updatedAt
    ensures r.base == EmployeeModels.MergeEmployee(e.base, u)
    ensures r.companies == if relink.Some? then relink.value else e.companies
  {
    var stored := EmployeeModels.DumpEmployee(e);
    var linked := e.companies;
    if relink.Some? {
      linked := relink.value;
      stored := stored[Companies := Snapshots(linked)];
    } else {
      EmployeeModels.SameSnapshotsChangeNothing(e);
    }
    // `update_data` without `company_ids`, merged over the stored dictionary.
    stored := stored + (EmployeeModels.DumpEmployeeUpdate(u) - {CompanyIds});
    // Every key of `EmployeeRead` is in `stored`: no default factory runs.
    EmployeeModels.PatchDictMerges(e, u, linked, e.id, e.createdAt);
    r := EmployeeModels.ParseEmployeeRead(stored, e.id, e.createdAt).value;
  }

  /** One step of the pruning loop: once the employee at position `i` is unlinked and no other
      entry changes, the first `i + 1` employees are unlinked and the rest are as they were. */
  lemma PruneStep(order: seq<Uuid>, start: map<Uuid, EmployeeRead>, before: map<Uuid, EmployeeRead>,
                  after: map<Uuid, EmployeeRead>, i: nat, cid: Uuid)
    requires NoDup(order) && i < |order|
    requires forall j :: 0 <= j < |order| ==> order[j] in before && order[j] in start
    requires forall j :: 0 <= j < |order| ==>
      before[order[j]] == if j < i then Unlink(start[order[j]], cid) else start[order[j]]
    requires after.Keys == before.Keys
    requires after[order[i]] == Unlink(start[order[i]], cid)
    requires forall k :: k in before && k != order[i] ==> after[k] == before[k]
    ensures forall j :: 0 <= j < |order| ==>
      after[order[j]] == if j < i + 1 then Unlink(start[order[j]], cid) else start[order[j]]
  {
    forall j | 0 <= j < |order|
      ensures after[order[j]] == if j < i + 1 then Unlink(start[order[j]], cid) else start[order[j]]
    {
      if j != i {
        assert order[j] != order[i];
      }
    }
  }

  /** The cascade applied to every stored employee. */
  function UnlinkAll(employees: map<Uuid, EmployeeRead>, cid: Uuid): map<Uuid, EmployeeRead> {
    map k | k in employees :: Unlink(employees[k], cid)
  }

  /** The in-memory store. */
  class Store {
    var companies: map<Uuid, CompanyRead>
    var companyOrder: seq<Uuid>
    var employees: map<Uuid, EmployeeRead>
    var employeeOrder: seq<Uuid>

    /** Both key orders list their map's keys; every record is stored under its own id; every
        embedded snapshot is of a company that is still stored. */
    ghost predicate Valid()
      reads this
    {
      && KeyOrder(companyOrder, companies.Keys)
      && KeyOrder(employeeOrder, employees.Keys)
      && (forall k :: k in companies ==> companies[k].id == k)
      && (forall k :: k in employees ==> employees[k].id == k)
      && (forall k :: k in employees ==> LinksLive(employees[k].companies, companies.Keys))
    }

    /** The process starts with both dictionaries empty. */
    constructor ()
      ensures Valid()
      ensures companies == map[] && companyOrder == [] && employees == map[] && employeeOrder == []
    {
      companies := map[];
      companyOrder := [];
      employees := map[];
      employeeOrder := [];
    }

    /** `list(companies.values())`. */
    function CompanyList(): seq<CompanyRead>
      reads this
      requires Valid()
    {
      Values(companyOrder, companies)
    }

    /** `list(employees.values())`. */
    function EmployeeList(): seq<EmployeeRead>
      reads this
      requires Valid()
    {
      Values(employeeOrder, employees)
    }

    /** `POST /companies`: the record built from the payload, the fresh id `newId` and the
        clock reading `now`, stored unless the id is taken. */
    method CreateCompany(payload: CompanyBase, newId: Uuid, now: Timestamp) returns (r: Result<CompanyRead>)
      requires Valid()
      modifies this
      ensures Valid()
      ensures newId in old(companies) ==> r == Err(Conflict) && unchanged(this)
      ensures newId !in old(companies) ==>
        && r == Ok(CompanyRead(newId, payload, now, now))
        && companies == old(companies)[newId := r.value] && companyOrder == old(companyOrder) + [newId]
        && employees == old(employees) && employeeOrder == old(employeeOrder)
      ensures r.Ok? ==> CompanyList() == old(CompanyList()) + [r.value]
    {
      CompanyModels.CreateDictBuildsFreshRecord(payload, newId, now);
      var c := CompanyModels.ParseCompanyRead(CompanyModels.DumpCompanyBase(payload), newId, now).value;
      if c.id in companies {
        return Err(Conflict);
      }
      ValuesAppend(companyOrder, companies, c.id, c);
      companies := companies[c.id := c];
      companyOrder := companyOrder + [c.id];
      r := Ok(c);
    }

    /** `GET /companies/{id}`. */
    method GetCompany(id: Uuid) returns (r: Result<CompanyRead>)
      ensures id in companies <==> r.Ok?
      ensures r.Ok? ==> r.value == companies[id]
      ensures r.Err? ==> r.error == NotFound
    {
      if id !in companies {
        return Err(NotFound);
      }
      r := Ok(companies[id]);
    }

    /** `GET /companies`: the stored companies, in insertion order, that satisfy every supplied
        parameter. */
    method ListCompanies(q: Queries.CompanyQuery) returns (r: seq<CompanyRead>)
      requires Valid()
      ensures r == Filter(CompanyList(), Queries.CompanyFilter(q))
    {
      r := Queries.ListCompanies(CompanyList(), q);
      Queries.ListCompaniesIsFilter(CompanyList(), q);
    }

    /** `PATCH /companies/{id}`: the fields the update sets overwrite the stored ones; the id,
        both timestamps and every employee's snapshots stay as they were. */
    method UpdateCompany(id: Uuid, u: CompanyUpdate) returns (r: Result<CompanyRead>)
      requires Valid()
      modifies this
      ensures Valid()
      ensures id !in old(companies) ==> r == Err(NotFound) && unchanged(this)
      ensures id in old(companies) ==>
        && r == Ok(old(companies)[id].(base := CompanyModels.MergeCompany(old(companies)[id].base, u)))
        && companies == old(companies)[id := r.value] && companyOrder == old(companyOrder)
        && employees == old(employees) && employeeOrder == old(employeeOrder)
    {
      if id !in companies {
        return Err(NotFound);
      }
      var c := companies[id];
      var stored := CompanyModels.DumpCompany(c);
      stored := stored + CompanyModels.DumpCompanyUpdate(u);
      // Every key of `CompanyRead` is in `stored`, so no default factory runs; the values
      // handed to `ParseCompanyRead` for them are never used.
      CompanyModels.PatchDictMerges(c, u, c.id, c.createdAt);
      var updated := CompanyModels.ParseCompanyRead(stored, c.id, c.createdAt).value;
      companies := companies[id := updated];
      r := Ok(updated);
    }

    /** `PUT /companies/{id}`: the payload under the path id, both timestamps from the clock. */
    method ReplaceCompany(id: Uuid, payload: CompanyBase, now: Timestamp) returns (r: Result<CompanyRead>)
      requires Valid()
      modifies this
      ensures Valid()
      ensures id !in old(companies) ==> r == Err(NotFound) && unchanged(this)
      ensures id in old(companies) ==>
        && r == Ok(CompanyRead(id, payload, now, now))
        && companies == old(companies)[id := r.value] && companyOrder == old(companyOrder)
        && employees == old(employees) && employeeOrder == old(employeeOrder)
    {
      if id !in companies {
        return Err(NotFound);
      }
      var data := CompanyModels.DumpCompanyBase(payload)[Id := Ident(id)];
      // The `id` key is present, so the id factory does not run.
      CompanyModels.ReplaceDictUsesPathId(id, payload, id, now);
      var c := CompanyModels.ParseCompanyRead(data, id, now).value;
      companies := companies[id := c];
      r := Ok(c);
    }

    /** `DELETE /companies/{id}`: every employee loses its snapshots of the company (only
        those that held one are rewritten), then the company is removed. */
    method DeleteCompany(id: Uuid) returns (r: Result<()>)
      requires Valid()
      modifies this
      ensures Valid()
      ensures id !in old(companies) ==> r == Err(NotFound) && unchanged(this)
      ensures id in old(companies) ==>
        && r == Ok(())
        && companies == old(companies) - {id} && companyOrder == Filter(old(companyOrder), NotKey(id))
        && employees == UnlinkAll(old(employees), id) && employeeOrder == old(employeeOrder)
      ensures r.Ok? ==> CompanyList() == Filter(old(CompanyList()), NotCompany(id))
      ensures forall k :: k in employees ==> forall i :: 0 <= i < |employees[k].companies| ==> employees[k].companies[i].id != id
    {
      if id !in companies {
        return Err(NotFound);
      }
      PruneSnapshots(id);
      CascadeReachesEveryone(employeeOrder, old(employees), employees, id, companies.Keys);
      RemoveFromListing(companyOrder, companies, id, NotCompany(id));
      companies := companies - {id};
      companyOrder := Filter(companyOrder, NotKey(id));
      r := Ok(());
    }

    /** The loop of `delete_company`: every employee holding a snapshot of company `id` is
        rebuilt from its dictionary with the other snapshots; the others are left alone. */
    method PruneSnapshots(id: Uuid)
      requires KeyOrder(employeeOrder, employees.Keys)
      modifies this
      ensures employeeOrder == old(employeeOrder) && employees.Keys == old(employees).Keys
      ensures companies == old(companies) && companyOrder == old(companyOrder)
      ensures forall j :: 0 <= j < |employeeOrder| ==>
        employees[employeeOrder[j]] == Unlink(old(employees)[employeeOrder[j]], id)
    {
      var i := 0;
      while i < |employeeOrder|
        invariant 0 <= i <= |employeeOrder|
        invariant companies == old(companies) && companyOrder == old(companyOrder)
        invariant employeeOrder == old(employeeOrder) && employees.Keys == old(employees).Keys
        invariant NoDup(employeeOrder) && forall j :: 0 <= j < |employeeOrder| ==> employeeOrder[j] in employees
        invariant forall j :: 0 <= j < |employeeOrder| ==>
          employees[employeeOrder[j]] == if j < i then Unlink(old(employees)[employeeOrder[j]], id) else old(employees)[employeeOrder[j]]
      {
        ghost var before := employees;
        var empId := employeeOrder[i];
        var emp := employees[empId];
        var updated := Filter(emp.companies, NotCompany(id));
        if |updated| != |emp.companies| {
          var rebuilt := RebuildWithSnapshots(emp, updated);
          employees := employees[empId := rebuilt];
        }
        PruneStep(employeeOrder, old(employees), before, employees, i, id);
        i := i + 1;
      }
    }

    /** `POST /employees`: every listed company must exist (the first missing one is reported
        and nothing is stored); then the record is built from the payload's scalar fields, the
        snapshots of the listed companies, the fresh id and the clock, and stored unless the id
        is taken. Any `companies` in the payload is discarded. */
    method CreateEmployee(p: EmployeeCreate, newId: Uuid, now: Timestamp) returns (r: Result<EmployeeRead>)
      requires Valid()
      modifies this
      ensures Valid()
      ensures FirstMissing(p.companyIds, old(companies).Keys).Some? ==>
        r == Err(UnknownCompany(FirstMissing(p.companyIds, old(companies).Keys).value)) && unchanged(this)
      ensures FirstMissing(p.companyIds, old(companies).Keys).None? && newId in old(employees) ==>
        r == Err(Conflict) && unchanged(this)
      ensures FirstMissing(p.companyIds, old(companies).Keys).None? && newId !in old(employees) ==>
        && r == Ok(EmployeeRead(newId, p.base, Values(p.companyIds, old(companies)), now, now))
        && employees == old(employees)[newId := r.value] && employeeOrder == old(employeeOrder) + [newId]
        && companies == old(companies) && companyOrder == old(companyOrder)
      ensures r.Ok? ==> EmployeeList() == old(EmployeeList()) + [r.value]
    {
      var missing := FindMissingCompany(p.companyIds);
      if missing.Some? {
        return Err(UnknownCompany(missing.value));
      }
      var linked := Values(p.companyIds, companies);
      // `model_dump(exclude={"company_ids"})`, then `pop("companies")`.
      var data := EmployeeModels.DumpEmployeeCreate(p) - {CompanyIds, Companies};
      EmployeeModels.CreateDictBuildsFreshRecord(p, linked, newId, now);
      var e := EmployeeModels.ParseEmployeeRead(data[Companies := Snapshots(linked)], newId, now).value;
      if e.id in employees {
        return Err(Conflict);
      }
      ResolveKeepsIds(p.companyIds, companies);
      ValuesAppend(employeeOrder, employees, e.id, e);
      employees := employees[e.id := e];
      employeeOrder := employeeOrder + [e.id];
      r := Ok(e);
    }

    /** The loop `for cid in ids: if cid not in companies: raise ...`. */
    method FindMissingCompany(ids: seq<Uuid>) returns (missing: Option<Uuid>)
      ensures missing == FirstMissing(ids, companies.Keys)
    {
      var i := 0;
      while i < |ids|
        invariant 0 <= i <= |ids|
        invariant FirstMissing(ids[i..], companies.Keys) == FirstMissing(ids, companies.Keys)
      {
        if ids[i] !in companies {
          return Some(ids[i]);
        }
        assert ids[i..][1..] == ids[i + 1..];
        i := i + 1;
      }
      return None;
    }

    /** `GET /employees/{id}`. */
    method GetEmployee(id: Uuid) returns (r: Result<EmployeeRead>)
      ensures id in employees <==> r.Ok?
      ensures r.Ok? ==> r.value == employees[id]
      ensures r.Err? ==> r.error == NotFound
    {
      if id !in employees {
        return Err(NotFound);
      }
      r := Ok(employees[id]);
    }

    /** `GET /employees`: the stored employees, in insertion order, that satisfy every supplied
        parameter. */
    method ListEmployees(q: Queries.EmployeeQuery) returns (r: seq<EmployeeRead>)
      requires Valid()
      ensures r == Filter(EmployeeList(), Queries.EmployeeFilter(q))
    {
      r := Queries.ListEmployees(EmployeeList(), q);
      Queries.ListEmployeesIsFilter(EmployeeList(), q);
    }

    /** `PATCH /employees/{id}`: with `company_ids`, every listed company must exist and the
        snapshots are replaced by theirs; the other fields the update sets overwrite the stored
        ones; the id and both timestamps stay as they were. */
    method UpdateEmployee(id: Uuid, u: EmployeeUpdate) returns (r: Result<EmployeeRead>)
      requires Valid()
      modifies this
      ensures Valid()
      ensures id !in old(employees) ==> r == Err(NotFound) && unchanged(this)
      ensures id in old(employees) && u.companyIds.Some? && FirstMissing(u.companyIds.value, old(companies).Keys).Some? ==>
        r == Err(UnknownCompany(FirstMissing(u.companyIds.value, old(companies).Keys).value)) && unchanged(this)
      ensures id in old(employees) && (u.companyIds.Some? ==> FirstMissing(u.companyIds.value, old(companies).Keys).None?) ==>
        && r == Ok(old(employees)[id].(
             base := EmployeeModels.MergeEmployee(old(employees)[id].base, u),
             companies := if u.companyIds.Some? then Values(u.companyIds.value, old(companies)) else old(employees)[id].companies))
        && employees == old(employees)[id := r.value] && employeeOrder == old(employeeOrder)
        && companies == old(companies) && companyOrder == old(companyOrder)
    {
      if id !in employees {
        return Err(NotFound);
      }
      var e := employees[id];
      var relink: Option<seq<CompanyRead>> := None;
      if u.companyIds.Some? {
        var missing := FindMissingCompany(u.companyIds.value);
        if missing.Some? {
          return Err(UnknownCompany(missing.value));
        }
        relink := Some(Values(u.companyIds.value, companies));
        ResolveKeepsIds(u.companyIds.value, companies);
      }
      var updated := ApplyEmployeePatch(e, u, relink);
      employees := employees[id := updated];
      r := Ok(updated);
    }

    /** `PUT /employees/{id}`: every listed company must exist; the record is the payload's
        scalar fields under the path id, with the listed companies' snapshots and both
        timestamps from the clock. Any `companies` in the payload is discarded. */
    method ReplaceEmployee(id: Uuid, p: EmployeeCreate, now: Timestamp) returns (r: Result<EmployeeRead>)
      requires Valid()
      modifies this
      ensures Valid()
      ensures id !in old(employees) ==> r == Err(NotFound) && unchanged(this)
      ensures id in old(employees) && FirstMissing(p.companyIds, old(companies).Keys).Some? ==>
        r == Err(UnknownCompany(FirstMissing(p.companyIds, old(companies).Keys).value)) && unchanged(this)
      ensures id in old(employees) && FirstMissing(p.companyIds, old(companies).Keys).None? ==>
        && r == Ok(EmployeeRead(id, p.base, Values(p.companyIds, old(companies)), now, now))
        && employees == old(employees)[id := r.value] && employeeOrder == old(employeeOrder)
        && companies == old(companies) && companyOrder == old(companyOrder)
    {
      if id !in employees {
        return Err(NotFound);
      }
      var missing := FindMissingCompany(p.companyIds);
      if missing.Some? {
        return Err(UnknownCompany(missing.value));
      }
      var linked := Values(p.companyIds, companies);
      // `model_dump(exclude={"company_ids"})`; `pop("id")` finds nothing; `pop("companies")`.
      var data := EmployeeModels.DumpEmployeeCreate(p) - {CompanyIds, Companies};
      // The `id` key is given, so the id factory does not run.
      EmployeeModels.ReplaceDictUsesPathId(id, p, linked, id, now);
      var e := EmployeeModels.ParseEmployeeRead(data[Id := Ident(id)][Companies := Snapshots(linked)], id, now).value;
      ResolveKeepsIds(p.companyIds, companies);
      employees := employees[id := e];
      r := Ok(e);
    }

    /** `DELETE /employees/{id}`: only that key goes; companies are not touched. */
    method DeleteEmployee(id: Uuid) returns (r: Result<()>)
      requires Valid()
      modifies this
      ensures Valid()
      ensures id !in old(employees) ==> r == Err(NotFound) && unchanged(this)
      ensures id in old(employees) ==>
        && r == Ok(())
        && employees == old(employees) - {id} && employeeOrder == Filter(old(employeeOrder), NotKey(id))
        && companies == old(companies) && companyOrder == old(companyOrder)
      ensures r.Ok? ==> EmployeeList() == Filter(old(EmployeeList()), NotEmployee(id))
    {
      if id !in employees {
        return Err(NotFound);
      }
      RemoveFromListing(employeeOrder, employees, id, NotEmployee(id));
      employees := employees - {id};
      employeeOrder := Filter(employeeOrder, NotKey(id));
      r := Ok(());
    }
  }

  /** Create company `c1`, create employee `e1` linked to it alone, delete `c1`: the employee
      was created holding the company's snapshot, the company is then gone, and reading the
      employee back shows no snapshots. */
  method LinkThenDeleteCompany(s: Store, acme: CompanyBase, c1: Uuid, p: EmployeeCreate, e1: Uuid, now: Timestamp)
      returns (linkedAtCreate: seq<CompanyRead>, companyAfter: Result<CompanyRead>, linkedAfter: seq<CompanyRead>)
    requires s.Valid()
    requires c1 !in s.companies && e1 !in s.employees && p.companyIds == [c1]
    modifies s
    ensures linkedAtCreate == [CompanyRead(c1, acme, now, now)]
    ensures companyAfter == Err(NotFound)
    ensures linkedAfter == []
  {
    var c := s.CreateCompany(acme, c1, now);
    var e := s.CreateEmployee(p, e1, now);
    linkedAtCreate := e.value.companies;
    var _ := s.DeleteCompany(c1);
    companyAfter := s.GetCompany(c1);
    var got := s.GetEmployee(e1);
    assert got.value == Unlink(e.value, c1);
    UnlinkSpec(e.value, c1);
    assert [c.value][1..] == [];
    linkedAfter := got.value.companies;
  }
}
