/** The list handlers of main.py: `list(store.values())` narrowed by one list comprehension per
    query parameter that was supplied. */
module Queries {
  import opened Common
  import opened Records
  import opened Seqs

  /** The query parameters of `GET /companies`; `None` = not supplied. */
  datatype CompanyQuery = CompanyQuery(name: Option<string>, industry: Option<string>, size: Option<string>)

  /** The query parameters of `GET /employees`; `None` = not supplied. */
  datatype EmployeeQuery = EmployeeQuery(
    employeeId: Option<string>,
    firstName: Option<string>,
    lastName: Option<string>,
    email: Option<string>,
    phone: Option<string>,
    department: Option<string>,
    team: Option<string>,
    minYearsOfExp: Option<int>,
    companyName: Option<string>)

  /** One line of a list handler: `[x for x in prev if guard(v)(x)]` when the parameter was
      supplied with value `v`, and `prev` when it was not. */
  function Narrowed<X, T(==)>(prev: seq<T>, param: Option<X>, guard: X -> T -> bool): seq<T> {
    if param.Some? then Filter(prev, guard(param.value)) else prev
  }

  /** The guards of the company comprehensions. `industry` and `size` are optional on the
      record, so a company without one never equals a supplied value. */
  function NameIs(n: string): CompanyRead -> bool { (c: CompanyRead) => c.base.name == n }
  function IndustryIs(n: string): CompanyRead -> bool { (c: CompanyRead) => c.base.industry == Some(n) }
  function SizeIs(n: string): CompanyRead -> bool { (c: CompanyRead) => c.base.size == Some(n) }

  /** The company filter chain, in the handler's order. */
  function ListCompanies(all: seq<CompanyRead>, q: CompanyQuery): seq<CompanyRead> {
    var byName := Narrowed(all, q.name, NameIs);
    var byIndustry := Narrowed(byName, q.industry, IndustryIs);
    Narrowed(byIndustry, q.size, SizeIs)
  }

  /** A company satisfies every supplied parameter; unsupplied ones are ignored. */
  predicate CompanyMatches(c: CompanyRead, q: CompanyQuery) {
    && (q.name.None? || c.base.name == q.name.value)
    && (q.industry.None? || c.base.industry == q.industry)
    && (q.size.None? || c.base.size == q.size)
  }

  function CompanyFilter(q: CompanyQuery): CompanyRead -> bool { (c: CompanyRead) => CompanyMatches(c, q) }

  /** The guards of the employee comprehensions. */
  function EmployeeIdIs(n: string): EmployeeRead -> bool { (e: EmployeeRead) => e.base.employeeId == n }
  function FirstNameIs(n: string): EmployeeRead -> bool { (e: EmployeeRead) => e.base.firstName == n }
  function LastNameIs(n: string): EmployeeRead -> bool { (e: EmployeeRead) => e.base.lastName == n }
  function EmailIs(n: string): EmployeeRead -> bool { (e: EmployeeRead) => e.base.email == n }
  function PhoneIs(n: string): EmployeeRead -> bool { (e: EmployeeRead) => e.base.phone == n }
  function DepartmentIs(n: string): EmployeeRead -> bool { (e: EmployeeRead) => e.base.department == n }
  function TeamIs(n: string): EmployeeRead -> bool { (e: EmployeeRead) => e.base.team == n }
  function ExperienceAtLeast(n: int): EmployeeRead -> bool { (e: EmployeeRead) => e.base.yearsOfExp >= n }
  function WorksFor(n: string): EmployeeRead -> bool { (e: EmployeeRead) => HasCompanyNamed(e, n) }

  /** `any(c.name == n for c in e.companies)`. */
  predicate HasCompanyNamed(e: EmployeeRead, n: string) {
    exists i :: 0 <= i < |e.companies| && e.companies[i].base.name == n
  }

  /** The employee filter chain, in the handler's order. */
  function ListEmployees(all: seq<EmployeeRead>, q: EmployeeQuery): seq<EmployeeRead> {
    var r1 := Narrowed(all, q.employeeId, EmployeeIdIs);
    var r2 := Narrowed(r1, q.firstName, FirstNameIs);
    var r3 := Narrowed(r2, q.lastName, LastNameIs);
    var r4 := Narrowed(r3, q.email, EmailIs);
    var r5 := Narrowed(r4, q.phone, PhoneIs);
    var r6 := Narrowed(r5, q.department, DepartmentIs);
    var r7 := Narrowed(r6, q.team, TeamIs);
    var r8 := Narrowed(r7, q.minYearsOfExp, ExperienceAtLeast);
    Narrowed(r8, q.companyName, WorksFor)
  }

  /** An employee satisfies every supplied parameter: equality on the scalar fields, an
      inclusive lower bound on the years of experience, and some linked company with the name. */
  predicate EmployeeMatches(e: EmployeeRead, q: EmployeeQuery) {
    MatchesIdentity(e, q) && MatchesContact(e, q) && MatchesPlacement(e, q)
  }

  /** The parameters about who the employee is. */
  predicate MatchesIdentity(e: EmployeeRead, q: EmployeeQuery) {
    && (q.employeeId.None? || e.base.employeeId == q.employeeId.value)
    && (q.firstName.None? || e.base.firstName == q.firstName.value)
    && (q.lastName.None? || e.base.lastName == q.lastName.value)
  }

  /** The parameters about how to reach the employee. */
  predicate MatchesContact(e: EmployeeRead, q: EmployeeQuery) {
    && (q.email.None? || e.base.email == q.email.value)
    && (q.phone.None? || e.base.phone == q.phone.value)
  }

  /** The parameters about where the employee works. */
  predicate MatchesPlacement(e: EmployeeRead, q: EmployeeQuery) {
    && (q.department.None? || e.base.department == q.department.value)
    && (q.team.None? || e.base.team == q.team.value)
    && (q.minYearsOfExp.None? || e.base.yearsOfExp >= q.minYearsOfExp.value)
    && (q.companyName.None? || HasCompanyNamed(e, q.companyName.value))
  }

  function EmployeeFilter(q: EmployeeQuery): EmployeeRead -> bool { (e: EmployeeRead) => EmployeeMatches(e, q) }

  /** `sofar`, and `guard(v)` too when the parameter was supplied with value `v`. */
  function AndIf<X, T>(sofar: T -> bool, param: Option<X>, guard: X -> T -> bool): T -> bool {
    x => sofar(x) && (param.Some? ==> guard(param.value)(x))
  }

  function Anything<T>(): T -> bool { x => true }

  /** One line of a chain: if the records so far are those passing `sofar`, the line leaves
      those passing `sofar` and, if the parameter was supplied, its guard. */
  lemma Narrow<X, T>(all: seq<T>, prev: seq<T>, param: Option<X>, guard: X -> T -> bool, sofar: T -> bool)
    requires prev == Filter(all, sofar)
    ensures Narrowed(prev, param, guard) == Filter(all, AndIf(sofar, param, guard))
  {
    if param.Some? {
      FilterTwice(all, sofar, guard(param.value), AndIf(sofar, param, guard));
    } else {
      FilterExt(all, sofar, AndIf(sofar, param, guard));
    }
  }

  /** The company chain keeps exactly the companies that satisfy every supplied parameter, in
      store order. */
  lemma ListCompaniesIsFilter(all: seq<CompanyRead>, q: CompanyQuery)
    ensures ListCompanies(all, q) == Filter(all, CompanyFilter(q))
  {
    var p0 := Anything<CompanyRead>();
    FilterKeepsAll(all, p0);
    var byName := Narrowed(all, q.name, NameIs);
    var p1 := AndIf(p0, q.name, NameIs);
    Narrow(all, all, q.name, NameIs, p0);
    var byIndustry := Narrowed(byName, q.industry, IndustryIs);
    var p2 := AndIf(p1, q.industry, IndustryIs);
    Narrow(all, byName, q.industry, IndustryIs, p1);
    var p3 := AndIf(p2, q.size, SizeIs);
    Narrow(all, byIndustry, q.size, SizeIs, p2);
    FilterExt(all, p3, CompanyFilter(q));
  }

  /** The company listing: ordered, complete and sound with respect to the conjunction. */
  lemma ListCompaniesSpec(all: seq<CompanyRead>, q: CompanyQuery)
    ensures IsSubsequence(ListCompanies(all, q), all)
    ensures forall i :: 0 <= i < |ListCompanies(all, q)| ==> CompanyMatches(ListCompanies(all, q)[i], q)
    ensures forall i :: 0 <= i < |all| && CompanyMatches(all[i], q) ==> all[i] in ListCompanies(all, q)
    ensures q == CompanyQuery(None, None, None) ==> ListCompanies(all, q) == all
  {
    ListCompaniesIsFilter(all, q);
    FilterIsSubsequence(all, CompanyFilter(q));
  }

  /** The employee chain keeps exactly the employees that satisfy every supplied parameter, in
      store order. */
  lemma ListEmployeesIsFilter(all: seq<EmployeeRead>, q: EmployeeQuery)
    ensures ListEmployees(all, q) == Filter(all, EmployeeFilter(q))
  {
    var p0 := Anything<EmployeeRead>();
    FilterKeepsAll(all, p0);
    var r1 := Narrowed(all, q.employeeId, EmployeeIdIs);
    var p1 := AndIf(p0, q.employeeId, EmployeeIdIs);
    Narrow(all, all, q.employeeId, EmployeeIdIs, p0);
    var r2 := Narrowed(r1, q.firstName, FirstNameIs);
    var p2 := AndIf(p1, q.firstName, FirstNameIs);
    Narrow(all, r1, q.firstName, FirstNameIs, p1);
    var r3 := Narrowed(r2, q.lastName, LastNameIs);
    var p3 := AndIf(p2, q.lastName, LastNameIs);
    Narrow(all, r2, q.lastName, LastNameIs, p2);
    var r4 := Narrowed(r3, q.email, EmailIs);
    var p4 := AndIf(p3, q.email, EmailIs);
    Narrow(all, r3, q.email, EmailIs, p3);
    var r5 := Narrowed(r4, q.phone, PhoneIs);
    var p5 := AndIf(p4, q.phone, PhoneIs);
    Narrow(all, r4, q.phone, PhoneIs, p4);
    var r6 := Narrowed(r5, q.department, DepartmentIs);
    var p6 := AndIf(p5, q.department, DepartmentIs);
    Narrow(all, r5, q.department, DepartmentIs, p5);
    var r7 := Narrowed(r6, q.team, TeamIs);
    var p7 := AndIf(p6, q.team, TeamIs);
    Narrow(all, r6, q.team, TeamIs, p6);
    var r8 := Narrowed(r7, q.minYearsOfExp, ExperienceAtLeast);
    var p8 := AndIf(p7, q.minYearsOfExp, ExperienceAtLeast);
    Narrow(all, r7, q.minYearsOfExp, ExperienceAtLeast, p7);
    var p9 := AndIf(p8, q.companyName, WorksFor);
    Narrow(all, r8, q.companyName, WorksFor, p8);
    IdentityStages(q, p3);
    ContactStages(q, p3, p5);
    PlacementStages(q, p5, p9);
    FilterExt(all, p9, EmployeeFilter(q));
  }

  /** The first three guards of the employee chain, conjoined. */
  lemma IdentityStages(q: EmployeeQuery, p3: EmployeeRead -> bool)
    requires p3 == AndIf(AndIf(AndIf(Anything(), q.employeeId, EmployeeIdIs), q.firstName, FirstNameIs), q.lastName, LastNameIs)
    ensures forall e :: p3(e) == MatchesIdentity(e, q)
  {
    forall e
      ensures p3(e) == MatchesIdentity(e, q)
    {
      assert q.employeeId.Some? ==> EmployeeIdIs(q.employeeId.value)(e) == (e.base.employeeId == q.employeeId.value);
      assert q.firstName.Some? ==> FirstNameIs(q.firstName.value)(e) == (e.base.firstName == q.firstName.value);
      assert q.lastName.Some? ==> LastNameIs(q.lastName.value)(e) == (e.base.lastName == q.lastName.value);
    }
  }

  /** The next two guards of the employee chain, conjoined. */
  lemma ContactStages(q: EmployeeQuery, p3: EmployeeRead -> bool, p5: EmployeeRead -> bool)
    requires forall e :: p3(e) == MatchesIdentity(e, q)
    requires p5 == AndIf(AndIf(p3, q.email, EmailIs), q.phone, PhoneIs)
    ensures forall e :: p5(e) == (MatchesIdentity(e, q) && MatchesContact(e, q))
  {
    forall e
      ensures p5(e) == (MatchesIdentity(e, q) && MatchesContact(e, q))
    {
      assert q.email.Some? ==> EmailIs(q.email.value)(e) == (e.base.email == q.email.value);
      assert q.phone.Some? ==> PhoneIs(q.phone.value)(e) == (e.base.phone == q.phone.value);
    }
  }

  /** The last four guards of the employee chain, conjoined. */
  lemma PlacementStages(q: EmployeeQuery, p5: EmployeeRead -> bool, p9: EmployeeRead -> bool)
    requires forall e :: p5(e) == (MatchesIdentity(e, q) && MatchesContact(e, q))
    requires p9 == AndIf(AndIf(AndIf(AndIf(p5, q.department, DepartmentIs), q.team, TeamIs),
                         q.minYearsOfExp, ExperienceAtLeast), q.companyName, WorksFor)
    ensures forall e :: p9(e) == EmployeeFilter(q)(e)
  {
    forall e
      ensures p9(e) == EmployeeFilter(q)(e)
    {
      assert q.department.Some? ==> DepartmentIs(q.department.value)(e) == (e.base.department == q.department.value);
      assert q.team.Some? ==> TeamIs(q.team.value)(e) == (e.base.team == q.team.value);
      assert q.minYearsOfExp.Some? ==> ExperienceAtLeast(q.minYearsOfExp.value)(e) == (e.base.yearsOfExp >= q.minYearsOfExp.value);
      assert q.companyName.Some? ==> WorksFor(q.companyName.value)(e) == (HasCompanyNamed(e, q.companyName.value));
    }
  }

  /** The query with no parameter supplied. */
  function NoEmployeeFilter(): EmployeeQuery {
    EmployeeQuery(None, None, None, None, None, None, None, None, None)
  }

  /** The employee listing: ordered, complete and sound with respect to the conjunction. */
  lemma ListEmployeesSpec(all: seq<EmployeeRead>, q: EmployeeQuery)
    ensures IsSubsequence(ListEmployees(all, q), all)
    ensures forall i :: 0 <= i < |ListEmployees(all, q)| ==> EmployeeMatches(ListEmployees(all, q)[i], q)
    ensures forall i :: 0 <= i < |all| && EmployeeMatches(all[i], q) ==> all[i] in ListEmployees(all, q)
    ensures q == NoEmployeeFilter() ==> ListEmployees(all, q) == all
  {
    ListEmployeesIsFilter(all, q);
    FilterIsSubsequence(all, EmployeeFilter(q));
  }

  /** The minimum-experience bound is inclusive: an employee with exactly that many years is
      listed, one with a year fewer is not. */
  lemma ExperienceBoundInclusive(e: EmployeeRead, n: int)
    ensures ListEmployees([e], NoEmployeeFilter().(minYearsOfExp := Some(n))) == (if e.base.yearsOfExp >= n then [e] else [])
  {
  }

  /** Three employees, in store order: Eng with 2 years, Eng with 6, Sales with 6. Asking for
      department Eng and at least 5 years returns the second one only. */
  lemma DepartmentAndExperienceExample(e1: EmployeeRead, e2: EmployeeRead, e3: EmployeeRead)
    requires e1.base.department == "Eng" && e1.base.yearsOfExp == 2
    requires e2.base.department == "Eng" && e2.base.yearsOfExp == 6
    requires e3.base.department == "Sales" && e3.base.yearsOfExp == 6
    ensures ListEmployees([e1, e2, e3], NoEmployeeFilter().(department := Some("Eng"), minYearsOfExp := Some(5))) == [e2]
  {
    var q := NoEmployeeFilter().(department := Some("Eng"), minYearsOfExp := Some(5));
    ListEmployeesIsFilter([e1, e2, e3], q);
    var keep := EmployeeFilter(q);
    assert !keep(e1) && keep(e2);
    assert !keep(e3) by { assert e3.base.department != "Eng"; }
    assert [e1, e2, e3][1..] == [e2, e3];
    assert [e2, e3][1..] == [e3];
    assert Filter([e3], keep) == [] by { assert [e3][1..] == []; }
  }
}
