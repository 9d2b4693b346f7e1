/** models/company.py: validation of dictionaries into the Company records, the dictionaries
    `model_dump()` produces from them, and the merge a PATCH performs. */
module CompanyModels {
  import opened Common
  import opened Records

  /** The fields `CompanyBase` (and so `CompanyCreate` and `CompanyUpdate`) declares. */
  predicate IsCompanyBaseField(f: Field) {
    f == Name || f == Website || f == Industry || f == Founded || f == Size
  }

  /** `CompanyCreate(**d)`: `name` must be a string; the other four fields may be absent or
      null and then default to none. Keys the class does not declare are ignored. */
  function ParseCompanyCreate(d: Dict): (r: Result<CompanyBase>)
    ensures Name !in d ==> r == Err(Invalid)
    ensures r.Ok? ==> Name in d && d[Name] == Text(r.value.name)
    ensures r.Ok? ==> (Website !in d ==> r.value.website.None?) && (Industry !in d ==> r.value.industry.None?)
    ensures r.Ok? ==> (Founded !in d ==> r.value.founded.None?) && (Size !in d ==> r.value.size.None?)
  {
    var name :- RequiredText(d, Name);
    var website :- OptionalText(d, Website);
    var industry :- OptionalText(d, Industry);
    var founded :- OptionalDay(d, Founded);
    var size :- OptionalText(d, Size);
    Ok(CompanyBase(name, website, industry, founded, size))
  }

  /** `CompanyUpdate(**d)`: every field is optional; an absent (or null) field is "not set". */
  function ParseCompanyUpdate(d: Dict): (r: Result<CompanyUpdate>)
    ensures (forall f :: f in d ==> !IsCompanyBaseField(f)) ==> r == Ok(CompanyUpdate(None, None, None, None, None))
    ensures r.Ok? && Name in d && !d[Name].Null? ==> d[Name].Text? && r.value.name == Some(d[Name].text)
  {
    var name :- OptionalText(d, Name);
    var website :- OptionalText(d, Website);
    var industry :- OptionalText(d, Industry);
    var founded :- OptionalDay(d, Founded);
    var size :- OptionalText(d, Size);
    Ok(CompanyUpdate(name, website, industry, founded, size))
  }

  /** `CompanyRead(**d)`: the base fields as for `CompanyCreate`; `id`, `created_at` and
      `updated_at` are taken from `d` when present, and otherwise come from their default
      factories, here the fresh `generatedId` and the clock reading `now`. */
  function ParseCompanyRead(d: Dict, generatedId: Uuid, now: Timestamp): (r: Result<CompanyRead>)
    ensures r.Ok? <==> ParseCompanyCreate(d).Ok? && (Id in d ==> d[Id].Ident?)
                        && (CreatedAt in d ==> d[CreatedAt].Instant?) && (UpdatedAt in d ==> d[UpdatedAt].Instant?)
    ensures r.Ok? ==> r.value.base == ParseCompanyCreate(d).value
    ensures r.Ok? ==> r.value.id == if Id in d then d[Id].uuid else generatedId
    ensures r.Ok? ==> r.value.createdAt == if CreatedAt in d then d[CreatedAt].time else now
    ensures r.Ok? ==> r.value.updatedAt == if UpdatedAt in d then d[UpdatedAt].time else now
  {
    var base :- ParseCompanyCreate(d);
    var id :- UuidOr(d, Id, generatedId);
    var createdAt :- InstantOr(d, CreatedAt, now);
    var updatedAt :- InstantOr(d, UpdatedAt, now);
    Ok(CompanyRead(id, base, createdAt, updatedAt))
  }

  /** `model_dump()` of a `CompanyBase`/`CompanyCreate`: every field, none as null. */
  function DumpCompanyBase(b: CompanyBase): Dict {
    map[Name := Text(b.name), Website := TextOrNull(b.website), Industry := TextOrNull(b.industry),
        Founded := DayOrNull(b.founded), Size := TextOrNull(b.size)]
  }

  /** `model_dump()` of a `CompanyRead`: the base fields, the id and both timestamps. */
  function DumpCompany(c: CompanyRead): Dict {
    DumpCompanyBase(c.base)[Id := Ident(c.id)][CreatedAt := Instant(c.createdAt)][UpdatedAt := Instant(c.updatedAt)]
  }

  /** `model_dump(exclude_unset=True)` of a `CompanyUpdate`: only the fields that were set. */
  function DumpCompanyUpdate(u: CompanyUpdate): Dict {
    var d0: Dict := map[];
    var d1 := if u.name.Some? then d0[Name := Text(u.name.value)] else d0;
    var d2 := if u.website.Some? then d1[Website := Text(u.website.value)] else d1;
    var d3 := if u.industry.Some? then d2[Industry := Text(u.industry.value)] else d2;
    var d4 := if u.founded.Some? then d3[Founded := Day(u.founded.value)] else d3;
    if u.size.Some? then d4[Size := Text(u.size.value)] else d4
  }

  /** The stored base fields with every field the update sets overwritten. */
  function MergeCompany(b: CompanyBase, u: CompanyUpdate): CompanyBase {
    CompanyBase(u.name.GetOr(b.name), u.website.Or(b.website), u.industry.Or(b.industry),
                u.founded.Or(b.founded), u.size.Or(b.size))
  }

  /** The keys of a dumped `CompanyRead`. */
  lemma DumpCompanyKeys(c: CompanyRead)
    ensures forall f :: f in DumpCompany(c) <==> IsCompanyBaseField(f) || f == Id || f == CreatedAt || f == UpdatedAt
  {
  }

  /** What the dump of an update holds, key by key. */
  lemma UpdateDumpKeys(u: CompanyUpdate)
    ensures var d := DumpCompanyUpdate(u);
      && (forall f :: f in d ==> IsCompanyBaseField(f))
      && (Name in d <==> u.name.Some?) && (u.name.Some? ==> d[Name] == Text(u.name.value))
      && (Website in d <==> u.website.Some?) && (u.website.Some? ==> d[Website] == Text(u.website.value))
      && (Industry in d <==> u.industry.Some?) && (u.industry.Some? ==> d[Industry] == Text(u.industry.value))
      && (Founded in d <==> u.founded.Some?) && (u.founded.Some? ==> d[Founded] == Day(u.founded.value))
      && (Size in d <==> u.size.Some?) && (u.size.Some? ==> d[Size] == Text(u.size.value))
  {
  }

  /** `CompanyCreate` declares exactly the base fields: setting any other key, `id` and the
      timestamps included, does not change what a body validates to. */
  lemma CreateIgnoresUndeclaredKeys(d: Dict, f: Field, v: Value)
    requires !IsCompanyBaseField(f)
    ensures ParseCompanyCreate(d[f := v]) == ParseCompanyCreate(d)
  {
  }

  /** Nor can a PATCH body carry an id or timestamps: `CompanyUpdate` ignores them too. */
  lemma UpdateIgnoresUndeclaredKeys(d: Dict, f: Field, v: Value)
    requires !IsCompanyBaseField(f)
    ensures ParseCompanyUpdate(d[f := v]) == ParseCompanyUpdate(d)
  {
  }

  /** A body holding just a name is a valid company; everything else defaults to none. */
  lemma NameAloneSuffices(name: string)
    ensures ParseCompanyCreate(map[Name := Text(name)]) == Ok(CompanyBase(name, None, None, None, None))
  {
  }

  /** Dumping and re-validating a base record gives it back. */
  lemma BaseDumpRoundTrip(b: CompanyBase)
    ensures ParseCompanyCreate(DumpCompanyBase(b)) == Ok(b)
  {
  }

  /** Dumping an update and re-validating it gives it back. */
  lemma UpdateDumpRoundTrip(u: CompanyUpdate)
    ensures ParseCompanyUpdate(DumpCompanyUpdate(u)) == Ok(u)
  {
  }

  /** `CompanyRead(**c.model_dump())` is `c`: no default factory runs, whatever the clock. */
  lemma ReadDumpRoundTrip(c: CompanyRead, generatedId: Uuid, now: Timestamp)
    ensures ParseCompanyRead(DumpCompany(c), generatedId, now) == Ok(c)
  {
    BaseDumpRoundTrip(c.base);
  }

  /** The create path, `CompanyRead(**company.model_dump())`: the generated id, both timestamps
      from the clock, the payload's fields. */
  lemma CreateDictBuildsFreshRecord(b: CompanyBase, generatedId: Uuid, now: Timestamp)
    ensures ParseCompanyRead(DumpCompanyBase(b), generatedId, now) == Ok(CompanyRead(generatedId, b, now, now))
  {
    BaseDumpRoundTrip(b);
  }

  /** The dictionary a PATCH rebuilds from is the dump of the merged record. */
  lemma PatchDictIsDumpOfMerge(c: CompanyRead, u: CompanyUpdate)
    ensures DumpCompany(c) + DumpCompanyUpdate(u) == DumpCompany(c.(base := MergeCompany(c.base, u)))
  {
    var d := DumpCompany(c) + DumpCompanyUpdate(u);
    var t := DumpCompany(c.(base := MergeCompany(c.base, u)));
    PatchDictKeys(c, u);
    PatchDictValues(c, u);
    assert d == t;
  }

  lemma PatchDictKeys(c: CompanyRead, u: CompanyUpdate)
    ensures (DumpCompany(c) + DumpCompanyUpdate(u)).Keys == DumpCompany(c.(base := MergeCompany(c.base, u))).Keys
  {
    UpdateDumpKeys(u);
    DumpCompanyKeys(c);
    DumpCompanyKeys(c.(base := MergeCompany(c.base, u)));
  }

  lemma PatchDictValues(c: CompanyRead, u: CompanyUpdate)
    ensures var d, t := DumpCompany(c) + DumpCompanyUpdate(u), DumpCompany(c.(base := MergeCompany(c.base, u)));
      forall f | f in t :: f in d && d[f] == t[f]
  {
    var d, t := DumpCompany(c) + DumpCompanyUpdate(u), DumpCompany(c.(base := MergeCompany(c.base, u)));
    DumpCompanyKeys(c.(base := MergeCompany(c.base, u)));
    forall f | f in t ensures f in d && d[f] == t[f] {
      PatchDictAt(c, u, f);
    }
  }

  /** One key of the PATCH dictionary: an update field the update sets carries the new value,
      every other key the stored one. */
  lemma PatchDictAt(c: CompanyRead, u: CompanyUpdate, f: Field)
    requires IsCompanyBaseField(f) || f == Id || f == CreatedAt || f == UpdatedAt
    ensures var d := DumpCompany(c) + DumpCompanyUpdate(u);
      f in d && f in DumpCompany(c.(base := MergeCompany(c.base, u)))
      && d[f] == DumpCompany(c.(base := MergeCompany(c.base, u)))[f]
  {
    UpdateDumpKeys(u);
    if IsCompanyBaseField(f) {
      PatchDictScalarAt(c, u, f);
    } else {
      var t := DumpCompany(c.(base := MergeCompany(c.base, u)));
      assert t[Id] == Ident(c.id) && t[CreatedAt] == Instant(c.createdAt) && t[UpdatedAt] == Instant(c.updatedAt);
    }
  }

  /** A base field of the PATCH dictionary holds what the merged record dumps to. */
  lemma PatchDictScalarAt(c: CompanyRead, u: CompanyUpdate, f: Field)
    requires IsCompanyBaseField(f)
    ensures var d := DumpCompany(c) + DumpCompanyUpdate(u);
      f in d && f in DumpCompany(c.(base := MergeCompany(c.base, u)))
      && d[f] == DumpCompany(c.(base := MergeCompany(c.base, u)))[f]
  {
    var m := MergeCompany(c.base, u);
    var t := DumpCompany(c.(base := m));
    UpdateDumpKeys(u);
    match f
    case Name => assert t[f] == Text(m.name);
    case Website => assert t[f] == TextOrNull(m.website);
    case Industry => assert t[f] == TextOrNull(m.industry);
    case Founded => assert t[f] == DayOrNull(m.founded);
    case Size => assert t[f] == TextOrNull(m.size);
  }

  /** The PATCH path, `stored.update(update.model_dump(exclude_unset=True))` and
      `CompanyRead(**stored)`: the merge of the set fields, with the stored id and both stored
      timestamps kept. */
  lemma PatchDictMerges(c: CompanyRead, u: CompanyUpdate, generatedId: Uuid, now: Timestamp)
    ensures ParseCompanyRead(DumpCompany(c) + DumpCompanyUpdate(u), generatedId, now)
         == Ok(c.(base := MergeCompany(c.base, u)))
  {
    PatchDictIsDumpOfMerge(c, u);
    ReadDumpRoundTrip(c.(base := MergeCompany(c.base, u)), generatedId, now);
  }

  /** The PUT path, `company_data["id"] = company_id` and `CompanyRead(**company_data)`: the
      path id, the payload's fields, and both timestamps regenerated from the clock. */
  lemma ReplaceDictUsesPathId(id: Uuid, b: CompanyBase, generatedId: Uuid, now: Timestamp)
    ensures ParseCompanyRead(DumpCompanyBase(b)[Id := Ident(id)], generatedId, now) == Ok(CompanyRead(id, b, now, now))
  {
    BaseDumpRoundTrip(b);
  }

  /** An update that sets nothing leaves every base field as stored. */
  lemma EmptyMergeIsIdentity(b: CompanyBase)
    ensures MergeCompany(b, CompanyUpdate(None, None, None, None, None)) == b
  {
  }

  /** Applying the same update twice is applying it once. */
  lemma MergeIdempotent(b: CompanyBase, u: CompanyUpdate)
    ensures MergeCompany(MergeCompany(b, u), u) == MergeCompany(b, u)
  {
  }
}
