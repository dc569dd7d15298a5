/**
 * The Brand service over the repository: a store that keeps the `brand`
 * table in place. Creating checks the name first, then saves; updating
 * overwrites the six client fields of an existing entry and saves; deleting
 * removes an existing entry. Saving runs the entity's constraints and then
 * the unique index on `name`; a save that fails changes nothing.
 */
module BrandService {
  import opened Wrappers
  import opened Chars
  import opened BrandEntity
  import opened BrandRepository

  /** Why an operation failed. The service itself throws one `RuntimeException` for the first two. */
  datatype BrandError =
    | DuplicateName(name: Option<string>)           // "Brand with name ... already exists"
    | NotFound(id: BrandId)                         // "Brand not found with id: ..."
    | ValidationFailed(violations: set<Violation>)  // Bean Validation rejects the save
    | UniqueIndexViolation                          // the unique index on `name` rejects the save

  /**
   * What saving `b` into `m` checks, in order: the entity's constraints,
   * then the unique index on `name` against every other entry.
   */
  function SaveCheck(m: Table, b: Brand): (r: Option<BrandError>)
    ensures r.None? <==> ValidFields(b.fields) && NameFreeFor(m, b.id, b.fields.name)
    ensures !ValidFields(b.fields) ==> r == Some(ValidationFailed(Violations(b.fields)))
    ensures ValidFields(b.fields) && !NameFreeFor(m, b.id, b.fields.name) ==> r == Some(UniqueIndexViolation)
  {
    var v := Violations(b.fields);
    if v != {} then Some(ValidationFailed(v))
    else if !NameFreeFor(m, b.id, b.fields.name) then Some(UniqueIndexViolation)
    else None
  }

  /** Saving a Brand whose name is free for its id keeps names unique. */
  lemma SaveKeepsNamesUnique(m: Table, b: Brand)
    requires NamesUnique(m) && NameFreeFor(m, b.id, b.fields.name)
    ensures NamesUnique(m[b.id := b])
  {
  }

  class BrandStore {
    /** The `brand` table. */
    var brands: Table
    /** Stand-in for the UUID generator: every id handed out so far is below it. */
    var nextId: nat
    /** An abstract clock read for `createdAt` and `updatedAt`. */
    var clock: nat

    /** Every entry is under its own id, valid, stamped in the past, and uniquely named. */
    ghost predicate Valid()
      reads this
    {
      && IdsMatchKeys(brands)
      && (forall id :: id in brands ==> id < nextId)
      && (forall id :: id in brands ==> brands[id].createdAt <= brands[id].updatedAt < clock)
      && (forall id :: id in brands ==> ValidFields(brands[id].fields))
      && NamesUnique(brands)
    }

    constructor ()
      ensures Valid()
      ensures brands == map[]
    {
      brands := map[];
      nextId := 0;
      clock := 0;
    }

    // -------------------------------------------------------------------------
    // Read-only queries

    /** `getAllBrands`: one record per stored entry. */
    function GetAllBrands(): (r: set<Brand>)
      reads this
      requires Valid()
      ensures |r| == |brands|
      ensures forall id :: id in brands ==> brands[id] in r
      ensures forall b :: b in r ==> b.id in brands && brands[b.id] == b
    {
      AllBrandsCount(brands);
      brands.Values
    }

    /** `getBrandById`: the entry stored under `id`, if any. */
    function GetBrandById(id: BrandId): (r: Option<Brand>)
      reads this
      requires Valid()
      ensures r.Some? <==> id in brands
      ensures r.Some? ==> r.value == brands[id] && r.value.id == id
    {
      if id in brands then Some(brands[id]) else None
    }

    /** `getBrandByName`: the one entry named exactly `name`, if any. */
    function GetBrandByName(name: string): (r: Option<Brand>)
      reads this
      requires Valid()
      ensures r.Some? <==> NameInUse(brands, Some(name))
      ensures r.Some? ==> r.value.id in brands && brands[r.value.id] == r.value
      ensures r.Some? ==> r.value.fields.name == Some(name)
    {
      FindByName(brands, Some(name))
    }

    /** `searchBrandsByName`: stored entries whose name holds `query`, ignoring case. */
    function SearchBrandsByName(query: string): (r: set<Brand>)
      reads this
      requires Valid()
      ensures r == FindByNameContainingIgnoreCase(brands, query)
      ensures query == "" ==> r == brands.Values
      ensures forall b :: b in r ==> b.id in brands && ValidName(b.fields.name)
    {
      if query == "" then SearchEmptyQuery(brands); FindByNameContainingIgnoreCase(brands, query)
      else FindByNameContainingIgnoreCase(brands, query)
    }

    /**
     * `getBrandsWithWebsite`: stored entries with a website link. An empty
     * link never reaches the table, since it fails the website pattern.
     */
    function GetBrandsWithWebsite(): (r: set<Brand>)
      reads this
      requires Valid()
      ensures r == FindBrandsWithWebsite(brands)
      ensures forall b :: b in r ==>
        b.id in brands && b.fields.websiteLink.Some? && MatchesWebsite(b.fields.websiteLink.value)
      ensures forall b :: b in r ==> b.fields.websiteLink != Some("")
    {
      FindBrandsWithWebsite(brands)
    }

    /** `getBrandsByMobileNumber`: nothing is stored under a number the pattern rejects. */
    function GetBrandsByMobileNumber(number: string): (r: set<Brand>)
      reads this
      requires Valid()
      ensures r == FindByMobileNumber(brands, number)
      ensures !MatchesMobile(number) ==> r == {}
    {
      FindByMobileNumber(brands, number)
    }

    // -------------------------------------------------------------------------
    // Writes

    /**
     * `createBrand`: rejects a name already stored; otherwise saves the
     * payload as a new entry under a fresh id.
     */
    method CreateBrand(payload: BrandFields) returns (r: Result<Brand, BrandError>)
      requires Valid()
      modifies this
      ensures Valid()
      ensures NameInUse(old(brands), payload.name) ==> r == Failure(DuplicateName(payload.name))
      ensures !NameInUse(old(brands), payload.name) && !ValidFields(payload) ==>
        r == Failure(ValidationFailed(Violations(payload)))
      ensures r.Success? <==> !NameInUse(old(brands), payload.name) && ValidFields(payload)
      ensures r.Failure? ==> brands == old(brands) && nextId == old(nextId) && clock == old(clock)
      ensures r.Success? ==>
        && r.value.id !in old(brands)
        && r.value.fields == payload
        && r.value.createdAt == r.value.updatedAt == old(clock)
        && brands == old(brands)[r.value.id := r.value]
        && nextId == old(nextId) + 1 && clock == old(clock) + 1
      ensures r.Success? ==> GetBrandById(r.value.id) == Some(r.value)
      ensures KeepsIdentity(old(brands), brands)
    {
      if FindByName(brands, payload.name).Some? {
        return Failure(DuplicateName(payload.name));
      }
      var brand := Brand(nextId, clock, clock, payload);
      var check := SaveCheck(brands, brand);
      if check.Some? {
        // The name was just found free, so only the entity's constraints can fail.
        return Failure(check.value);
      }
      SaveKeepsNamesUnique(brands, brand);
      brands := brands[brand.id := brand];
      nextId := nextId + 1;
      clock := clock + 1;
      return Success(brand);
    }

    /**
     * `updateBrand`: overwrites the name, logo URL, website link,
     * certificate URLs, mobile number and address of the entry under `id`
     * with the payload's, absent ones included, and saves it. The name is
     * not checked against other entries here: only the unique index on save
     * stops a rename onto a name in use.
     */
    method UpdateBrand(id: BrandId, payload: BrandFields) returns (r: Result<Brand, BrandError>)
      requires Valid()
      modifies this
      ensures Valid()
      ensures id !in old(brands) ==> r == Failure(NotFound(id))
      ensures id in old(brands) && !ValidFields(payload) ==>
        r == Failure(ValidationFailed(Violations(payload)))
      ensures id in old(brands) && ValidFields(payload) && !NameFreeFor(old(brands), id, payload.name) ==>
        r == Failure(UniqueIndexViolation)
      ensures r.Success? <==>
        id in old(brands) && ValidFields(payload) && NameFreeFor(old(brands), id, payload.name)
      ensures r.Failure? ==> !r.error.DuplicateName?
      ensures r.Failure? ==> brands == old(brands) && clock == old(clock)
      ensures r.Success? ==>
        && r.value == Brand(id, old(brands)[id].createdAt, old(clock), payload)
        && r.value.updatedAt > old(brands)[id].updatedAt
        && brands == old(brands)[id := r.value]
        && clock == old(clock) + 1
      ensures nextId == old(nextId)
      ensures KeepsIdentity(old(brands), brands)
    {
      var found := GetBrandById(id);
      if found.None? {
        return Failure(NotFound(id));
      }
      var brand := found.value;
      brand := brand.(fields := brand.fields.(name := payload.name));
      brand := brand.(fields := brand.fields.(logoUrl := payload.logoUrl));
      brand := brand.(fields := brand.fields.(websiteLink := payload.websiteLink));
      brand := brand.(fields := brand.fields.(certificateUrls := payload.certificateUrls));
      brand := brand.(fields := brand.fields.(mobileNumber := payload.mobileNumber));
      brand := brand.(fields := brand.fields.(address := payload.address));
      brand := brand.(updatedAt := clock);
      var check := SaveCheck(brands, brand);
      if check.Some? {
        return Failure(check.value);
      }
      SaveKeepsNamesUnique(brands, brand);
      brands := brands[id := brand];
      clock := clock + 1;
      return Success(brand);
    }

    /** `deleteBrand`: removes the entry under `id`, which must exist. */
    method DeleteBrand(id: BrandId) returns (r: Outcome<BrandError>)
      requires Valid()
      modifies this
      ensures Valid()
      ensures id !in old(brands) ==> r == Fail(NotFound(id)) && brands == old(brands)
      ensures id in old(brands) ==> r == Pass && brands == old(brands) - {id}
      ensures nextId == old(nextId) && clock == old(clock)
      ensures KeepsIdentity(old(brands), brands)
    {
      if GetBrandById(id).None? {
        return Fail(NotFound(id));
      }
      brands := brands - {id};
      return Pass;
    }
  }
}
