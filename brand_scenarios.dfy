/** Client runs of the service that its contracts decide. */
module BrandScenarios {
  import opened Wrappers
  import opened Chars
  import opened BrandEntity
  import opened BrandRepository
  import opened BrandService
  import BrandExamples

  /**
   * Creating "Acme" twice: the second attempt fails with `DuplicateName`
   * and exactly one Brand named "Acme" remains.
   */
  method CreateAcmeTwice() returns (first: Result<Brand, BrandError>, second: Result<Brand, BrandError>, named: set<Brand>)
    ensures first.Success? && first.value.fields.name == Some("Acme")
    ensures second == Failure(DuplicateName(Some("Acme")))
    ensures named == {first.value}
  {
    var store := new BrandStore();
    var acme := BrandFields(Some("Acme"), None, None, None, None, None);
    BrandExamples.NameExamples();
    first := store.CreateBrand(acme);
    assert NameInUse(store.brands, Some("Acme"));
    second := store.CreateBrand(acme);
    named := set b | b in store.GetAllBrands() && b.fields.name == Some("Acme");
  }

  /**
   * Create, then get by the returned id: a valid payload comes back
   * field for field under a newly assigned id.
   */
  method CreateThenGet(payload: BrandFields) returns (created: Result<Brand, BrandError>, fetched: Option<Brand>)
    ensures created.Success? <==> ValidFields(payload)
    ensures !ValidFields(payload) ==> created == Failure(ValidationFailed(Violations(payload)))
    ensures created.Success? ==> fetched == Some(created.value) && created.value.fields == payload
  {
    var store := new BrandStore();
    created := store.CreateBrand(payload);
    fetched := None;
    if created.Success? {
      fetched := store.GetBrandById(created.value.id);
    }
  }

  /**
   * Updating twice with one payload leaves the same client fields, id and
   * creation time as updating once; only `updatedAt` moves on.
   */
  method UpdateTwice(store: BrandStore, id: BrandId, payload: BrandFields)
    returns (once: Result<Brand, BrandError>, twice: Result<Brand, BrandError>)
    requires store.Valid()
    modifies store
    ensures store.Valid()
    ensures once.Success? <==> twice.Success?
    ensures once.Failure? ==> twice == once && store.brands == old(store.brands)
    ensures once.Success? ==>
      && twice.value.fields == once.value.fields == payload
      && twice.value.id == once.value.id == id
      && twice.value.createdAt == once.value.createdAt
      && store.brands == old(store.brands)[id := twice.value]
  {
    once := store.UpdateBrand(id, payload);
    twice := store.UpdateBrand(id, payload);
  }

  /** Deleting twice: the first removes the entry, the second finds nothing. */
  method DeleteTwice(store: BrandStore, id: BrandId) returns (first: Outcome<BrandError>, second: Outcome<BrandError>)
    requires store.Valid()
    modifies store
    ensures id in old(store.brands) ==> first == Pass && second == Fail(NotFound(id))
    ensures id !in old(store.brands) ==> first == second == Fail(NotFound(id))
    ensures store.brands == old(store.brands) - {id}
  {
    first := store.DeleteBrand(id);
    second := store.DeleteBrand(id);
  }
}
