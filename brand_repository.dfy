/**
 * The Brand repository's declared queries, as filters over the stored table
 * (the `brand` table, keyed by id). No query changes the table: each is a
 * function of it.
 */
module BrandRepository {
  import opened Wrappers
  import opened Chars
  import opened BrandEntity

  /** The stored Brands by id. */
  type Table = map<BrandId, Brand>

  /** Every entry is stored under its own id. */
  ghost predicate IdsMatchKeys(m: Table)
  {
    forall id :: id in m ==> m[id].id == id
  }

  /** The unique index on `name`: distinct entries have distinct names. */
  ghost predicate NamesUnique(m: Table)
  {
    forall i, j :: i in m && j in m && m[i].fields.name == m[j].fields.name ==> i == j
  }

  /** Some entry is named exactly `name`. */
  predicate NameInUse(m: Table, name: Option<string>)
  {
    exists id :: id in m && m[id].fields.name == name
  }

  /** No entry other than the one under `id` is named exactly `name`. */
  predicate NameFreeFor(m: Table, id: BrandId, name: Option<string>)
  {
    forall other :: other in m && other != id ==> m[other].fields.name != name
  }

  /** Entries present before and after keep their id and creation time. */
  ghost predicate KeepsIdentity(before: Table, after: Table)
  {
    forall id :: id in before && id in after ==>
      after[id].id == before[id].id && after[id].createdAt == before[id].createdAt
  }

  /**
   * `findByName`: the entry named exactly (case-sensitively) `name`, if any.
   * The unique index guarantees there is at most one.
   */
  function FindByName(m: Table, name: Option<string>): (r: Option<Brand>)
    requires NamesUnique(m)
    ensures r.Some? <==> NameInUse(m, name)
    ensures r.Some? ==> r.value in m.Values && r.value.fields.name == name
    ensures r.Some? ==> forall id :: id in m && m[id].fields.name == name ==> m[id] == r.value
  {
    if NameInUse(m, name) then
      var id :| id in m && m[id].fields.name == name; Some(m[id])
    else
      None
  }

  /** `name` holds `query` as a substring, ignoring ASCII case. */
  predicate NameContainsIgnoreCase(name: Option<string>, query: string)
  {
    name.Some? && Contains(Lower(name.value), Lower(query))
  }

  /** `findByNameContainingIgnoreCase`: the entries whose name holds `query`, ignoring case. */
  function FindByNameContainingIgnoreCase(m: Table, query: string): (r: set<Brand>)
    ensures r <= m.Values
    ensures forall id :: id in m ==> (m[id] in r <==> NameContainsIgnoreCase(m[id].fields.name, query))
    ensures forall b :: b in r ==> b.fields.name.Some? && |query| <= |b.fields.name.value|
  {
    set b | b in m.Values && NameContainsIgnoreCase(b.fields.name, query)
  }

  /** `findBrandsWithWebsite`: the entries whose `websiteLink IS NOT NULL`. */
  function FindBrandsWithWebsite(m: Table): (r: set<Brand>)
    ensures r <= m.Values
    ensures forall id :: id in m ==> (m[id] in r <==> m[id].fields.websiteLink.Some?)
  {
    set b | b in m.Values && b.fields.websiteLink.Some?
  }

  /** `findByMobileNumber`: every entry whose mobile number is exactly `number`. */
  function FindByMobileNumber(m: Table, number: string): (r: set<Brand>)
    ensures r <= m.Values
    ensures forall id :: id in m ==> (m[id] in r <==> m[id].fields.mobileNumber == Some(number))
  {
    set b | b in m.Values && b.fields.mobileNumber == Some(number)
  }

  // ---------------------------------------------------------------------------
  // Properties of the queries

  /** `findAll` yields one Brand per entry, since each entry carries its own id. */
  lemma {:induction false} AllBrandsCount(m: Table)
    requires IdsMatchKeys(m)
    ensures |m.Values| == |m|
    decreases |m|
  {
    if m != map[] {
      var k :| k in m;
      var rest := m - {k};
      assert IdsMatchKeys(rest);
      AllBrandsCount(rest);
      // m[k] carries the id k, which rest no longer holds.
      assert forall j :: j in rest ==> rest[j].id == j != k;
      assert m[k] !in rest.Values;
      assert m.Values == rest.Values + {m[k]} by {
        forall b | b in m.Values ensures b in rest.Values + {m[k]} {
          var j :| j in m && m[j] == b;
          if j != k { assert rest[j] == b; }
        }
      }
      assert m.Keys == rest.Keys + {k};
    }
  }

  /** The search does not depend on the case of the query. */
  lemma SearchIgnoresQueryCase(m: Table, query: string)
    ensures FindByNameContainingIgnoreCase(m, Lower(query)) == FindByNameContainingIgnoreCase(m, query)
  {
    LowerIdempotent(query);
  }

  /** An empty query matches every named entry. */
  lemma SearchEmptyQuery(m: Table)
    requires forall id :: id in m ==> m[id].fields.name.Some?
    ensures FindByNameContainingIgnoreCase(m, "") == m.Values
  {
    forall id | id in m ensures m[id] in FindByNameContainingIgnoreCase(m, "") {
      ContainsEmpty(Lower(m[id].fields.name.value));
    }
  }
}
