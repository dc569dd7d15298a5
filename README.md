# Brand records of an influencer-marketing backend, in Dafny

This project models the one entity of the backend: a **Brand** that advertisers register.
It covers two things.

- The Bean Validation constraints declared on the entity's fields.
- The service rules for creating, updating, deleting and querying Brands in the `brand` table.

The model is organised by source file.

- `BrandEntity` (`brand_entity.dfy`) models `Brand.java`.
  - The client-supplied fields are a `BrandFields` datatype, with `Option<string>` wherever Java allows `null`.
  - A stored `Brand` adds its id and its two timestamps.
  - Each annotation is a predicate.
  - The two `@Pattern` regexes have two forms each. One is a decidable scanner (`MatchesWebsite`, `MatchesMobile`), which is what validation runs. The other is the regex language (`WebsitePattern`, `MobilePattern`), stated as "there are group boundaries that split the string this way".
  - `Violations` is the validator. It reports one violation per failing annotation, each tag exactly when its constraint fails, so it is empty exactly when the entity is valid.
- `BrandConstraints` (`brand_constraints.dfy`) proves that each scanner decides exactly its regex. It also proves the consequences:
  - the `{2,6}` bound on the top-level domain never binds;
  - the trailing optional `/` is redundant;
  - the host part is case-sensitive, with or without a scheme;
  - a valid mobile number is 10 to 21 characters long;
  - `certificateUrls` and `address` are unconstrained;
  - `null` passes every constraint except the name's.
- `BrandExamples` and `RepositoryExamples` (`brand_examples.dfy`) hold the concrete accepted and rejected values.
- `BrandRepository` (`brand_repository.dfy`) models `BrandRepository.java`. Its four queries are functions over the table `map<BrandId, Brand>`. Three are derived from their method names; `findBrandsWithWebsite` is a declared `@Query`. No query can change the table.
- `BrandService` (`brand_service.dfy`) models `BrandService.java` as the class `BrandStore`.
  - The class holds the table, an id source and an abstract clock.
  - Its invariant `Valid()` says:
    - every entry is stored under its own id;
    - every entry satisfies the entity constraints;
    - every entry's timestamps are in the past;
    - names are unique.
  - `CreateBrand`, `UpdateBrand` and `DeleteBrand` are methods with `modifies this`. Each states its whole new state. A failed operation leaves the table unchanged. A successful one touches exactly one entry.
  - Saving is modelled once, in `SaveCheck`. It runs Bean Validation first, then the unique index on `name`.
- `BrandScenarios` (`brand_scenarios.dfy`) contains client runs that the contracts decide:
  - creating "Acme" twice;
  - create-then-get;
  - updating twice with one payload;
  - deleting twice.

In four places the code does less than one might expect, and the model follows the code:

- The website query tests only `IS NOT NULL`, so an empty-string link would be returned. The store invariant keeps such a link out of the table anyway, because `""` fails the website pattern.
- Nothing validates a payload before the store is touched. The controller has no `@Valid`, so constraints fire only when the entity is saved. As a result, `createBrand` reports a duplicate name even for an invalid payload.
- `updateBrand` has no name-uniqueness check. A rename onto a name already in use is rejected only by the unique index when saving. The model reports that rejection as `UniqueIndexViolation`, never as `DuplicateName`.
- The service itself throws a plain `RuntimeException` for its two checks (a duplicate name, a missing id); a failed save surfaces as the persistence framework's own exception. The model separates the four outcomes into `BrandError`:
  - `DuplicateName`: the condition at `BrandService.java:44-45`;
  - `NotFound`: the conditions at `BrandService.java:51-52` and `66-67`;
  - `ValidationFailed`: Bean Validation rejects the save;
  - `UniqueIndexViolation`: the unique index rejects the save.

## Model

| member | source | states |
|---|---|---|
| `Chars.Lower` | src/main/java/com/influencermarket/backend/Brand/BrandRepository.java:18 | ASCII lower-casing used by `IgnoreCase`: same length, each character folded by `ToLower` |
| `Chars.LowerIdempotent` | src/main/java/com/influencermarket/backend/Brand/BrandRepository.java:18 | folding an already folded string changes nothing |
| `BrandEntity.ValidName` | src/main/java/com/influencermarket/backend/Brand/Brand.java:30-31 | a name is present, has a non-whitespace character (`@NotBlank`) and is 2 to 255 characters long (`@Size`) |
| `BrandEntity.ValidLogoUrl` | src/main/java/com/influencermarket/backend/Brand/Brand.java:35 | a logo URL is null or at most 500 characters long |
| `BrandEntity.WebsitePattern` | src/main/java/com/influencermarket/backend/Brand/Brand.java:40 | the language of the website regex: some boundaries split the link into an optional scheme, a non-empty `[\da-z.-]` run, a dot, a 2-to-6-character `[a-z.]` run and a `[/\w .-]*/?` tail |
| `BrandEntity.MatchesWebsite` | src/main/java/com/influencermarket/backend/Brand/Brand.java:40 | the website regex decided by one scan; `BrandConstraints.WebsiteMatcherCorrect` proves it equals `WebsitePattern` |
| `BrandEntity.ValidWebsiteLink` | src/main/java/com/influencermarket/backend/Brand/Brand.java:39-40 | a website link is null, or at most 500 characters long and matching the website regex |
| `BrandEntity.MobilePattern` | src/main/java/com/influencermarket/backend/Brand/Brand.java:48 | the language of the mobile regex: an optional `+`, then 10 to 20 characters of `[0-9\s\-()]` |
| `BrandEntity.MatchesMobile` | src/main/java/com/influencermarket/backend/Brand/Brand.java:48 | the mobile regex decided directly; `BrandConstraints.MobileMatcherCorrect` proves it equals `MobilePattern` |
| `BrandEntity.ValidMobileNumber` | src/main/java/com/influencermarket/backend/Brand/Brand.java:48 | a mobile number is null or matches the mobile regex |
| `BrandEntity.ValidFields` | src/main/java/com/influencermarket/backend/Brand/Brand.java:30-51 | the entity is valid when the name, logo URL, website link and mobile number constraints all hold; the other two fields carry none |
| `BrandEntity.Violations` | src/main/java/com/influencermarket/backend/Brand/Brand.java:30-51 | one tag per annotation, each present exactly when that annotation fails (`NameRequired` for a null or blank name, `NameSize` for a present name outside 2..255, `LogoUrlSize`, `WebsiteLinkSize` over 500, `WebsiteLinkFormat` and `MobileNumberFormat` for a present value failing its regex); empty exactly when the entity is valid |
| `BrandConstraints.FormatViolationsFollowPatterns` | src/main/java/com/influencermarket/backend/Brand/Brand.java:40-48 | `WebsiteLinkFormat` and `MobileNumberFormat` are reported exactly for a present value outside the regex language |
| `BrandConstraints.PathTailSlashRedundant` | src/main/java/com/influencermarket/backend/Brand/Brand.java:40 | the optional final `/` of the website pattern accepts nothing that `[/\w .-]*` does not |
| `BrandConstraints.SchemeIsForced` | src/main/java/com/influencermarket/backend/Brand/Brand.java:40 | in any match, the optional scheme group takes exactly the `http://` or `https://` the link begins with |
| `BrandConstraints.WebsiteMatcherSound` | src/main/java/com/influencermarket/backend/Brand/Brand.java:40 | a link the scanner accepts has group boundaries that satisfy the website regex |
| `BrandConstraints.WebsiteMatcherComplete` | src/main/java/com/influencermarket/backend/Brand/Brand.java:40 | a link the website regex matches is accepted by the scanner |
| `BrandConstraints.WebsiteMatcherCorrect` | src/main/java/com/influencermarket/backend/Brand/Brand.java:39-41 | the scanning matcher accepts a link if and only if the website regex matches the whole of it |
| `BrandConstraints.TldUpperBoundNotBinding` | src/main/java/com/influencermarket/backend/Brand/Brand.java:40 | scheme? + domain run + "." + any `[a-z.]` run of length at least 2 + path characters is accepted, so the `{2,6}` bound never binds |
| `BrandConstraints.WebsiteNeedsDotAndTld` | src/main/java/com/influencermarket/backend/Brand/Brand.java:40 | every accepted link has, after its first character, a dot followed by two `[a-z.]` characters, and so is at least 4 long |
| `BrandConstraints.UppercaseHostRejected` | src/main/java/com/influencermarket/backend/Brand/Brand.java:40 | after no scheme, `http://` or `https://`, a host beginning with an upper-case letter is rejected by the scanner and by the regex language: the host part is case-sensitive |
| `BrandConstraints.MobileMatcherCorrect` | src/main/java/com/influencermarket/backend/Brand/Brand.java:48-49 | the direct matcher accepts a number if and only if the mobile regex matches the whole of it |
| `BrandConstraints.MobileLength` | src/main/java/com/influencermarket/backend/Brand/Brand.java:48 | an accepted number is 10 to 21 characters long |
| `BrandConstraints.MobileMayExceedColumn` | src/main/java/com/influencermarket/backend/Brand/Brand.java:48-50 | a 21-character number passes the pattern but is longer than the 20-character `mobile_number` column |
| `BrandConstraints.NullFieldsPass` | src/main/java/com/influencermarket/backend/Brand/Brand.java:30-51 | with every optional field null the only violation is `NameRequired` |
| `BrandConstraints.UnconstrainedFields` | src/main/java/com/influencermarket/backend/Brand/Brand.java:45-54 | no value of `certificateUrls` or `address`, including null, affects validity or the violations reported |
| `BrandExamples.NameExamples` | src/main/java/com/influencermarket/backend/Brand/Brand.java:30-33 | `"a"`, `"  "` and null are rejected as names; `"Acme"` is accepted |
| `BrandExamples.LogoUrlExamples` | src/main/java/com/influencermarket/backend/Brand/Brand.java:35-37 | a logo URL is valid if and only if it is absent or at most 500 characters long |
| `BrandExamples.WebsiteAccepts` | src/main/java/com/influencermarket/backend/Brand/Brand.java:40 | `"http://a.io"` and the scheme-less `"example.com"` are accepted |
| `BrandExamples.WebsiteAcceptsPath` | src/main/java/com/influencermarket/backend/Brand/Brand.java:40 | `"https://shop.example.co.uk"` followed by any string of `[/\w .-]` characters is accepted |
| `BrandExamples.WebsiteRejects` | src/main/java/com/influencermarket/backend/Brand/Brand.java:40 | `"notaurl"`, `"example"`, `"ftp://x"`, `"a.b"` and `"Example.com"` match no split of the regex |
| `BrandExamples.MobileExamples` | src/main/java/com/influencermarket/backend/Brand/Brand.java:48 | `"1234567890"` and `"+1 (555) 123-4567"` are accepted; `"123"`, `"12345"` and a number with letters are rejected |
| `BrandExamples.ValidPayloadViolations` | src/main/java/com/influencermarket/backend/Brand/Brand.java:30-51 | a payload meeting every constraint draws no violation |
| `BrandExamples.BadPayloadViolations` | src/main/java/com/influencermarket/backend/Brand/Brand.java:30-51 | a one-letter name, a link without a dot and a three-digit number are all reported together: `NameSize`, `WebsiteLinkFormat`, `MobileNumberFormat` |
| `BrandExamples.BlankNameViolations` | src/main/java/com/influencermarket/backend/Brand/Brand.java:30-33 | a two-space name violates `@NotBlank` only, since its length is within `@Size` |
| `BrandRepository.FindByName` | src/main/java/com/influencermarket/backend/Brand/BrandRepository.java:16 | finds a Brand if and only if one is named exactly the argument; the Brand found is stored, has that name, and is the only one with it |
| `BrandRepository.FindByNameContainingIgnoreCase` | src/main/java/com/influencermarket/backend/Brand/BrandRepository.java:18 | exactly the stored Brands whose lower-cased name contains the lower-cased query; every hit is named and at least as long as the query |
| `BrandRepository.FindBrandsWithWebsite` | src/main/java/com/influencermarket/backend/Brand/BrandRepository.java:20-21 | exactly the stored Brands whose website link is not null |
| `BrandRepository.FindByMobileNumber` | src/main/java/com/influencermarket/backend/Brand/BrandRepository.java:23 | exactly the stored Brands whose mobile number equals the argument |
| `BrandRepository.AllBrandsCount` | src/main/java/com/influencermarket/backend/Brand/BrandService.java:18-20 | when every entry is stored under its own id, listing all Brands yields one record per entry |
| `BrandRepository.SearchIgnoresQueryCase` | src/main/java/com/influencermarket/backend/Brand/BrandRepository.java:18 | the search gives the same result for a query and its lower-cased form |
| `BrandRepository.SearchEmptyQuery` | src/main/java/com/influencermarket/backend/Brand/BrandRepository.java:18 | an empty query returns every named Brand |
| `RepositoryExamples.FindByNameExamples` | src/main/java/com/influencermarket/backend/Brand/BrandRepository.java:16 | `"Acme"` finds Acme and `"acme"` finds nothing: the lookup is case-sensitive |
| `RepositoryExamples.SearchExamples` | src/main/java/com/influencermarket/backend/Brand/BrandRepository.java:18 | `"ac"` and `"AC"` both find `"Acme"`, and `"ac"` does not find `"Globex"` |
| `RepositoryExamples.WebsiteQueryIncludesEmptyLink` | src/main/java/com/influencermarket/backend/Brand/BrandRepository.java:20-21 | a Brand whose link is the empty string is included, and one with a null link is not |
| `RepositoryExamples.MobileQueryReturnsSeveral` | src/main/java/com/influencermarket/backend/Brand/BrandRepository.java:23 | two Brands sharing a number are both returned |
| `BrandService.SaveCheck` | src/main/java/com/influencermarket/backend/Brand/Brand.java:30-51 | a save passes if and only if the entity is valid and no other entry has its name; validation failures are reported before the unique index |
| `BrandService.SaveKeepsNamesUnique` | src/main/java/com/influencermarket/backend/Brand/Brand.java:32 | saving a Brand whose name no other entry uses keeps names unique |
| `BrandService.BrandStore.constructor` | src/main/java/com/influencermarket/backend/Brand/BrandService.java:14-16 | a new store is empty and satisfies the invariant |
| `BrandService.BrandStore.GetAllBrands` | src/main/java/com/influencermarket/backend/Brand/BrandService.java:18-20 | one record per stored entry, each the entry under its own id |
| `BrandService.BrandStore.GetBrandById` | src/main/java/com/influencermarket/backend/Brand/BrandService.java:22-24 | a Brand is returned if and only if the id is stored, and it carries that id |
| `BrandService.BrandStore.GetBrandByName` | src/main/java/com/influencermarket/backend/Brand/BrandService.java:26-28 | a Brand is returned if and only if one is named exactly the argument; it is the stored entry with that name |
| `BrandService.BrandStore.SearchBrandsByName` | src/main/java/com/influencermarket/backend/Brand/BrandService.java:30-32 | the repository search on the current table; an empty query lists every Brand; every hit has a valid name |
| `BrandService.BrandStore.GetBrandsWithWebsite` | src/main/java/com/influencermarket/backend/Brand/BrandService.java:34-36 | the repository query on the current table; every link returned matches the website pattern, so none is empty |
| `BrandService.BrandStore.GetBrandsByMobileNumber` | src/main/java/com/influencermarket/backend/Brand/BrandService.java:38-40 | the repository query on the current table; a number the mobile pattern rejects finds nothing |
| `BrandService.BrandStore.CreateBrand` | src/main/java/com/influencermarket/backend/Brand/BrandService.java:42-48 | a name already stored fails with `DuplicateName`, and an invalid payload otherwise fails with its violations; both leave the store unchanged. Success adds exactly one entry, under an id not stored before, with the payload's fields and fresh timestamps, and the entry can then be fetched by its id |
| `BrandService.BrandStore.UpdateBrand` | src/main/java/com/influencermarket/backend/Brand/BrandService.java:50-63 | a missing id fails with `NotFound`, and a failed save fails with its violations or the unique index; all failures leave the store unchanged and none is `DuplicateName`. Success replaces the entry's six client fields with the payload's, nulls included, keeps its id and `createdAt`, advances `updatedAt`, and changes no other entry |
| `BrandService.BrandStore.DeleteBrand` | src/main/java/com/influencermarket/backend/Brand/BrandService.java:65-69 | a missing id fails with `NotFound` and changes nothing; a present id removes exactly that entry |
| `BrandScenarios.CreateAcmeTwice` | src/main/java/com/influencermarket/backend/Brand/BrandService.java:42-47 | the second create of "Acme" fails with `DuplicateName`, and exactly one Brand named "Acme" remains |
| `BrandScenarios.CreateThenGet` | src/main/java/com/influencermarket/backend/Brand/BrandService.java:22-24 | create succeeds if and only if the payload is valid, and getting the returned id gives back the created Brand with the payload's fields |
| `BrandScenarios.UpdateTwice` | src/main/java/com/influencermarket/backend/Brand/BrandService.java:55-62 | updating twice with one payload gives the same fields, id and `createdAt` as updating once |
| `BrandScenarios.DeleteTwice` | src/main/java/com/influencermarket/backend/Brand/BrandService.java:65-69 | a second delete of the same id fails with `NotFound`, and the entry is gone |

## Left out

- `BrandController.java` is not modelled. It holds HTTP routing, response construction and API annotations. It maps any failure to 400 on create and to 404 on update and delete.
- `OpenApiConfig.java` and `SecurityConfig.java` are not modelled. They contain only annotation metadata and security filter configuration.
- UUID generation is modelled by the counter `nextId`. The counter always yields an id that was never stored before.
- Timestamps are readings of an abstract counter `clock`. Hibernate refreshes `updatedAt` only when a flush finds the entity dirty. So in the source, re-applying the same update leaves `updatedAt` unchanged, while the model advances it on every successful update.
- Query results are sets. The lists the queries return have no `ORDER BY`, so their order is not modelled. Each record carries its own id, so a set loses no rows.
- `@Size` counts UTF-16 code units. The model counts Dafny characters, which differs only for characters outside the Basic Multilingual Plane.
- `@NotBlank` is modelled as "some character is not whitespace", with the ASCII whitespace of the regex class `\s`. Hibernate's implementation trims every character up to U+0020, so it also treats a name made only of other control characters as blank. That difference is not modelled.
- `IgnoreCase` and the regex character classes are ASCII only. The SQL uses `upper()` on both sides, while the model lower-cases both sides. The two agree on ASCII.
- `BrandRepository.FindByName` requires names to be unique, because Spring Data throws when a single-result query finds several rows. The store invariant and the unique index guarantee uniqueness.
- Column widths in the SQL schema are not enforced when saving, except the unique index on `name`. `MobileMayExceedColumn` shows that the pattern admits a number longer than its column.
- The concurrent duplicate-name race between two creators is not modelled. It is a concurrency concern that only the unique index settles.
- Transactions, SQL and persistence-context effects are not modelled:
  - the managed entity mutated by a failed update;
  - `save`'s merge-instead-of-insert when a client supplies an id to create, since the payload type has no id.
