/** The accept and reject cases the Brand constraints are known by. */
module BrandExamples {
  import opened Wrappers
  import opened Chars
  import opened BrandEntity
  import opened BrandConstraints

  /** A one-character name and an all-blank name are rejected; `"Acme"` is accepted. */
  lemma NameExamples()
    ensures !ValidName(Some("a")) && !ValidName(Some("  ")) && !ValidName(None)
    ensures ValidName(Some("Acme"))
  {
    assert !IsSpace("Acme"[0]);
  }

  /** `logoUrl` is capped at 500 characters and may be absent. */
  lemma LogoUrlExamples(u: string)
    ensures ValidLogoUrl(None)
    ensures ValidLogoUrl(Some(u)) <==> |u| <= 500
  {
  }

  /** Links with and without a scheme are accepted. */
  lemma WebsiteAccepts()
    ensures MatchesWebsite("http://a.io")
    ensures MatchesWebsite("example.com")
  {
    assert MatchesWebsite("http://a.io") by {
      assert "http://" + "a" + "." + "io" + "" == "http://a.io";
      TldUpperBoundNotBinding("http://", "a", "io", "");
    }
    assert MatchesWebsite("example.com") by {
      assert "" + "example" + "." + "com" + "" == "example.com";
      TldUpperBoundNotBinding("", "example", "com", "");
    }
  }

  /** A multi-part top-level domain followed by any path of `[/\w .-]` characters is accepted. */
  lemma WebsiteAcceptsPath(path: string)
    requires All(path, IsPathChar)
    ensures MatchesWebsite("https://shop.example.co.uk" + path)
  {
    var r := ".uk" + path;
    assert All(r, IsPathChar) by {
      forall m | 0 <= m < |r| ensures IsPathChar(r[m]) {
        if m >= 3 { assert r[m] == path[m - 3]; }
      }
    }
    assert "https://" + "shop.example" + "." + "co" + r == "https://shop.example.co.uk" + path;
    TldUpperBoundNotBinding("https://", "shop.example", "co", r);
  }

  lemma WebsiteRejects()
    ensures !WebsitePattern("notaurl") && !WebsitePattern("example")
    ensures !WebsitePattern("ftp://x") && !WebsitePattern("a.b")
    ensures !WebsitePattern("Example.com")
  {
    assert "" + "Example.com" == "Example.com";
    UppercaseHostRejected("", "Example.com");
  }

  lemma MobileExamples()
    ensures MatchesMobile("1234567890")
    ensures MatchesMobile("+1 (555) 123-4567")
    ensures !MatchesMobile("123") && !MatchesMobile("12345")
    ensures !MatchesMobile("555-CALL-NOW")
  {
    var s := "+1 (555) 123-4567";
    assert s[1..] == "1 (555) 123-4567";
    assert !IsMobileChar("555-CALL-NOW"[4]);
  }

  /** A valid payload draws no violation. */
  lemma ValidPayloadViolations()
    ensures Violations(BrandFields(Some("Acme"), None, Some("http://a.io"), None, Some("1234567890"), None)) == {}
  {
    NameExamples();
    WebsiteAccepts();
    MobileExamples();
  }

  /** Each broken constraint of a payload is reported. */
  lemma BadPayloadViolations()
    ensures Violations(BrandFields(Some("a"), None, Some("notaurl"), None, Some("123"), None))
         == {NameSize, WebsiteLinkFormat, MobileNumberFormat}
  {
    assert !IsSpace("a"[0]);
    WebsiteRejects();
    WebsiteMatcherCorrect("notaurl");
    MobileExamples();
  }

  /** A blank name of a permitted length violates only `@NotBlank`. */
  lemma BlankNameViolations()
    ensures Violations(BrandFields(Some("  "), None, None, None, None, None)) == {NameRequired}
  {
    NameExamples();
  }
}

/** The repository queries on a two-entry table. */
module RepositoryExamples {
  import opened Wrappers
  import opened Chars
  import opened BrandEntity
  import opened BrandRepository

  /** Acme has an empty-string website link and shares a mobile number with Globex. */
  function Sample(): Table
  {
    map[
      1 := Brand(1, 0, 0, BrandFields(Some("Acme"), None, Some(""), None, Some("1234567890"), None)),
      2 := Brand(2, 1, 1, BrandFields(Some("Globex"), None, None, None, Some("1234567890"), None))]
  }

  /** `findByName` is exact and case-sensitive. */
  lemma FindByNameExamples()
    ensures NamesUnique(Sample())
    ensures FindByName(Sample(), Some("Acme")) == Some(Sample()[1])
    ensures FindByName(Sample(), Some("acme")) == None
  {
  }

  /** `"ac"` finds Acme, whatever the case, and not Globex. */
  lemma SearchExamples()
    ensures Sample()[1] in FindByNameContainingIgnoreCase(Sample(), "ac")
    ensures Sample()[1] in FindByNameContainingIgnoreCase(Sample(), "AC")
    ensures Sample()[2] !in FindByNameContainingIgnoreCase(Sample(), "ac")
  {
    assert Lower("Acme") == "acme";
    assert Lower("ac") == "ac" && Lower("AC") == "ac";
    assert OccursAt("acme", "ac", 0);
    assert NameContainsIgnoreCase(Some("Acme"), "ac") && NameContainsIgnoreCase(Some("Acme"), "AC");
    assert Lower("Globex") == "globex";
    assert !Contains("globex", "ac");
  }

  /** An empty-string link is not null, so the website query includes it. */
  lemma WebsiteQueryIncludesEmptyLink()
    ensures FindBrandsWithWebsite(Sample()) == {Sample()[1]}
  {
  }

  /** Several Brands may share a mobile number, and the query returns them all. */
  lemma MobileQueryReturnsSeveral()
    ensures FindByMobileNumber(Sample(), "1234567890") == {Sample()[1], Sample()[2]}
    ensures |FindByMobileNumber(Sample(), "1234567890")| == 2
  {
  }
}
