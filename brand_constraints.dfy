/**
 * What the Brand entity's constraints mean: the scanning matchers agree with
 * the languages of the two regular expressions, and the memorable accept and
 * reject cases follow.
 */
module BrandConstraints {
  import opened Wrappers
  import opened Chars
  import opened BrandEntity

  // ---------------------------------------------------------------------------
  // Website pattern

  /** The optional final `/` of the website pattern adds nothing: `/` is already a path character. */
  lemma PathTailSlashRedundant(t: string)
    ensures IsPathTail(t) <==> All(t, IsPathChar)
  {
  }

  /** A successful scan from `k` has found a dot at some `j >= k` that ends a domain run. */
  lemma {:induction false} HostFromSound(u: string, k: nat) returns (j: nat)
    requires HostFrom(u, k)
    requires All(u[..k], IsDomainChar)
    ensures k <= j && j + 3 <= |u|
    ensures All(u[..j], IsDomainChar)
    ensures u[j] == '.' && IsTldChar(u[j + 1]) && IsTldChar(u[j + 2])
    decreases |u| - k
  {
    if u[k] == '.' && IsTldChar(u[k + 1]) && IsTldChar(u[k + 2]) {
      j := k;
    } else {
      assert forall i :: 0 <= i < k + 1 ==> u[..k + 1][i] == (if i < k then u[..k][i] else u[k]);
      j := HostFromSound(u, k + 1);
    }
  }

  /** The scan from any index `i` up to a dot at `k` that ends a domain run succeeds. */
  lemma {:induction false} HostFromComplete(u: string, i: nat, k: nat)
    requires i <= k && k + 3 <= |u|
    requires forall m :: i <= m < k ==> IsDomainChar(u[m])
    requires u[k] == '.' && IsTldChar(u[k + 1]) && IsTldChar(u[k + 2])
    ensures HostFrom(u, i)
    decreases k - i
  {
    if i < k && !(u[i] == '.' && IsTldChar(u[i + 1]) && IsTldChar(u[i + 2])) {
      HostFromComplete(u, i + 1, k);
    }
  }

  /** Domain and top-level-domain characters are path characters. */
  lemma CharClassesNest(c: char)
    ensures IsTldChar(c) ==> IsDomainChar(c)
    ensures IsDomainChar(c) ==> IsPathChar(c)
  {
  }

  /** A string starting with `http://` or `https://` cannot match with the scheme group left empty. */
  lemma SchemeIsForced(s: string, sch: int, dot: int, tldEnd: int)
    requires WebsiteSplit(s, sch, dot, tldEnd)
    ensures sch == SchemeLength(s)
  {
    if sch == 0 {
      // Either s[4] and s[5] lie in the domain run, so neither is the scheme's ':',
      // or the dot comes within the first six characters, where neither scheme has one.
      var i4, i5 := if dot > 5 then 4 else dot, if dot > 5 then 5 else dot;
      if dot > 5 {
        assert s[4] == s[sch..dot][4] && s[5] == s[sch..dot][5];
      }
      assert s[i4] != "http://"[i4];
      assert s[i5] != "https://"[i5];
    } else if s[..sch] == "http://" {
      assert s[4] == s[..sch][4] == ':';
    }
  }

  /** A link the scanner accepts splits the way the website regex requires. */
  lemma WebsiteMatcherSound(s: string)
    requires MatchesWebsite(s)
    ensures WebsitePattern(s)
  {
    var n := SchemeLength(s);
    var u := s[n..];
    assert All(u[..1], IsDomainChar) by {
      assert u[..1][0] == u[0];
    }
    var j := HostFromSound(u, 1);
    var dot, tldEnd := n + j, n + j + 3;
    assert s[n..dot] == u[..j];
    assert s[dot + 1..tldEnd] == [u[j + 1], u[j + 2]];
    assert s[tldEnd..] == u[j + 3..];
    assert All(s[tldEnd..], IsPathChar) by {
      forall m | 0 <= m < |s[tldEnd..]| ensures IsPathChar(s[tldEnd..][m]) {
        assert s[tldEnd..][m] == u[j + 3 + m];
      }
    }
    assert WebsiteSplit(s, n, dot, tldEnd);
  }

  /** After the scheme, every character of a split link is a path character. */
  lemma SplitIsPathChars(s: string, sch: int, dot: int, tldEnd: int)
    requires WebsiteSplit(s, sch, dot, tldEnd)
    ensures All(s[sch..], IsPathChar)
  {
    PathTailSlashRedundant(s[tldEnd..]);
    forall m | 0 <= m < |s[sch..]| ensures IsPathChar(s[sch..][m]) {
      var i := sch + m;
      if i < dot {
        assert s[i] == s[sch..dot][m];
        CharClassesNest(s[i]);
      } else if dot < i < tldEnd {
        assert s[i] == s[dot + 1..tldEnd][i - dot - 1];
        CharClassesNest(s[i]);
      } else if tldEnd <= i {
        assert s[i] == s[tldEnd..][i - tldEnd];
      }
    }
  }

  /** Every split the website regex allows is found by the scanner. */
  lemma WebsiteMatcherComplete(s: string)
    requires WebsitePattern(s)
    ensures MatchesWebsite(s)
  {
    var sch, dot, tldEnd :| WebsiteSplit(s, sch, dot, tldEnd);
    SchemeIsForced(s, sch, dot, tldEnd);
    SplitIsPathChars(s, sch, dot, tldEnd);
    var u := s[sch..];
    var k := dot - sch;
    assert u[0] == s[sch..dot][0];
    assert u[k] == s[dot];
    assert u[k + 1] == s[dot + 1..tldEnd][0];
    assert u[k + 2] == s[dot + 1..tldEnd][1];
    forall m | 1 <= m < k ensures IsDomainChar(u[m]) {
      assert u[m] == s[sch + m];
      assert s[sch + m] == s[sch..dot][m];
    }
    HostFromComplete(u, 1, k);
  }

  /** The scanning matcher decides exactly the language of the website pattern. */
  lemma WebsiteMatcherCorrect(s: string)
    ensures MatchesWebsite(s) <==> WebsitePattern(s)
  {
    if MatchesWebsite(s) {
      WebsiteMatcherSound(s);
    }
    if WebsitePattern(s) {
      WebsiteMatcherComplete(s);
    }
  }

  /**
   * The `{2,6}` bound on the top-level domain never binds: after a
   * two-character top-level domain, any further `[a-z.]` characters are
   * taken by the path, so a top-level domain of any length of at least two
   * is accepted.
   */
  lemma TldUpperBoundNotBinding(scheme: string, d: string, t: string, r: string)
    requires IsScheme(scheme)
    requires |d| > 0 && All(d, IsDomainChar)
    requires |t| >= 2 && All(t, IsTldChar)
    requires All(r, IsPathChar)
    ensures MatchesWebsite(scheme + d + "." + t + r)
  {
    var s := scheme + d + "." + t + r;
    var dot := |scheme| + |d|;
    TldTailIsPath(t, r);
    SplitAtLongTld(scheme, d, t, r);
    assert WebsiteSplit(s, |scheme|, dot, dot + 3);
    WebsiteMatcherCorrect(s);
  }

  /** Past its first two characters, a top-level-domain run continues as path characters. */
  lemma TldTailIsPath(t: string, r: string)
    requires |t| >= 2 && All(t, IsTldChar)
    requires All(r, IsPathChar)
    ensures All(t[2..] + r, IsPathChar)
  {
    forall m | 0 <= m < |t[2..] + r| ensures IsPathChar((t[2..] + r)[m]) {
      if m < |t| - 2 {
        CharClassesNest(t[m + 2]);
      }
    }
  }

  /** The group boundaries of `scheme + d + "." + t + r` with a two-character top-level domain. */
  lemma SplitAtLongTld(scheme: string, d: string, t: string, r: string)
    requires |t| >= 2
    ensures var s := scheme + d + "." + t + r; var dot := |scheme| + |d|;
      && s[..|scheme|] == scheme
      && s[|scheme|..dot] == d
      && s[dot] == '.'
      && s[dot + 1..dot + 3] == t[..2]
      && s[dot + 3..] == t[2..] + r
  {
    var s := scheme + d + "." + t + r;
    var sch := |scheme|;
    var dot := sch + |d|;
    var rest := "." + t + r;
    assert s == scheme + d + rest;
    assert s[..sch] == scheme;
    assert s[sch..] == d + rest;
    assert s[sch..dot] == (d + rest)[..|d|] == d;
    assert s[dot..] == rest;
    assert s[dot + 1..] == t + r;
    assert s[dot + 1..dot + 3] == (t + r)[..2] == t[..2];
    assert s[dot + 3..] == (t + r)[2..] == t[2..] + r;
  }

  /** Every accepted website link has, past its first character, a dot followed by two `[a-z.]` characters. */
  lemma WebsiteNeedsDotAndTld(s: string)
    requires MatchesWebsite(s)
    ensures exists j :: 0 < j && j + 2 < |s| && s[j] == '.' && IsTldChar(s[j + 1]) && IsTldChar(s[j + 2])
    ensures |s| >= 4
  {
    WebsiteMatcherCorrect(s);
    var sch, dot, tldEnd :| WebsiteSplit(s, sch, dot, tldEnd);
    assert s[dot + 1] == s[dot + 1..tldEnd][0];
    assert s[dot + 2] == s[dot + 1..tldEnd][1];
  }

  /**
   * The host part is case-sensitive: a link whose host begins with an
   * upper-case letter is rejected, with or without a scheme.
   */
  lemma UppercaseHostRejected(scheme: string, h: string)
    requires IsScheme(scheme)
    requires |h| > 0 && IsUpper(h[0])
    ensures !MatchesWebsite(scheme + h) && !WebsitePattern(scheme + h)
  {
    var s := scheme + h;
    assert s[|scheme|] == h[0];
    assert s[..|scheme|] == scheme;
    if scheme == "http://" {
      assert s[4] == ':';
    }
    assert SchemeLength(s) == |scheme|;
    assert s[SchemeLength(s)..] == h;
    WebsiteMatcherCorrect(s);
  }

  // ---------------------------------------------------------------------------
  // Mobile-number pattern

  /** The direct matcher decides exactly the language of the mobile-number pattern. */
  lemma MobileMatcherCorrect(s: string)
    ensures MatchesMobile(s) <==> MobilePattern(s)
  {
    if MatchesMobile(s) {
      assert MobileSplit(s, if |s| > 0 && s[0] == '+' then 1 else 0);
    }
    if MobilePattern(s) {
      var p :| MobileSplit(s, p);
      assert p == 0 ==> s[p..] == s;
    }
  }

  /** An accepted mobile number is 10 to 21 characters long, counting the optional `+`. */
  lemma MobileLength(s: string)
    requires MatchesMobile(s)
    ensures MobileMinChars <= |s| <= MobileMaxChars + 1
  {
  }

  /**
   * The pattern admits 21 characters while the `mobile_number` column holds
   * 20: a longest valid number does not fit the column.
   */
  lemma MobileMayExceedColumn()
    ensures var s := "+12345678901234567890"; MatchesMobile(s) && |s| > MobileColumnLength
  {
  }

  // ---------------------------------------------------------------------------
  // The whole entity

  /** The two format violations are reported exactly for a present field outside the regex language. */
  lemma FormatViolationsFollowPatterns(f: BrandFields)
    ensures WebsiteLinkFormat in Violations(f) <==>
      f.websiteLink.Some? && !WebsitePattern(f.websiteLink.value)
    ensures MobileNumberFormat in Violations(f) <==>
      f.mobileNumber.Some? && !MobilePattern(f.mobileNumber.value)
  {
    if f.websiteLink.Some? {
      WebsiteMatcherCorrect(f.websiteLink.value);
    }
    if f.mobileNumber.Some? {
      MobileMatcherCorrect(f.mobileNumber.value);
    }
  }

  /** `@Size` and `@Pattern` accept a null field; `@NotBlank` rejects a null name. */
  lemma NullFieldsPass(c: Option<string>, a: Option<string>)
    ensures !ValidFields(BrandFields(None, None, None, c, None, a))
    ensures Violations(BrandFields(None, None, None, c, None, a)) == {NameRequired}
  {
  }

  /** `certificateUrls` and `address` are unconstrained: no value of theirs affects validity. */
  lemma UnconstrainedFields(f: BrandFields, c: Option<string>, a: Option<string>)
    ensures ValidFields(f.(certificateUrls := c, address := a)) <==> ValidFields(f)
    ensures Violations(f.(certificateUrls := c, address := a)) == Violations(f)
  {
  }
}
