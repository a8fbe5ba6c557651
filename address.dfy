/** The two pure address helpers of the page: `normalizeUrl`, which turns what the
    user typed into a server base address, and `joinPath`, which glues URL path
    pieces together. */
module Address {
  import opened Text

  const HttpsPrefix: string := "https://"

  /** `normalizeUrl`: the trimmed input; the empty string (meaning "no server
      set") when nothing but white space was typed; the input as it stands when
      it already carries an `http://` or `https://` scheme in any letter case;
      otherwise the input behind `https://`. */
  function NormalizeUrl(value: string): (r: string)
    ensures r == "" <==> Trim(value) == ""
    ensures r != "" ==> HasHttpScheme(r)
    ensures HasHttpScheme(Trim(value)) ==> r == Trim(value)
    ensures Trim(value) != "" && !HasHttpScheme(Trim(value)) ==> r == HttpsPrefix + Trim(value)
  {
    var trimmed := Trim(value);
    if trimmed == "" then ""
    else if HasHttpScheme(trimmed) then trimmed
    else
      PrefixedHasScheme(trimmed);
      HttpsPrefix + trimmed
  }

  /** Whatever follows it, `https://` passes the scheme test. */
  lemma PrefixedHasScheme(t: string)
    ensures HasHttpScheme(HttpsPrefix + t)
  {
    var s := HttpsPrefix + t;
    forall i | 0 <= i < |HttpsPrefix|
      ensures LowerAscii(s[i]) == HttpsPrefix[i]
    {
      assert s[i] == HttpsPrefix[i];
    }
    assert StartsWithIgnoringCase(s, "https://");
  }

  /** The address is unset exactly when the input is blank: empty or white space
      only. */
  lemma NormalizeUnsetIffBlank(value: string)
    ensures NormalizeUrl(value) == "" <==> AllSpace(value)
  {
    TrimEmptyIff(value);
  }

  /** Normalising a normalised address changes nothing. */
  lemma NormalizeIdempotent(value: string)
    ensures NormalizeUrl(NormalizeUrl(value)) == NormalizeUrl(value)
  {
    var t := Trim(value);
    var r := NormalizeUrl(value);
    if r != "" {
      if r != t {
        assert r == HttpsPrefix + t;
        assert r[|r| - 1] == t[|t| - 1];
      }
      TrimTrimmed(r);
    }
  }

  /** An address already typed with a scheme and without surrounding white space
      is used verbatim. */
  lemma NormalizeKeepsSchemedAddress(value: string)
    requires IsTrimmed(value) && HasHttpScheme(value)
    ensures NormalizeUrl(value) == value
  {
    TrimTrimmed(value);
  }

  /** Any address typed without a scheme is reached over `https://`. */
  lemma NormalizeAddsHttps(value: string)
    requires IsTrimmed(value) && value != "" && !HasHttpScheme(value)
    ensures NormalizeUrl(value) == HttpsPrefix + value
  {
    TrimTrimmed(value);
  }

  /** A bare host name gains `https://`. */
  lemma NormalizeBareHost()
    ensures NormalizeUrl("example.com") == "https://example.com"
  {
    BareHostFacts();
    NormalizeAddsHttps("example.com");
  }

  lemma BareHostFacts()
    ensures IsTrimmed("example.com") && !HasHttpScheme("example.com")
    ensures HttpsPrefix + "example.com" == "https://example.com"
  {
    assert LowerAscii("example.com"[0]) == 'e';
  }

  /** A fragment typed after a bare host is kept behind `https://`. */
  lemma NormalizeFragmentHost()
    ensures NormalizeUrl("example.com#x") == "https://example.com#x"
  {
    FragmentHostFacts();
    NormalizeAddsHttps("example.com#x");
  }

  lemma FragmentHostFacts()
    ensures IsTrimmed("example.com#x") && !HasHttpScheme("example.com#x")
    ensures HttpsPrefix + "example.com#x" == "https://example.com#x"
  {
    assert LowerAscii("example.com#x"[0]) == 'e';
  }

  /** An `https://` address is kept as typed. */
  lemma NormalizeHttpsHost()
    ensures NormalizeUrl("https://example.com") == "https://example.com"
    ensures !StartsWithIgnoringCase(NormalizeUrl("https://example.com"), "http://")
  {
    var b := "https://example.com";
    assert IsTrimmed(b);
    assert StartsWithIgnoringCase(b, "https://");
    assert LowerAscii(b[4]) != ':';
    NormalizeKeepsSchemedAddress(b);
  }

  /** An `http://` address is kept as typed. */
  lemma NormalizeHttpHost()
    ensures NormalizeUrl("http://example.com") == "http://example.com"
    ensures StartsWithIgnoringCase("http://example.com", "http://")
  {
    var c := "http://example.com";
    assert IsTrimmed(c);
    assert StartsWithIgnoringCase(c, "http://");
    NormalizeKeepsSchemedAddress(c);
  }

  /** The scheme test ignores letter case: `HTTP://example.com` is kept too. */
  lemma NormalizeUpperCaseScheme()
    ensures NormalizeUrl("HTTP://example.com") == "HTTP://example.com"
  {
    var c := "HTTP://example.com";
    assert IsTrimmed(c);
    assert StartsWithIgnoringCase(c, "http://");
    NormalizeKeepsSchemedAddress(c);
  }

  predicate EndsWithSlash(s: string) { s != [] && s[|s| - 1] == '/' }

  predicate StartsWithSlash(s: string) { s != [] && s[0] == '/' }

  /** `joinPath`: at most one trailing `/` is taken off the base, a `/` is put in
      front of the sub-path when it has none, and the two are concatenated; the
      `"/"` fallback for an empty concatenation is kept as written. */
  function JoinPath(basePath: string, subPath: string): (r: string)
    ensures r != ""
    ensures |r| > Seam(basePath) && r[Seam(basePath)] == '/'
  {
    var safeBase := if EndsWithSlash(basePath) then basePath[..|basePath| - 1] else basePath;
    var safeSub := if StartsWithSlash(subPath) then subPath else "/" + subPath;
    var joined := safeBase + safeSub;
    if joined == "" then "/" else joined
  }

  /** Where the base ends in the joined path: the base's length, less one when a
      trailing slash was dropped. */
  function Seam(basePath: string): (k: nat)
    ensures k <= |basePath| && |basePath| - k <= 1
  {
    if EndsWithSlash(basePath) then |basePath| - 1 else |basePath|
  }

  /** The joined path is the base up to the seam, one `/`, and the sub-path
      without its own leading `/`. */
  lemma JoinPathShape(basePath: string, subPath: string)
    ensures var r := JoinPath(basePath, subPath);
            var k := Seam(basePath);
            |r| > k && r[..k] == basePath[..k] && r[k] == '/'
            && r[k + 1..] == (if StartsWithSlash(subPath) then subPath[1..] else subPath)
  {
    var k := Seam(basePath);
    var r := JoinPath(basePath, subPath);
    assert r[..k] == basePath[..k];
  }

  /** When neither piece doubles the slash at its own edge, exactly one `/`
      separates the base from the sub-path. */
  lemma JoinPathSingleSlash(basePath: string, subPath: string)
    requires !(|basePath| >= 2 && basePath[|basePath| - 2..] == "//")
    requires !(|subPath| >= 2 && subPath[..2] == "//")
    ensures var r := JoinPath(basePath, subPath);
            var k := Seam(basePath);
            r[k] == '/' && (k == 0 || r[k - 1] != '/') && (k + 1 == |r| || r[k + 1] != '/')
  {
    var k := Seam(basePath);
    var r := JoinPath(basePath, subPath);
    JoinPathShape(basePath, subPath);
    if k > 0 {
      assert r[k - 1] == basePath[k - 1];
      if EndsWithSlash(basePath) {
        assert basePath[|basePath| - 2..] == [basePath[k - 1], '/'];
      }
    }
    if k + 1 < |r| && StartsWithSlash(subPath) {
      assert r[k + 1] == subPath[1];
      assert subPath[..2] == [subPath[0], subPath[1]];
    }
  }

  /** The joined path ends with the sub-path, slash-prefixed. */
  lemma JoinPathEndsWithSub(basePath: string, subPath: string)
    requires StartsWithSlash(subPath)
    ensures var r := JoinPath(basePath, subPath);
            |r| >= |subPath| && r[|r| - |subPath|..] == subPath
  {
    var r := JoinPath(basePath, subPath);
    var k := Seam(basePath);
    JoinPathShape(basePath, subPath);
    assert r[k..] == subPath;
  }

  /** The root path joined with `/api/chat` is `/api/chat`, not `//api/chat`. */
  lemma JoinPathRoot()
    ensures JoinPath("/", "/api/chat") == "/api/chat"
  {
    assert "/"[..0] == "";
  }
}
