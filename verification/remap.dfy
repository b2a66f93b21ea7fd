/** The path-remapping decision of the interception shim: a path under the
    configured prefix is redirected to `$HOME` followed by the whole original
    path (the prefix is kept), written into a fixed-capacity buffer; every other
    path, and a NULL path, is handed on untouched.

    The environment is an explicit parameter: `home` is the value of `getenv("HOME")`,
    `None` when the variable is unset. `size` is the capacity of the caller's
    buffer (`PATH_MAX` in every wrapper). */
module Remap {
  import opened Options
  import opened CStrings

  /** The build-time prefix whose subtree is redirected. */
  const SrcPrefix: CString := "/opt/sslvpnclient"

  /** `PATH_MAX` on Linux, the buffer capacity every wrapper passes; used by the
      worked scenarios only, the operations take the capacity as a parameter. */
  const LinuxPathMax: nat := 4096

  /** The remapper's test, as written: `strncmp(path, SRC_PREFIX, strlen(SRC_PREFIX)) == 0`. */
  predicate Matches(path: CString) {
    StrNCmp(path, SrcPrefix, |SrcPrefix|) == 0
  }

  /** The test is an exact, case-sensitive leading comparison over the prefix's
      full length: it holds exactly when the path begins with the prefix. */
  lemma MatchesIffPrefix(path: CString)
    ensures Matches(path) <==> SrcPrefix <= path
  {
    StrNCmpZeroIffPrefix(path, SrcPrefix, |SrcPrefix|);
    assert SrcPrefix[..|SrcPrefix|] == SrcPrefix;
  }

  /** The home directory as the remapper uses it: an unset `HOME` counts as "". */
  function HomeOrEmpty(home: Option<CString>): CString
  {
    home.GetOr("")
  }

  /** `remap_path(path, buf, size)`, giving the string the returned pointer
      designates (`None` for a NULL result). A NULL path comes back NULL whatever
      the environment, and only a NULL path does. */
  function RemapPath(path: Option<CString>, home: Option<CString>, size: nat): (r: Option<CString>)
    requires size > 0
    ensures r.None? <==> path.None?
  {
    match path
    case None => None
    case Some(p) =>
      if Matches(p) then Some(Snprintf(HomeOrEmpty(home) + p, size))
      else path
  }

  /** A path that does not begin with the prefix comes back byte for byte,
      whatever `HOME` holds and whatever the capacity. */
  lemma RemapOffPrefix(p: CString, home: Option<CString>, size: nat)
    requires size > 0
    requires !(SrcPrefix <= p)
    ensures RemapPath(Some(p), home, size) == Some(p)
  {
    MatchesIffPrefix(p);
  }

  /** A path under the prefix, when `home ++ path` fits in `size - 1` bytes, comes
      back as exactly `home ++ path`: the prefix is not stripped, so the result
      ends with the whole original path. */
  lemma RemapOnPrefix(p: CString, home: Option<CString>, size: nat)
    requires size > 0
    requires SrcPrefix <= p
    requires |HomeOrEmpty(home)| + |p| < size
    ensures RemapPath(Some(p), home, size) == Some(HomeOrEmpty(home) + p)
    ensures var r := RemapPath(Some(p), home, size).value;
            r[|r| - |p|..] == p && SrcPrefix <= r[|r| - |p|..]
  {
    MatchesIffPrefix(p);
    var r := HomeOrEmpty(home) + p;
    assert r[|r| - |p|..] == p;
  }

  /** With `HOME` unset a path under the prefix is rewritten into the buffer but
      its contents are unchanged, and unset behaves exactly as `HOME=""`. */
  lemma RemapHomeUnset(p: CString, size: nat)
    requires size > 0
    requires SrcPrefix <= p
    requires |p| < size
    ensures RemapPath(Some(p), None, size) == Some(p)
    ensures RemapPath(Some(p), None, size) == RemapPath(Some(p), Some(""), size)
  {
    MatchesIffPrefix(p);
    assert HomeOrEmpty(None) + p == p;
  }

  /** An unset `HOME` and `HOME=""` give the same result for every path, NULL
      included, and every capacity. */
  lemma RemapHomeUnsetIsEmpty(path: Option<CString>, size: nat)
    requires size > 0
    ensures RemapPath(path, None, size) == RemapPath(path, Some(""), size)
  {
  }

  /** Under the prefix the result never exceeds `size - 1` bytes and is always a
      leading part of `home ++ path`; when the concatenation does not fit it is
      cut at exactly `size - 1` bytes, with no error. */
  lemma RemapTruncates(p: CString, home: Option<CString>, size: nat)
    requires size > 0
    requires SrcPrefix <= p
    ensures var r := RemapPath(Some(p), home, size);
            && r.Some?
            && |r.value| <= size - 1
            && r.value <= HomeOrEmpty(home) + p
            && (|HomeOrEmpty(home)| + |p| >= size ==> |r.value| == size - 1)
  {
    MatchesIffPrefix(p);
  }

  /** Every outcome for a non-NULL path: either the path itself (off the prefix) or
      a leading part of `home ++ path` that is as long as the capacity allows. */
  lemma RemapCases(p: CString, home: Option<CString>, size: nat)
    requires size > 0
    ensures var r := RemapPath(Some(p), home, size).value;
            var full := HomeOrEmpty(home) + p;
            if SrcPrefix <= p then r <= full && |r| == if |full| < size then |full| else size - 1
            else r == p
  {
    MatchesIffPrefix(p);
  }

  /** A path shorter than the prefix never matches. */
  lemma ShortPathNoMatch(p: CString)
    requires |p| < |SrcPrefix|
    ensures !Matches(p)
  {
    MatchesIffPrefix(p);
  }

  /** A path that differs from the prefix in any one of the prefix's bytes
      never matches; there is no case folding. */
  lemma DifferingByteNoMatch(p: CString, i: nat)
    requires i < |SrcPrefix| && i < |p|
    requires p[i] != SrcPrefix[i]
    ensures !Matches(p)
  {
    MatchesIffPrefix(p);
  }

  // The worked examples below take their strings as parameters pinned by
  // `requires`: stated on literals, Dafny evaluates `strncmp` on them step by
  // step and the proofs become far more expensive.

  /** The comparison is case-sensitive: an upper-cased prefix is not remapped. */
  lemma UpperCaseNotRemapped(p: CString, home: Option<CString>)
    requires p == "/OPT/sslvpnclient/config.db"
    ensures RemapPath(Some(p), home, LinuxPathMax) == Some(p)
  {
    DifferingByteNoMatch(p, 1);
  }

  /** There is no separator check after the prefix: a sibling directory whose
      name merely starts with the prefix (`/opt/sslvpnclient2/x`) is redirected too. */
  lemma SiblingDirectoryRemapped(p: CString, home: CString)
    requires p == SrcPrefix + "2/x" && home == "/home/alice"
    ensures RemapPath(Some(p), Some(home), LinuxPathMax) == Some(home + p)
  {
    RemapOnPrefix(p, Some(home), LinuxPathMax);
  }

  /** `/opt/sslvpnclient/config.db` with `HOME=/home/alice` becomes
      `/home/alice/opt/sslvpnclient/config.db`. */
  lemma RemapExample(p: CString, home: CString)
    requires p == SrcPrefix + "/config.db" && home == "/home/alice"
    ensures RemapPath(Some(p), Some(home), LinuxPathMax) == Some(home + p)
  {
    RemapOnPrefix(p, Some(home), LinuxPathMax);
  }

  /** Remapping a second time changes nothing when the first result is no longer
      under the prefix; in particular off-prefix paths are fixed points. */
  lemma RemapTwiceStable(p: CString, home: Option<CString>, size: nat)
    requires size > 0
    requires !(SrcPrefix <= RemapPath(Some(p), home, size).value)
    ensures RemapPath(RemapPath(Some(p), home, size), home, size) == RemapPath(Some(p), home, size)
  {
    RemapOffPrefix(RemapPath(Some(p), home, size).value, home, size);
  }

  /** Remapping is not idempotent: when `HOME` itself lies under the prefix (so
      is non-empty) and `home ++ home ++ path` fits in `size - 1` bytes, a second
      pass prepends `HOME` again. */
  lemma RemapTwiceGrows(p: CString, home: CString, size: nat)
    requires size > 0
    requires SrcPrefix <= p && SrcPrefix <= home
    requires 2 * |home| + |p| < size
    ensures RemapPath(Some(p), Some(home), size) == Some(home + p)
    ensures RemapPath(RemapPath(Some(p), Some(home), size), Some(home), size) == Some(home + home + p)
    ensures RemapPath(RemapPath(Some(p), Some(home), size), Some(home), size) != RemapPath(Some(p), Some(home), size)
  {
    RemapOnPrefix(p, Some(home), size);
    assert (home + p)[..|SrcPrefix|] == home[..|SrcPrefix|];
    RemapOnPrefix(home + p, Some(home), size);
    assert home + (home + p) == home + home + p;
    assert |home + home + p| != |home + p|;
  }

  /** A concrete non-idempotent run: `/opt/sslvpnclient/x` with
      `HOME=/opt/sslvpnclient/u`. */
  lemma RemapNotIdempotent(p: CString, home: CString)
    requires p == SrcPrefix + "/x" && home == SrcPrefix + "/u"
    ensures RemapPath(RemapPath(Some(p), Some(home), LinuxPathMax), Some(home), LinuxPathMax)
         != RemapPath(Some(p), Some(home), LinuxPathMax)
  {
    RemapTwiceGrows(p, home, LinuxPathMax);
  }
}
