/** The URL store grain: the normalisation `SetUrl` applies to its input, and
    the grain itself as an object holding one (token, URL) state cell and the
    copy of it last written to storage. */
module Grains {
  import opened Wrappers
  import opened Text

  const HttpPrefix := "http://"
  const HttpsPrefix := "https://"
  /** Scheme prefixes that web servers leave behind after collapsing "//". */
  const SanitizedPrefixPattern01 := "http/"
  const SanitizedPrefixPattern02 := "http:/"
  const SanitizedPrefixPattern03 := "https/"
  const SanitizedPrefixPattern04 := "https:/"

  datatype GrainError =
    | ArgumentError(message: string, paramName: string)   // ArgumentException
    | KeyNotFound(message: string)                         // KeyNotFoundException

  const NullOrEmptyUrl := ArgumentError("The URL is null or empty", "fullUrl")

  function KeyNotExist(grainKey: string): GrainError {
    KeyNotFound("Url key not exist: " + grainKey)
  }

  /** The `fullUrl switch` of `SetUrl`: arms tried in source order, first match wins. */
  function Normalize(fullUrl: Option<string>): Result<string, GrainError>
  {
    match fullUrl
    case None => Failure(NullOrEmptyUrl)
    case Some(url) =>
      var t := TrimStart(url);
      if StartsWith(t, HttpPrefix) || StartsWith(t, HttpsPrefix) then Success(TrimEnd(url))
      else if StartsWith(t, SanitizedPrefixPattern01) then
        Success(HttpPrefix + TrimEnd(t[|SanitizedPrefixPattern01|..]))
      else if StartsWith(t, SanitizedPrefixPattern02) then
        Success(HttpPrefix + TrimEnd(t[|SanitizedPrefixPattern02|..]))
      else if StartsWith(t, SanitizedPrefixPattern03) then
        Success(HttpsPrefix + TrimEnd(t[|SanitizedPrefixPattern03|..]))
      else if StartsWith(t, SanitizedPrefixPattern04) then
        Success(HttpsPrefix + TrimEnd(t[|SanitizedPrefixPattern04|..]))
      else if Trim(url) != [] then Success(HttpPrefix + Trim(url))
      else Failure(NullOrEmptyUrl)
  }

  /** What a stored URL looks like: non-empty, an http or https scheme once
      leading white space is skipped, and no trailing white space. */
  predicate IsNormalizedUrl(u: string) {
    && u != []
    && (StartsWith(TrimStart(u), HttpPrefix) || StartsWith(TrimStart(u), HttpsPrefix))
    && !IsWhiteSpace(u[|u| - 1])
  }

  /** Only null and blank input is rejected, and always with the same argument error. */
  lemma NormalizeFailsExactlyOnBlank(fullUrl: Option<string>)
    ensures Normalize(fullUrl).Failure? <==> fullUrl.None? || AllWhiteSpace(fullUrl.value)
    ensures Normalize(fullUrl).Failure? ==> Normalize(fullUrl).error == NullOrEmptyUrl
  {
  }

  /** Input already carrying a scheme is kept up to its trailing white space;
      leading white space stays in place. */
  lemma NormalizeKeepsSchemedUrl(url: string)
    requires StartsWith(TrimStart(url), HttpPrefix) || StartsWith(TrimStart(url), HttpsPrefix)
    ensures Normalize(Some(url)) == Success(TrimEnd(url))
    ensures TrimEnd(url) == url[..|url| - |TrimStart(url)|] + TrimEnd(TrimStart(url))
  {
    assert Normalize(Some(url)) == Success(TrimEnd(url));
    TrimEndKeepsLeadingWhiteSpace(url);
  }

  /** A scheme-stripped prefix is replaced by the scheme it stands for. */
  lemma NormalizeRepairsSanitizedPrefix(url: string)
    requires !StartsWith(TrimStart(url), HttpPrefix) && !StartsWith(TrimStart(url), HttpsPrefix)
    ensures StartsWith(TrimStart(url), SanitizedPrefixPattern01) ==>
      Normalize(Some(url)) == Success(HttpPrefix + TrimEnd(TrimStart(url)[5..]))
    ensures StartsWith(TrimStart(url), SanitizedPrefixPattern02) ==>
      Normalize(Some(url)) == Success(HttpPrefix + TrimEnd(TrimStart(url)[6..]))
    ensures StartsWith(TrimStart(url), SanitizedPrefixPattern03) ==>
      Normalize(Some(url)) == Success(HttpsPrefix + TrimEnd(TrimStart(url)[6..]))
    ensures StartsWith(TrimStart(url), SanitizedPrefixPattern04) ==>
      Normalize(Some(url)) == Success(HttpsPrefix + TrimEnd(TrimStart(url)[7..]))
  {
    SanitizedPrefixesExclusive(TrimStart(url));
  }

  /** The four scheme-stripped prefixes exclude one another, so no arm can
      capture another arm's input. */
  lemma SanitizedPrefixesExclusive(t: string)
    ensures StartsWith(t, SanitizedPrefixPattern01) ==>
      !StartsWith(t, SanitizedPrefixPattern02) && !StartsWith(t, SanitizedPrefixPattern03)
      && !StartsWith(t, SanitizedPrefixPattern04)
    ensures StartsWith(t, SanitizedPrefixPattern02) ==>
      !StartsWith(t, SanitizedPrefixPattern03) && !StartsWith(t, SanitizedPrefixPattern04)
    ensures StartsWith(t, SanitizedPrefixPattern03) ==> !StartsWith(t, SanitizedPrefixPattern04)
  {
    if StartsWith(t, SanitizedPrefixPattern01) { assert t[4] == '/'; }
    if StartsWith(t, SanitizedPrefixPattern02) { assert t[4] == ':'; }
    if StartsWith(t, SanitizedPrefixPattern03) { assert t[5] == '/'; }
  }

  /** The same switch with the https variants tried before the http ones,
      longest prefix first. */
  function NormalizeLongestPrefixFirst(fullUrl: Option<string>): Result<string, GrainError>
  {
    match fullUrl
    case None => Failure(NullOrEmptyUrl)
    case Some(url) =>
      var t := TrimStart(url);
      if StartsWith(t, HttpPrefix) || StartsWith(t, HttpsPrefix) then Success(TrimEnd(url))
      else if StartsWith(t, SanitizedPrefixPattern04) then
        Success(HttpsPrefix + TrimEnd(t[|SanitizedPrefixPattern04|..]))
      else if StartsWith(t, SanitizedPrefixPattern03) then
        Success(HttpsPrefix + TrimEnd(t[|SanitizedPrefixPattern03|..]))
      else if StartsWith(t, SanitizedPrefixPattern02) then
        Success(HttpPrefix + TrimEnd(t[|SanitizedPrefixPattern02|..]))
      else if StartsWith(t, SanitizedPrefixPattern01) then
        Success(HttpPrefix + TrimEnd(t[|SanitizedPrefixPattern01|..]))
      else if Trim(url) != [] then Success(HttpPrefix + Trim(url))
      else Failure(NullOrEmptyUrl)
  }

  /** The order of the scheme-stripped arms does not affect the result. */
  lemma ArmOrderIrrelevant(fullUrl: Option<string>)
    ensures Normalize(fullUrl) == NormalizeLongestPrefixFirst(fullUrl)
  {
    if fullUrl.Some? {
      SanitizedPrefixesExclusive(TrimStart(fullUrl.value));
    }
  }

  /** Input with no recognisable scheme gets "http://" in front of its trimmed form. */
  lemma NormalizeDefaultsToHttp(url: string)
    requires !StartsWith(TrimStart(url), HttpPrefix) && !StartsWith(TrimStart(url), HttpsPrefix)
    requires !StartsWith(TrimStart(url), SanitizedPrefixPattern01)
    requires !StartsWith(TrimStart(url), SanitizedPrefixPattern02)
    requires !StartsWith(TrimStart(url), SanitizedPrefixPattern03)
    requires !StartsWith(TrimStart(url), SanitizedPrefixPattern04)
    requires Trim(url) != []
    ensures Normalize(Some(url)) == Success(HttpPrefix + Trim(url))
  {
  }

  /** A scheme followed by text that does not end in white space is in the stored form. */
  lemma SchemeThenTrimmed(scheme: string, x: string)
    requires scheme == HttpPrefix || scheme == HttpsPrefix
    requires x == [] || !IsWhiteSpace(x[|x| - 1])
    ensures IsNormalizedUrl(scheme + x)
  {
    PrefixThenTrimmed(scheme, x);
  }

  /** Every accepted URL has the stored form. */
  lemma NormalizeResultIsNormalized(fullUrl: Option<string>)
    requires Normalize(fullUrl).Success?
    ensures IsNormalizedUrl(Normalize(fullUrl).value)
  {
    var url := fullUrl.value;
    var t := TrimStart(url);
    if StartsWith(t, HttpPrefix) || StartsWith(t, HttpsPrefix) {
      SchemedArmIsNormalized(url);
    } else {
      SanitizedArmsAreNormalized(url);
    }
  }

  lemma SchemedArmIsNormalized(url: string)
    requires StartsWith(TrimStart(url), HttpPrefix) || StartsWith(TrimStart(url), HttpsPrefix)
    ensures IsNormalizedUrl(Normalize(Some(url)).value)
  {
    SchemedTrimIsNormalized(url);
    NormalizeKeepsSchemedUrl(url);
  }

  /** Right-trimming a URL that carries a scheme gives the stored form. */
  lemma SchemedTrimIsNormalized(url: string)
    requires StartsWith(TrimStart(url), HttpPrefix) || StartsWith(TrimStart(url), HttpsPrefix)
    ensures IsNormalizedUrl(TrimEnd(url))
  {
    if StartsWith(TrimStart(url), HttpPrefix) {
      TrimEndKeepsTrimmedPrefix(url, HttpPrefix);
    } else {
      TrimEndKeepsTrimmedPrefix(url, HttpsPrefix);
    }
  }

  lemma SanitizedArmsAreNormalized(url: string)
    requires !StartsWith(TrimStart(url), HttpPrefix) && !StartsWith(TrimStart(url), HttpsPrefix)
    requires Normalize(Some(url)).Success?
    ensures IsNormalizedUrl(Normalize(Some(url)).value)
  {
    var t := TrimStart(url);
    if StartsWith(t, SanitizedPrefixPattern01) || StartsWith(t, SanitizedPrefixPattern02)
       || StartsWith(t, SanitizedPrefixPattern03) || StartsWith(t, SanitizedPrefixPattern04) {
      RepairArmsAreNormalized(url);
    } else {
      assert Trim(url) != [];
      NormalizeDefaultsToHttp(url);
      SchemeThenTrimmed(HttpPrefix, Trim(url));
    }
  }

  lemma RepairArmsAreNormalized(url: string)
    requires !StartsWith(TrimStart(url), HttpPrefix) && !StartsWith(TrimStart(url), HttpsPrefix)
    requires StartsWith(TrimStart(url), SanitizedPrefixPattern01) || StartsWith(TrimStart(url), SanitizedPrefixPattern02)
          || StartsWith(TrimStart(url), SanitizedPrefixPattern03) || StartsWith(TrimStart(url), SanitizedPrefixPattern04)
    ensures IsNormalizedUrl(Normalize(Some(url)).value)
  {
    var t := TrimStart(url);
    NormalizeRepairsSanitizedPrefix(url);
    if StartsWith(t, SanitizedPrefixPattern01) {
      RepairedFormIsNormalized(url, HttpPrefix, 5);
    } else if StartsWith(t, SanitizedPrefixPattern02) {
      RepairedFormIsNormalized(url, HttpPrefix, 6);
    } else if StartsWith(t, SanitizedPrefixPattern03) {
      RepairedFormIsNormalized(url, HttpsPrefix, 6);
    } else {
      RepairedFormIsNormalized(url, HttpsPrefix, 7);
    }
  }

  /** A repair arm's result, a scheme before the right-trimmed rest, has the stored form. */
  lemma RepairedFormIsNormalized(url: string, scheme: string, n: nat)
    requires scheme == HttpPrefix || scheme == HttpsPrefix
    requires n <= |TrimStart(url)|
    requires Normalize(Some(url)) == Success(scheme + TrimEnd(TrimStart(url)[n..]))
    ensures IsNormalizedUrl(Normalize(Some(url)).value)
  {
    SchemeThenTrimmed(scheme, TrimEnd(TrimStart(url)[n..]));
  }

  /** A URL in the stored form is a fixed point of `Normalize`. */
  lemma StoredFormIsFixedPoint(u: string)
    requires IsNormalizedUrl(u)
    ensures Normalize(Some(u)) == Success(u)
  {
    NormalizeKeepsSchemedUrl(u);
  }

  /** Normalising an accepted URL again returns it unchanged. */
  lemma NormalizeIdempotent(fullUrl: Option<string>)
    requires Normalize(fullUrl).Success?
    ensures Normalize(Some(Normalize(fullUrl).value)) == Normalize(fullUrl)
  {
    NormalizeResultIsNormalized(fullUrl);
    StoredFormIsFixedPoint(Normalize(fullUrl).value);
  }

  /** What `TrimStart` and the prefix tests see in `prefix + rest`, for a
      scheme-stripped prefix followed by text that does not start with '/'. */
  lemma ColonSlashPrefixFacts(prefix: string, rest: string)
    requires prefix == SanitizedPrefixPattern02 || prefix == SanitizedPrefixPattern04
    requires rest == [] || rest[0] != '/'
    ensures var t := prefix + rest;
      && TrimStart(t) == t && t[|prefix|..] == rest
      && !StartsWith(t, HttpPrefix) && !StartsWith(t, HttpsPrefix)
      && StartsWith(t, prefix)
  {
    var t := prefix + rest;
    assert t[..|prefix|] == prefix;
    assert t[|prefix|..] == rest;
    assert t[0] == 'h';
    TrimStartOfNonWhite(t);
    if prefix == SanitizedPrefixPattern02 {
      assert t[4] == prefix[4] == ':';
      MismatchNotPrefix(t, HttpsPrefix, 4);
      assert |t| == 6 || t[6] == rest[0];
      MismatchNotPrefix(t, HttpPrefix, 6);
    } else {
      assert prefix == SanitizedPrefixPattern04;
      assert t[4] == prefix[4] == 's';
      MismatchNotPrefix(t, HttpPrefix, 4);
      assert |t| == 7 || t[7] == rest[0];
      MismatchNotPrefix(t, HttpsPrefix, 7);
    }
  }

  /** "https:/" is repaired to "https://", never captured by the shorter
      "http:/" arm; the rest must not start with '/', which would make the
      input a proper https URL. */
  lemma HttpsColonSlashRepaired(rest: string)
    requires rest == [] || rest[0] != '/'
    ensures Normalize(Some(SanitizedPrefixPattern04 + rest)) == Success(HttpsPrefix + TrimEnd(rest))
  {
    ColonSlashPrefixFacts(SanitizedPrefixPattern04, rest);
    NormalizeRepairsSanitizedPrefix(SanitizedPrefixPattern04 + rest);
  }

  /** "http:/" is repaired to "http://". */
  lemma HttpColonSlashRepaired(rest: string)
    requires rest == [] || rest[0] != '/'
    ensures Normalize(Some(SanitizedPrefixPattern02 + rest)) == Success(HttpPrefix + TrimEnd(rest))
  {
    ColonSlashPrefixFacts(SanitizedPrefixPattern02, rest);
    NormalizeRepairsSanitizedPrefix(SanitizedPrefixPattern02 + rest);
  }

  /** "https:/a.com" is stored as "https://a.com". */
  lemma HttpsColonSlashExample(u: string)
    requires u == "https:/a.com"
    ensures Normalize(Some(u)) == Success("https://a.com")
  {
    var rest := u[7..];
    assert u == SanitizedPrefixPattern04 + rest && (rest == [] || rest[0] != '/');
    assert HttpsPrefix + TrimEnd(rest) == "https://a.com" by { TrimEndOfNonWhite(rest); }
    HttpsColonSlashRepaired(rest);
  }

  /** "http:/a.com" is stored as "http://a.com". */
  lemma HttpColonSlashExample(u: string)
    requires u == "http:/a.com"
    ensures Normalize(Some(u)) == Success("http://a.com")
  {
    var rest := u[6..];
    assert u == SanitizedPrefixPattern02 + rest && (rest == [] || rest[0] != '/');
    assert HttpPrefix + TrimEnd(rest) == "http://a.com" by { TrimEndOfNonWhite(rest); }
    HttpColonSlashRepaired(rest);
  }

  /** "a.com", with no scheme at all, is stored as "http://a.com". */
  lemma NoSchemeExample(u: string)
    requires u == "a.com"
    ensures Normalize(Some(u)) == Success("http://a.com")
  {
    TrimsLeaveAlone(u);
    MismatchNotPrefix(u, HttpPrefix, 0);
    MismatchNotPrefix(u, HttpsPrefix, 0);
    MismatchNotPrefix(u, SanitizedPrefixPattern01, 0);
    MismatchNotPrefix(u, SanitizedPrefixPattern02, 0);
    MismatchNotPrefix(u, SanitizedPrefixPattern03, 0);
    MismatchNotPrefix(u, SanitizedPrefixPattern04, 0);
    NormalizeDefaultsToHttp(u);
    assert HttpPrefix + u == "http://a.com";
  }

  /** The URL the grain test stores is kept as it is. */
  lemma SchemedUrlExample(u: string)
    requires u == "https://www.google.com"
    ensures Normalize(Some(u)) == Success("https://www.google.com")
  {
    var host := u[8..];
    assert u == HttpsPrefix + host;
    SchemeThenTrimmed(HttpsPrefix, host);
    StoredFormIsFixedPoint(HttpsPrefix + host);
  }

  /** The grain state `KeyValuePair<string, string>`; the default pair holds two nulls. */
  datatype KeyValuePair = KeyValuePair(key: Option<string>, value: Option<string>)

  const DefaultState := KeyValuePair(None, None)

  /** The state `SetUrl` leaves: the new pair on success, the old state when the
      argument is rejected. */
  function StateAfterSetUrl(state: KeyValuePair, segment: string, fullUrl: Option<string>): KeyValuePair
  {
    match Normalize(fullUrl)
    case Success(url) => KeyValuePair(Some(segment), Some(url))
    case Failure(_) => state
  }

  /** What `GetUrl` answers in a given state. */
  function UrlIn(state: KeyValuePair, grainKey: string): Result<string, GrainError>
  {
    if IsNullOrEmpty(state.value) then Failure(KeyNotExist(grainKey)) else Success(state.value.value)
  }

  /** The states a grain can be in: never written, or holding a normalized URL. */
  predicate WellFormedState(state: KeyValuePair) {
    state == DefaultState || (state.key.Some? && state.value.Some? && IsNormalizedUrl(state.value.value))
  }

  /** `SetUrl` keeps the state well formed, whatever its argument. */
  lemma SetUrlKeepsStateWellFormed(state: KeyValuePair, segment: string, fullUrl: Option<string>)
    requires WellFormedState(state)
    ensures WellFormedState(StateAfterSetUrl(state, segment, fullUrl))
  {
    if Normalize(fullUrl).Success? {
      NormalizeResultIsNormalized(fullUrl);
    }
  }

  /** After a successful `SetUrl`, `GetUrl` returns the normalized URL. */
  lemma GetAfterSet(state: KeyValuePair, segment: string, fullUrl: Option<string>, grainKey: string)
    requires Normalize(fullUrl).Success?
    ensures UrlIn(StateAfterSetUrl(state, segment, fullUrl), grainKey) == Normalize(fullUrl)
  {
    NormalizeResultIsNormalized(fullUrl);
  }

  /** A rejected `SetUrl` leaves the state as it was. */
  lemma RejectedSetKeepsState(state: KeyValuePair, segment: string, fullUrl: Option<string>)
    requires fullUrl.None? || AllWhiteSpace(fullUrl.value)
    ensures StateAfterSetUrl(state, segment, fullUrl) == state
  {
    NormalizeFailsExactlyOnBlank(fullUrl);
  }

  /** Last write wins: a successful `SetUrl` erases whatever the state held before. */
  lemma LastWriteWins(state: KeyValuePair, segment1: string, url1: Option<string>,
                      segment2: string, url2: Option<string>)
    requires Normalize(url2).Success?
    ensures StateAfterSetUrl(StateAfterSetUrl(state, segment1, url1), segment2, url2)
         == StateAfterSetUrl(DefaultState, segment2, url2)
  {
  }

  /** In a well-formed state `GetUrl` fails exactly when nothing was ever stored. */
  lemma GetFailsOnlyWhenNeverWritten(state: KeyValuePair, grainKey: string)
    requires WellFormedState(state)
    ensures UrlIn(state, grainKey).Failure? <==> state == DefaultState
    ensures UrlIn(state, grainKey).Failure? ==> UrlIn(state, grainKey).error == KeyNotExist(grainKey)
  {
  }

  /** One activation of the grain for the key `grainKey`: the in-memory state
      (`_cache.State`) and the copy last written to storage. */
  class UrlStoreGrain {
    const grainKey: string
    var state: KeyValuePair
    var persisted: KeyValuePair

    /** Every write is persisted before `SetUrl` returns, and the state only
        ever holds a normalized URL. */
    ghost predicate Valid()
      reads this
    {
      persisted == state && WellFormedState(state)
    }

    /** A fresh activation with nothing stored under its key. */
    constructor(grainKey: string)
      ensures Valid()
      ensures this.grainKey == grainKey && state == DefaultState
    {
      this.grainKey := grainKey;
      state := DefaultState;
      persisted := DefaultState;
    }

    /** `SetUrl(shortenedRouteSegment, fullUrl)`: normalize, overwrite the state,
        write it to storage. A rejected URL changes nothing. */
    method SetUrl(shortenedRouteSegment: string, fullUrl: Option<string>)
      returns (r: Result<(), GrainError>)
      requires Valid()
      modifies this
      ensures Valid()
      ensures state == StateAfterSetUrl(old(state), shortenedRouteSegment, fullUrl)
      ensures r.Failure? <==> Normalize(fullUrl).Failure?
      ensures r.Failure? ==> r.error == NullOrEmptyUrl && unchanged(this)
    {
      SetUrlKeepsStateWellFormed(state, shortenedRouteSegment, fullUrl);
      match Normalize(fullUrl) {
        case Failure(e) =>
          r := Failure(e);
        case Success(url) =>
          state := KeyValuePair(Some(shortenedRouteSegment), Some(url));
          WriteState();
          r := Success(());
      }
    }

    /** `WriteStateAsync`: the persisted copy becomes the current state. */
    method WriteState()
      modifies this`persisted
      ensures persisted == state
    {
      persisted := state;
    }

    /** `GetUrl()`: the stored URL, or `KeyNotFoundException` naming the key. */
    method GetUrl() returns (r: Result<string, GrainError>)
      ensures r == UrlIn(state, grainKey)
      ensures r.Success? <==> state.value.Some? && state.value.value != []
      ensures r.Failure? ==> r.error == KeyNotFound("Url key not exist: " + grainKey)
    {
      var originalUrl := state.value;
      if originalUrl.None? || originalUrl.value == [] {
        return Failure(KeyNotExist(grainKey));
      }
      return Success(state.value.value);
    }
  }

  /** The first grain test, for any key and URL: a stored URL reads back in
      its normalized form; a rejected one surfaces the argument error from
      `SetUrl` and `GetUrl` is never reached. */
  method StoreThenFetch(grainKey: string, fullUrl: Option<string>) returns (got: Result<string, GrainError>)
    ensures got == Normalize(fullUrl)
    ensures got.Failure? ==> got.error == NullOrEmptyUrl
  {
    var grain := new UrlStoreGrain(grainKey);
    var stored := grain.SetUrl(grainKey, fullUrl);
    if stored.Failure? {
      return Failure(stored.error);
    }
    GetAfterSet(DefaultState, grainKey, fullUrl, grainKey);
    got := grain.GetUrl();
  }

  /** The second grain test, for any key: a key never written answers with
      the key-not-found message naming it. */
  method FetchNeverWritten(grainKey: string) returns (got: Result<string, GrainError>)
    ensures got.Failure? && got.error == KeyNotFound("Url key not exist: " + grainKey)
  {
    var grain := new UrlStoreGrain(grainKey);
    got := grain.GetUrl();
  }
}
