/**
 * Configuration of the bot (settings.rs): the settings records, the
 * HTTP client every Komga request goes through (default headers Accept
 * and Basic Authorization), the Komga API configuration built from the
 * same settings, and the order in which configuration sources are layered.
 */
module Settings {
  import opened Wrappers
  import Utf8
  import Base64

  datatype KomgaSettings = KomgaSettings(
    url: string,
    username: string,
    password: string,
    publicUrl: Option<string>,
    libraries: Option<seq<string>>)

  datatype DiscordSettings = DiscordSettings(token: string)

  datatype NewslettersSettings = NewslettersSettings(
    enabled: bool,
    templatesDir: string,
    contentDir: string,
    url: string,
    channel: string,
    schedule: Option<string>)

  datatype StatsSettings = StatsSettings(enabled: bool, category: string, schedule: string)

  datatype Config = Config(
    discord: DiscordSettings,
    komga: KomgaSettings,
    newsletters: NewslettersSettings,
    stats: StatsSettings)

  // ---------------------------------------------------------------------
  // The Basic Authorization header (section 2 of RFC 7617)
  // ---------------------------------------------------------------------

  const BASIC_SCHEME: string := "Basic "

  /** The user-pass of RFC 7617: user-id, a colon, the password. */
  function Credentials(k: KomgaSettings): string {
    k.username + ":" + k.password
  }

  /**
   * The Authorization value: the scheme, a space, and the padded standard Base64
   * (section 4 of RFC 4648) of the UTF-8 bytes of the user-pass.
   */
  function BasicAuthHeader(k: KomgaSettings): (h: string)
    ensures |BASIC_SCHEME| <= |h| && h[..|BASIC_SCHEME|] == BASIC_SCHEME
    ensures forall i :: |BASIC_SCHEME| <= i < |h| ==> Base64.IsEncodedChar(h[i])
  {
    Base64.EncodeAlphabet(Utf8.Encode(Credentials(k)));
    BASIC_SCHEME + Base64.Encode(Utf8.Encode(Credentials(k)))
  }

  /**
   * After the scheme comes exactly the encoding of the credentials: 4 * ceil(n / 3)
   * characters for n bytes of user-pass, which decode to the username's bytes, a colon
   * and the password's bytes.
   */
  lemma BasicAuthHeaderEncodesCredentials(k: KomgaSettings)
    ensures |BasicAuthHeader(k)| == |BASIC_SCHEME| + 4 * ((|Utf8.Encode(Credentials(k))| + 2) / 3)
    ensures Base64.Decode(BasicAuthHeader(k)[|BASIC_SCHEME|..]) ==
            Some(Utf8.Encode(k.username) + [':' as int] + Utf8.Encode(k.password))
  {
    var bytes := Utf8.Encode(Credentials(k));
    HeaderSuffix(k);
    Base64.DecodeEncode(bytes);
    CredentialBytes(k);
  }

  /** Two headers are equal only when the user-pass bytes behind them are. */
  lemma BasicAuthHeaderDeterminesCredentials(a: KomgaSettings, b: KomgaSettings)
    requires BasicAuthHeader(a) == BasicAuthHeader(b)
    ensures Utf8.Encode(Credentials(a)) == Utf8.Encode(Credentials(b))
  {
    HeaderSuffix(a);
    HeaderSuffix(b);
    Base64.EncodeInjective(Utf8.Encode(Credentials(a)), Utf8.Encode(Credentials(b)));
  }

  /**
   * The user-pass is not escaped, so a colon in the username can move into the
   * password without changing the header: "a:b" with "c" and "a" with "b:c" send
   * the same credentials. Section 2 of RFC 7617 rules out a colon in the user-id.
   */
  lemma ColonInUsernameIsAmbiguous(url: string, publicUrl: Option<string>, libraries: Option<seq<string>>)
    ensures var a := KomgaSettings(url, "a:b", "c", publicUrl, libraries);
            var b := KomgaSettings(url, "a", "b:c", publicUrl, libraries);
            a != b && BasicAuthHeader(a) == BasicAuthHeader(b)
  {
    var a := KomgaSettings(url, "a:b", "c", publicUrl, libraries);
    var b := KomgaSettings(url, "a", "b:c", publicUrl, libraries);
    assert Credentials(a) == Credentials(b);
  }

  /** The header less its scheme is the encoding of the user-pass bytes. */
  lemma HeaderSuffix(k: KomgaSettings)
    ensures BasicAuthHeader(k)[|BASIC_SCHEME|..] == Base64.Encode(Utf8.Encode(Credentials(k)))
  {
  }

  /** The user-pass bytes are the username's bytes, a colon, and the password's bytes. */
  lemma CredentialBytes(k: KomgaSettings)
    ensures Utf8.Encode(Credentials(k)) == Utf8.Encode(k.username) + [':' as int] + Utf8.Encode(k.password)
  {
    var user, pass := k.username, k.password;
    var colon: string := [':'];
    assert Credentials(k) == user + (colon + pass);
    assert Utf8.Encode(colon) == [':' as int] by {
      assert colon[1..] == [];
    }
    Utf8.EncodeAppend(colon, pass);
    Utf8.EncodeAppend(user, colon + pass);
  }

  // ---------------------------------------------------------------------
  // Header values, as the `http` crate checks them
  // ---------------------------------------------------------------------

  /** `HeaderValue::from_str` accepts a tab and every byte from 32 up, except DEL (127). */
  predicate IsValidHeaderByte(b: Utf8.Byte) {
    b == 9 || (32 <= b && b != 127)
  }

  /** `HeaderValue::from_static` accepts only a tab and visible ASCII (32 to 126). */
  predicate IsVisibleAscii(s: string) {
    forall i :: 0 <= i < |s| ==> s[i] == '\t' || (32 <= s[i] as int < 127)
  }

  datatype HeaderError = InvalidHeaderValue

  predicate AllValidHeaderBytes(bytes: seq<Utf8.Byte>) {
    forall i :: 0 <= i < |bytes| ==> IsValidHeaderByte(bytes[i])
  }

  /** `HeaderValue::from_str`: the string itself when every byte of it is accepted, an error otherwise. */
  function HeaderValueFromStr(s: string): (r: Result<string, HeaderError>)
    ensures r.Success? <==> AllValidHeaderBytes(Utf8.Encode(s))
    ensures r.Success? ==> r.value == s
  {
    if AllValidHeaderBytes(Utf8.Encode(s)) then Success(s) else Failure(InvalidHeaderValue)
  }


  /** Visible ASCII is always accepted by `from_str`. */
  lemma VisibleAsciiAccepted(s: string)
    requires IsVisibleAscii(s)
    ensures HeaderValueFromStr(s) == Success(s)
  {
    assert Utf8.IsAscii(s);
    Utf8.EncodeAscii(s);
  }

  /** The Basic header is visible ASCII, so the `expect` after `from_str` can never fire. */
  lemma BasicAuthHeaderIsValid(k: KomgaSettings)
    ensures IsVisibleAscii(BasicAuthHeader(k))
    ensures HeaderValueFromStr(BasicAuthHeader(k)) == Success(BasicAuthHeader(k))
  {
    var h := BasicAuthHeader(k);
    forall i | 0 <= i < |h| ensures h[i] == '\t' || (32 <= h[i] as int < 127) {
      if i < |BASIC_SCHEME| {
        assert h[i] == h[..|BASIC_SCHEME|][i] == BASIC_SCHEME[i];
      }
    }
    VisibleAsciiAccepted(h);
  }

  // ---------------------------------------------------------------------
  // Default headers, the HTTP client and the Komga API configuration
  // ---------------------------------------------------------------------

  /** Header names as the `http` crate spells its constants. */
  const ACCEPT: string := "accept"
  const AUTHORIZATION: string := "authorization"
  const JSON_MEDIA_TYPE: string := "application/json"

  /** `HeaderValue::from_static` panics unless its argument is visible ASCII; the Accept value is. */
  lemma JsonMediaTypeIsVisibleAscii()
    ensures IsVisibleAscii(JSON_MEDIA_TYPE)
  {
  }

  /** A header map that a builder fills in place. */
  class HeaderMap {
    var entries: map<string, string>

    constructor ()
      ensures entries == map[]
    {
      entries := map[];
    }

    /** Sets the value of a header, returning the value it replaced, if any. */
    method Insert(name: string, value: string) returns (previous: Option<string>)
      modifies this
      ensures entries == old(entries)[name := value]
      ensures previous == if name in old(entries) then Some(old(entries)[name]) else None
    {
      previous := if name in entries then Some(entries[name]) else None;
      entries := entries[name := value];
    }
  }

  /**
   * The default headers of the Komga client: exactly Accept: application/json and the
   * Basic Authorization value, whatever the username and password are.
   */
  method DefaultHeaders(k: KomgaSettings) returns (headers: map<string, string>)
    ensures headers.Keys == {ACCEPT, AUTHORIZATION}
    ensures headers[ACCEPT] == JSON_MEDIA_TYPE
    ensures headers[AUTHORIZATION] == BasicAuthHeader(k)
  {
    var h := new HeaderMap();
    JsonMediaTypeIsVisibleAscii();
    var _ := h.Insert(ACCEPT, JSON_MEDIA_TYPE);
    var authorization := HeaderValueFromStr(BasicAuthHeader(k));
    BasicAuthHeaderIsValid(k);
    assert authorization.Success?;
    var _ := h.Insert(AUTHORIZATION, authorization.value);
    headers := h.entries;
  }

  datatype Client = Client(defaultHeaders: map<string, string>)

  /** The reqwest client built from the Komga settings carries the default headers. */
  method ClientFrom(k: KomgaSettings) returns (c: Client)
    ensures c.defaultHeaders.Keys == {ACCEPT, AUTHORIZATION}
    ensures c.defaultHeaders[ACCEPT] == JSON_MEDIA_TYPE
    ensures c.defaultHeaders[AUTHORIZATION] == BasicAuthHeader(k)
  {
    var headers := DefaultHeaders(k);
    c := Client(headers);
  }

  datatype BasicAuth = BasicAuth(user: string, password: Option<string>)

  datatype KomgaConfiguration = KomgaConfiguration(
    client: Client,
    basePath: string,
    basicAuth: Option<BasicAuth>)

  /** The Komga API configuration: base path the server URL, Basic credentials, and the same client. */
  method ConfigurationFrom(k: KomgaSettings) returns (cfg: KomgaConfiguration)
    ensures cfg.basePath == k.url
    ensures cfg.basicAuth == Some(BasicAuth(k.username, Some(k.password)))
    ensures cfg.client.defaultHeaders.Keys == {ACCEPT, AUTHORIZATION}
    ensures cfg.client.defaultHeaders[ACCEPT] == JSON_MEDIA_TYPE
    ensures cfg.client.defaultHeaders[AUTHORIZATION] == BasicAuthHeader(k)
  {
    var client := ClientFrom(k);
    cfg := KomgaConfiguration(client, k.url, Some(BasicAuth(k.username, Some(k.password))));
  }

  // ---------------------------------------------------------------------
  // Layered configuration sources
  // ---------------------------------------------------------------------

  /** A configuration source: a file that may or may not be found, or the environment. */
  datatype Source =
    | File(name: string, required: bool, found: Option<map<string, string>>)
    | Environment(vars: map<string, string>)

  datatype ConfigError = NotFound(name: string)

  /** The keys a source contributes; a file that was not found contributes none. */
  function Contents(s: Source): map<string, string> {
    match s
    case File(_, _, found) => found.GetOr(map[])
    case Environment(vars) => vars
  }

  predicate IsMissingRequired(s: Source) {
    s.File? && s.required && s.found.None?
  }

  /** Merges the sources in order, each later one overriding the keys of the earlier ones. */
  function Build(sources: seq<Source>): (r: Result<map<string, string>, ConfigError>)
    decreases |sources|
  {
    if sources == [] then Success(map[])
    else
      match Build(sources[..|sources| - 1])
      case Failure(e) => Failure(e)
      case Success(merged) =>
        var last := sources[|sources| - 1];
        if IsMissingRequired(last) then Failure(NotFound(last.name))
        else Success(merged + Contents(last))
  }

  /** The sources of `Settings::new`: config/default (required), config/local (optional), the environment. */
  function SettingsSources(
    defaultFile: Option<map<string, string>>,
    localFile: Option<map<string, string>>,
    env: map<string, string>): seq<Source>
  {
    [File("config/default", true, defaultFile), File("config/local", false, localFile), Environment(env)]
  }

  /** Building fails exactly when some required source is missing. */
  lemma {:induction false} BuildFailsIffRequiredMissing(sources: seq<Source>)
    ensures Build(sources).Failure? <==> exists i :: 0 <= i < |sources| && IsMissingRequired(sources[i])
    decreases |sources|
  {
    if sources != [] {
      var init := sources[..|sources| - 1];
      BuildFailsIffRequiredMissing(init);
      assert forall i :: 0 <= i < |init| ==> init[i] == sources[i];
      if Build(init).Failure? {
        var i :| 0 <= i < |init| && IsMissingRequired(init[i]);
        assert IsMissingRequired(sources[i]);
      }
    }
  }

  /** A key takes the value of the last source that defines it. */
  lemma {:induction false} BuildPrecedence(sources: seq<Source>, i: nat, key: string)
    requires Build(sources).Success?
    requires i < |sources| && key in Contents(sources[i])
    requires forall j :: i < j < |sources| ==> key !in Contents(sources[j])
    ensures key in Build(sources).value && Build(sources).value[key] == Contents(sources[i])[key]
    decreases |sources|
  {
    var init := sources[..|sources| - 1];
    if i < |sources| - 1 {
      assert Build(init).Success?;
      assert forall j :: i < j < |init| ==> init[j] == sources[j];
      assert init[i] == sources[i];
      BuildPrecedence(init, i, key);
    }
  }

  /** A key defined by no source is absent from the result. */
  lemma {:induction false} BuildUndefined(sources: seq<Source>, key: string)
    requires Build(sources).Success?
    requires forall j :: 0 <= j < |sources| ==> key !in Contents(sources[j])
    ensures key !in Build(sources).value
    decreases |sources|
  {
    if sources != [] {
      var init := sources[..|sources| - 1];
      assert forall j :: 0 <= j < |init| ==> init[j] == sources[j];
      BuildUndefined(init, key);
    }
  }

  /**
   * The settings sources: loading fails only when config/default is missing; a missing
   * config/local is not an error; the environment overrides config/local, which overrides
   * config/default.
   */
  lemma SettingsLayering(
    defaultFile: Option<map<string, string>>,
    localFile: Option<map<string, string>>,
    env: map<string, string>)
    ensures Build(SettingsSources(defaultFile, localFile, env)) ==
            if defaultFile.None? then Failure(NotFound("config/default"))
            else Success(defaultFile.value + localFile.GetOr(map[]) + env)
  {
    var s := SettingsSources(defaultFile, localFile, env);
    assert s[..3] == s;
    assert s[..2][..1] == s[..1];
    assert s[..1][..0] == [];
    assert Build(s[..1]) == if defaultFile.None? then Failure(NotFound("config/default"))
                             else Success(map[] + defaultFile.value);
    assert Build(s[..2]) == if defaultFile.None? then Failure(NotFound("config/default"))
                             else Success(map[] + defaultFile.value + localFile.GetOr(map[]));
    if defaultFile.Some? {
      assert map[] + defaultFile.value == defaultFile.value;
      assert Build(s) == Success(map[] + defaultFile.value + localFile.GetOr(map[]) + env);
    }
  }
}
