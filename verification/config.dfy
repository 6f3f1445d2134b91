/**
 * The settings the identity core reads from its environment: the signing
 * secret and algorithm, the two token lifetimes and the comma-separated list
 * of allowed CORS origins.
 */
module Config {
  import opened Text

  datatype Settings = Settings(
    secretKey: string,               // required: no default
    algorithm: string,
    accessTokenExpireMinutes: int,
    refreshTokenExpireDays: int,
    allowedOrigins: string)

  const DefaultAlgorithm := "HS256"
  const DefaultAccessTokenExpireMinutes := 15
  const DefaultRefreshTokenExpireDays := 7
  const DefaultAllowedOrigins := "http://localhost:3000,http://127.0.0.1:3000"

  const SecondsPerMinute := 60
  const SecondsPerDay := 86400

  /** The settings object built from an environment that supplies only the secret. */
  function DefaultSettings(secretKey: string): Settings {
    Settings(secretKey, DefaultAlgorithm, DefaultAccessTokenExpireMinutes,
             DefaultRefreshTokenExpireDays, DefaultAllowedOrigins)
  }

  function AccessTokenLifetime(s: Settings): int {
    s.accessTokenExpireMinutes * SecondsPerMinute
  }

  function RefreshTokenLifetime(s: Settings): int {
    s.refreshTokenExpireDays * SecondsPerDay
  }

  /** With only the secret supplied, access tokens live 15 minutes and refresh tokens 7 days. */
  lemma DefaultLifetimes(secretKey: string)
    ensures DefaultSettings(secretKey).algorithm == "HS256"
    ensures AccessTokenLifetime(DefaultSettings(secretKey)) == 15 * 60
    ensures RefreshTokenLifetime(DefaultSettings(secretKey)) == 7 * 24 * 60 * 60
  {
  }

  /**
   * Settings.cors_origins: one entry per comma-separated segment, each with
   * surrounding whitespace removed, in order; empty segments stay as "".
   */
  function CorsOrigins(s: Settings): (origins: seq<string>)
    ensures |origins| == |Split(s.allowedOrigins, ',')| == Occurrences(s.allowedOrigins, ',') + 1
    ensures forall i :: 0 <= i < |origins| ==>
      origins[i] == Strip(Split(s.allowedOrigins, ',')[i])
    ensures forall i :: 0 <= i < |origins| ==> ',' !in origins[i]
  {
    var parts := Split(s.allowedOrigins, ',');
    SplitCount(s.allowedOrigins, ',');
    SplitPiecesHaveNoSeparator(s.allowedOrigins, ',');
    forall i | 0 <= i < |parts| ensures ',' !in Strip(parts[i]) {
      StripKeepsCharacters(parts[i], ',');
    }
    seq(|parts|, i requires 0 <= i < |parts| => Strip(parts[i]))
  }

  /** Stripping a segment only removes characters, so no entry gains a comma. */
  lemma {:induction false} StripKeepsCharacters(s: string, c: char)
    requires c !in s
    ensures c !in Strip(s)
  {
    var r := Strip(s);
    var i := |s| - |StripStart(s)|;
    forall k | 0 <= k < |r| ensures r[k] != c {
      assert r[k] == s[i + k];
    }
  }

  /** Two comma-free, already trimmed origins joined by a comma come back as they are. */
  lemma {:induction false} CorsOriginsOfPair(s: Settings, a: string, b: string)
    requires s.allowedOrigins == a + [','] + b
    requires ',' !in a && ',' !in b
    requires a != [] && !IsSpace(a[0]) && !IsSpace(a[|a| - 1])
    requires b != [] && !IsSpace(b[0]) && !IsSpace(b[|b| - 1])
    ensures CorsOrigins(s) == [a, b]
  {
    SplitAfterPiece(a, b, ',');
    SplitWithoutSeparator(b, ',');
    StripTrimmed(a);
    StripTrimmed(b);
  }

  /** The default list yields exactly the two local development origins. */
  lemma DefaultCorsOrigins(secretKey: string)
    ensures CorsOrigins(DefaultSettings(secretKey)) == ["http://localhost:3000", "http://127.0.0.1:3000"]
  {
    var a, b := "http://localhost:3000", "http://127.0.0.1:3000";
    assert DefaultAllowedOrigins == a + [','] + b;
    assert ',' !in a;
    assert ',' !in b;
    CorsOriginsOfPair(DefaultSettings(secretKey), a, b);
  }
}
