/**
 * Normalisation of the configured database URL: a blank setting falls
 * back to a local SQLite file, and Postgres URLs are pointed at the
 * psycopg driver.
 */
module Database {
  import opened PyStr

  const DefaultUrl: string := "sqlite:///./app.db"
  const PostgresScheme: string := "postgres://"
  const PostgresqlScheme: string := "postgresql://"
  const PsycopgScheme: string := "postgresql+psycopg://"
  const PsycopgMarker: string := "+psycopg"

  /** `_normalize_database_url`. The result is never empty. */
  function NormalizeDatabaseUrl(url: string): (r: string)
    ensures r != []
  {
    var u := Strip(url);
    if u == [] then
      DefaultUrl
    else if StartsWith(u, PostgresScheme) then
      ReplaceFirst(u, PostgresScheme, PsycopgScheme)
    else if StartsWith(u, PostgresqlScheme) && !Contains(u, PsycopgMarker) then
      ReplaceFirst(u, PostgresqlScheme, PsycopgScheme)
    else
      u
  }

  /** An empty or whitespace-only setting selects the SQLite default. */
  lemma BlankUrlSelectsDefault(url: string)
    requires AllSpace(url)
    ensures NormalizeDatabaseUrl(url) == DefaultUrl
  {
  }

  /** `postgres://rest` becomes `postgresql+psycopg://rest`, the rest untouched. */
  lemma PostgresSchemeRewritten(url: string)
    requires StartsWith(Strip(url), PostgresScheme)
    ensures NormalizeDatabaseUrl(url) == PsycopgScheme + Strip(url)[|PostgresScheme|..]
  {
    ReplaceFirstAtStart(Strip(url), PostgresScheme, PsycopgScheme);
  }

  /** `postgresql://rest` without the driver marker becomes `postgresql+psycopg://rest`. */
  lemma PostgresqlSchemeRewritten(url: string)
    requires StartsWith(Strip(url), PostgresqlScheme) && !Contains(Strip(url), PsycopgMarker)
    ensures NormalizeDatabaseUrl(url) == PsycopgScheme + Strip(url)[|PostgresqlScheme|..]
  {
    var u := Strip(url);
    assert u[8] == PostgresqlScheme[8];
    assert !StartsWith(u, PostgresScheme) by {
      assert PostgresScheme[8] != PostgresqlScheme[8];
    }
    ReplaceFirstAtStart(u, PostgresqlScheme, PsycopgScheme);
  }

  /**
   * Any other non-blank setting, including a `postgresql://` URL that
   * already names a `+psycopg` driver, is only stripped.
   */
  lemma OtherUrlOnlyStripped(url: string)
    requires !AllSpace(url)
    requires !StartsWith(Strip(url), PostgresScheme)
    requires !StartsWith(Strip(url), PostgresqlScheme) || Contains(Strip(url), PsycopgMarker)
    ensures NormalizeDatabaseUrl(url) == Strip(url)
  {
  }

  /** Surrounding whitespace never matters: the result depends on the stripped setting only. */
  lemma NormalizeIgnoresSurroundingSpace(url: string)
    ensures NormalizeDatabaseUrl(Strip(url)) == NormalizeDatabaseUrl(url)
  {
    StripIdempotent(url);
  }

  /** A URL in the psycopg scheme is a fixed point. */
  lemma PsycopgUrlIsFixed(rest: string)
    requires rest == [] || !IsSpace(rest[|rest| - 1])
    ensures NormalizeDatabaseUrl(PsycopgScheme + rest) == PsycopgScheme + rest
  {
    var v := PsycopgScheme + rest;
    assert v[0] == 'p' && v[8] == 'q' && v[10] == '+';
    assert v[|v| - 1] == if rest == [] then '/' else rest[|rest| - 1];
    assert !StartsWith(v, PostgresScheme) by {
      assert PostgresScheme[8] == ':';
    }
    assert !StartsWith(v, PostgresqlScheme) by {
      assert PostgresqlScheme[10] == ':';
    }
    UnmatchedUrlIsFixed(v);
  }

  /** A string without surrounding whitespace that matches neither rewrite rule is a fixed point. */
  lemma UnmatchedUrlIsFixed(u: string)
    requires u != [] && !IsSpace(u[0]) && !IsSpace(u[|u| - 1])
    requires !StartsWith(u, PostgresScheme) && !StartsWith(u, PostgresqlScheme)
    ensures NormalizeDatabaseUrl(u) == u
  {
    StripUnchanged(u);
  }

  /** The SQLite default is a fixed point. */
  lemma DefaultUrlIsFixed()
    ensures NormalizeDatabaseUrl(DefaultUrl) == DefaultUrl
  {
    assert DefaultUrl[0] == 's' && DefaultUrl[|DefaultUrl| - 1] == 'b';
    assert PostgresScheme[0] == 'p' && PostgresqlScheme[0] == 'p';
    UnmatchedUrlIsFixed(DefaultUrl);
  }

  /** Normalising twice is normalising once. */
  lemma NormalizeIdempotent(url: string)
    ensures NormalizeDatabaseUrl(NormalizeDatabaseUrl(url)) == NormalizeDatabaseUrl(url)
  {
    var u := Strip(url);
    if u == [] {
      BlankUrlSelectsDefault(url);
      DefaultUrlIsFixed();
    } else if StartsWith(u, PostgresScheme) {
      RewrittenUrlIsFixed(url, PostgresScheme);
    } else if StartsWith(u, PostgresqlScheme) && !Contains(u, PsycopgMarker) {
      RewrittenUrlIsFixed(url, PostgresqlScheme);
    } else {
      StrippedUrlIsFixed(url);
    }
  }

  /** The result of either rewrite rule is a fixed point. */
  lemma RewrittenUrlIsFixed(url: string, scheme: string)
    requires Strip(url) != []
    requires (scheme == PostgresScheme && StartsWith(Strip(url), PostgresScheme))
          || (scheme == PostgresqlScheme && !StartsWith(Strip(url), PostgresScheme)
              && StartsWith(Strip(url), PostgresqlScheme) && !Contains(Strip(url), PsycopgMarker))
    ensures NormalizeDatabaseUrl(NormalizeDatabaseUrl(url)) == NormalizeDatabaseUrl(url)
  {
    var u := Strip(url);
    var rest := u[|scheme|..];
    if scheme == PostgresScheme {
      PostgresSchemeRewritten(url);
    } else {
      PostgresqlSchemeRewritten(url);
    }
    assert NormalizeDatabaseUrl(url) == PsycopgScheme + rest;
    assert rest == [] || rest[|rest| - 1] == u[|u| - 1];
    PsycopgUrlIsFixed(rest);
  }

  /** A setting that only gets stripped normalises to a fixed point. */
  lemma StrippedUrlIsFixed(url: string)
    requires Strip(url) != []
    requires !StartsWith(Strip(url), PostgresScheme)
    requires !StartsWith(Strip(url), PostgresqlScheme) || Contains(Strip(url), PsycopgMarker)
    ensures NormalizeDatabaseUrl(NormalizeDatabaseUrl(url)) == NormalizeDatabaseUrl(url)
  {
    var u := Strip(url);
    OtherUrlOnlyStripped(url);
    StripIdempotent(url);
    OtherUrlOnlyStripped(u);
  }
}
