# Vault-backed Docker credential helper, modelled in Dafny

This project models the core of `docker-credential-vault-login`, a Docker
credential helper that answers `get` requests with a username and password
read from HashiCorp Vault. The model has three parts.

- **Cached-token record** (`cache.dfy`, module `Cache`). A token read back
  from a sink has an expiration timestamp and a renewable flag. Two
  predicates say whether it has expired and whether it may be renewed. The
  clock is a parameter `now`, in whole Unix seconds.
- **Credential retrieval** (`helper.dfy`, module `Helper`). `Helper.Get`
  sets up the logger, then runs the configuration checks. It then creates
  the Vault client if none was injected, renews every cached token, and
  tries the cached tokens
  in order until one secret read succeeds. If none does, it clears the
  client's token, builds the sinks and the login method, and runs the login
  and persist phases. Finally it exchanges the new token once. Every
  failure becomes the single "credentials not found" error. The Vault
  client is a class. Its active token is the `token` field, and a ghost
  `calls` log records every call made on it. `Get`'s contract ties the
  result, the final token and the calls to the specification function
  `TokenPhases`. Lemmas then state what that means: the renewals come
  first; the first winner ends the search; without a winner the token is
  cleared; a deadline means no exchange.
- **STS GetCallerIdentity request** (`iam_auth.dfy`, module `IamAuth`). This
  part builds the `X-Amz-Date` timestamp and the fixed header map, then the
  signed request whose `Authorization` header comes from a Signature
  Version 4 signer. The RFC 3339 date-time (section 5.6 of RFC 3339), the
  credentials provider's answer and the signer are inputs.

`wrappers.dfy` holds the `Option` and `Result` types used for Go's
`(value, error)` returns.

Inputs that stand for I/O or for code outside this model:
- `ConfigLoad` is the result of `config.LoadConfig`.
- `Environment` holds the rest:
  - whether the log file opens;
  - whether `api.NewClient` succeeds, and the client's initial token;
  - the tokens `cache.GetCachedTokens` returned;
  - the renewal and secret-read answers of the Vault server, as functions of
    the token;
  - the file-sink and login-method constructors;
  - the outcome of the login phase and of the persist phase.

Both time comparisons are strict (vault-login/cache/token.go:43, :55).
`Expired` is false at the expiration second itself, and the renewal window
is open at both ends, so a renewable token is eligible at 599 whole seconds
(`Cache.EligibleSecondsCount`).

## Model

| member | source | states |
|---|---|---|
| `Cache.CachedToken.Expired` | vault-login/cache/token.go:40-44 | Expired exactly when the remaining lifetime `expiration - now` is negative; an expired token is never eligible for renewal. |
| `Cache.CachedToken.EligibleForRenewal` | vault-login/cache/token.go:46-56 | Eligible exactly when renewable and the remaining lifetime lies strictly between 0 and `GracePeriodSeconds`; a non-renewable token is never eligible. |
| `Cache.ExpiredIff` | vault-login/cache/token.go:40-44 | A token is expired exactly when `now` is strictly after its expiration, so it is not expired at the expiration second itself. |
| `Cache.EligibleIff` | vault-login/cache/token.go:46-56 | Eligible for renewal iff renewable and `Expiration - 600 < now < Expiration`. |
| `Cache.NotRenewableNeverEligible` | vault-login/cache/token.go:55 | A non-renewable token is never eligible, at any time. |
| `Cache.EligibleImpliesNotExpired` | vault-login/cache/token.go:42-56 | An eligible token is not expired. |
| `Cache.WindowBoundaries` | vault-login/cache/token.go:51-56 | Not eligible at the window start `Expiration - GracePeriodSeconds`; at `Expiration` neither expired nor eligible; expired one second later. |
| `Cache.ExpiredIsMonotone` | vault-login/cache/token.go:42-44 | Once expired, a token stays expired at every later time. |
| `Cache.EligibleSecondsCount` | vault-login/cache/token.go:21-56 | A renewable token is eligible at exactly 599 whole seconds, and a non-renewable one at none. |
| `Cache.PredicatesIgnoreToken` | vault-login/cache/token.go:23-56 | Neither predicate depends on the token string or the auth method, and `Expired` does not depend on the renewable flag either. |
| `IamAuth.RemoveAll` | aws/iam_auth.go:80 | `strings.Replace(s, c, "", -1)` for one character: the result has no `c`, is no longer than `s`, and holds only characters of `s`. |
| `IamAuth.RemoveAllConcat` | aws/iam_auth.go:80 | Removal distributes over concatenation. |
| `IamAuth.RemoveAllAbsent` | aws/iam_auth.go:80 | Removal leaves a string without `c` unchanged. |
| `IamAuth.RemoveAllIdempotent` | aws/iam_auth.go:80 | Removing a character twice is the same as removing it once. |
| `IamAuth.NowAsIso8601` | aws/iam_auth.go:79-81 | For an input of at least 19 characters, the timestamp has no `-` or `:`, ends with `Z`, and has at most 20 characters. |
| `IamAuth.NowAsIso8601OfRfc3339` | aws/iam_auth.go:79-81 | For the RFC 3339 text of a valid UTC instant, `YYYY-MM-DDTHH:MM:SSZ`, the timestamp is exactly the 16-character `YYYYMMDDTHHMMSSZ`. |
| `IamAuth.DecimalRoundTrip` | aws/iam_auth.go:75 | The decimal rendering used for `Content-Length` reads back as the number rendered. |
| `IamAuth.StsRequestHeaders` | aws/iam_auth.go:67-77 | The header map has exactly the five keys `Accept-Encoding`, `Content-Type`, `Host`, `X-Amz-Date`, `Content-Length`, with their fixed values. `Content-Length` is `"43"`, the decimal length of the request body. |
| `IamAuth.GetIamAuthElements` | aws/iam_auth.go:36-65 | A credentials or signing error is returned unchanged. On success the request has method POST, URL `https://sts.amazonaws.com/` and the GetCallerIdentity body. Its headers are the five unsigned headers plus `Authorization`, which holds the signer's output for exactly those parameters. |
| `Helper.ResolveConfig` | helper/command.go:96-125 | The configuration is usable iff it loaded, is non-nil, has an auto_auth block, and has a string `secret` in the method's config. The secret returned is that string. |
| `Helper.ResolveConfigErrors` | helper/command.go:96-125 | Each of the five failed checks (load error, nil config, no auto_auth block, no `secret` entry, a `secret` that is not a string) reports its own error, in the code's order. |
| `Helper.KindOfTag` | helper/command.go:273-290 | A tag selects a login method iff it is one of the seven known tags, and the method selected carries that tag. |
| `Helper.TagRoundTrip` | helper/command.go:273-290 | Each login method is selected by its own tag and by no other. |
| `Helper.BuildMethod` | helper/command.go:262-295 | An unknown tag gives the unknown-method error, and only an unknown tag does. A constructor error is wrapped with the tag. Otherwise the result is the method the constructor built for that tag. |
| `Helper.BuildSinks` | helper/command.go:235-260 | Succeeds iff every sink is of type "file" and its constructor succeeds. Then the result has the same length and order as the input. On failure the error is the one for the first sink that failed. |
| `Helper.FirstSuccess` | helper/command.go:150-161 | Finds the first cached token whose secret read succeeds: every earlier token fails. If there is none, every token fails. |
| `Helper.RenewCachedTokens` | helper/command.go:143-148 | Makes one renewal call per cached token, in order, and leaves the active token unchanged. |
| `Helper.ExchangeCachedTokens` | helper/command.go:150-161 | Sets and reads with tokens 0..k in order, where k is the first success, and returns its credentials. If no token succeeds, it sets and reads with every token, returns nothing, and leaves the last cached token active (the previous token when there are none). |
| `Helper.FreshLogin` | helper/command.go:166-232 | A failure to build a sink or the method, or a deadline in the login or persist phase, gives not-found and leaves the client untouched. Otherwise it sets the login token and reads once, and that read decides the result. |
| `Helper.RunTokenPhases` | helper/command.go:137-232 | The result, the final token and the calls made on the client are those of `TokenPhases`. |
| `Helper.RenewalsComeFirst` | helper/command.go:143-161 | Every cached token is renewed once, in order, before any token is set or read. |
| `Helper.FirstWinnerEndsSearch` | helper/command.go:150-161 | If tokens 0..k-1 fail and token k succeeds, there are exactly k+1 reads, with tokens 0..k, and only those tokens are ever set. The token is never cleared, and token k's credentials are returned. |
| `Helper.NoWinnerFallsBackToLogin` | helper/command.go:150-232 | If no cached token succeeds, including when there are none, every one is read once and then the token is cleared. After that only the fresh token, if any, is set and read. Without a fresh token the result is not-found. |
| `Helper.DeadlineMeansNoFreshToken` | helper/command.go:197-216 | A deadline in the login or persist phase leaves no fresh token, so no exchange follows. |
| `Helper.FreshTokenIsLoginToken` | helper/command.go:166-224 | There is a fresh token iff the sinks and method build, the login delivers a token and the persist phase completes. That token is the login's. |
| `Helper.OnlyNotFound` | helper/command.go:150-232 | The token phases fail only with the not-found error. |
| `Helper.LoggerSetupAsWritten` | helper/command.go:73-89 | The logger set-up as written: an injected logger is kept, the log file is used when it opens, and the set-up panics exactly when no logger is injected and the log file does not open. |
| `Helper.NilLoggerPanics` | helper/command.go:80-82 | As written, with no injected logger and a log file that does not open, the set-up panics on the nil logger. |
| `Helper.SetupLogger` | helper/command.go:73-89 | An injected logger is kept. Otherwise the logger writes to the log file when it opens, and to stderr when it does not. |
| `Helper.SetupLoggerAgrees` | helper/command.go:73-89 | The corrected set-up agrees with the code wherever the code does not panic. The code panics exactly when no logger is injected and the log file does not open. |
| `Helper.Helper.Get` | helper/command.go:71-233 | Every failure is the not-found error. An unusable configuration, or a client that cannot be created, ends the call with the client untouched. Otherwise the result, final token and client calls are those of `TokenPhases`. The logger is set up by the corrected `SetupLogger` of the Findings row, so a log file that does not open leads to a stderr logger rather than a panic. |
| `Helper.Helper.Add` | helper/command.go:59-61 | Always returns the not-implemented error. |
| `Helper.Helper.Delete` | helper/command.go:63-65 | Always returns the not-implemented error. |
| `Helper.Helper.List` | helper/command.go:67-69 | Always returns the not-implemented error. |
| `Helper.Helper.constructor` | helper/command.go:48-57 | Keeps the injected logger and client, or none. |

## Findings

| source | as written | input that shows it | evidently intended | confidence | as-written member | corrected member |
|---|---|---|---|---|---|---|
| helper/command.go:80-82 | When the log file cannot be opened, the error is logged through `h.logger`, which is still nil in that branch. | No injected logger, and `logging.LogWriter` returns an error: calling a method on the nil logger panics. The credential helper must never crash. | Report the failure on stderr and carry on with the stderr logger. | high; not executed | `Helper.LoggerSetupAsWritten`, `Helper.NilLoggerPanics` | `Helper.SetupLogger`, `Helper.SetupLoggerAgrees` |

## Left out

- `Helper.Helper.Get`: uses the corrected logger set-up (`Helper.SetupLogger`), not the as-written one. With no injected logger and a log file that does not open, the code panics at helper/command.go:82, while the model carries on with a stderr logger; `Helper.NilLoggerPanics` records the panic.
- Logging itself is left out: messages, levels and the log file. Only where the logger writes is kept.
- Reading the configuration path from `DOCKER_CREDS_CONFIG_FILE` and parsing the file are left out. The parse result is the input `ConfigLoad`.
- `AutoAuth.Method` is taken to be non-nil. Vault's agent configuration parser requires exactly one method block, so a nil method never reaches `Get`.
- The Vault calls are inputs, not models: `api.NewClient`, `Clone`, `RenewTokenAsSelf`, `vault.GetCredentials` and `cache.GetCachedTokens`. The client's HTTP state and the cloned client used for reading the cache are not modelled.
- The plug-in constructors (`file.NewFileSink` and the seven auth-method constructors) are oracles keyed by configuration and tag. The loggers they receive are left out.
- The goroutines, channels, `context.WithTimeout` and the `DoneCh` waits are left out (helper/command.go:178-222). Only the outcome of each phase is kept: token or deadline, persisted or deadline. What the auth handler and the sink server do to the shared client while they run is not modelled.
- Unwrapping a wrapped token (`WrapTTL`) is not modelled; the token from the login phase is used as is.
- `Cache.ExpiredIff`: time is whole Unix seconds. Go compares `time.Time` values with nanosecond precision, so an instant inside the expiration second is "after" it in Go but equal here. The same holds at the window start: in Go an instant strictly between `Expiration - 600` and `Expiration - 599` is eligible for renewal, while the model is not eligible at `Expiration - 600`; this is why the whole-second count is 599 rather than a 600-second window. The 64-bit range of `Expiration` and of the window start is not modelled.
- `IamAuth.NowAsIso8601`: the wall clock and `time.Format` are inputs. The function takes the formatted RFC 3339 text, and `FormatRfc3339` models the layout only for years 0-9999 without fractional seconds.
- `IamAuth.GetIamAuthElements`: the shared-credentials provider and the Signature Version 4 signer (`makeAuthorizationHeader`) are parameters, not models. The signer's HMAC computation is not part of this model.
- The process entry point (vault-login/cli/docker-credential-vault-login/main.go: flags, version banner, `credentials.Serve`) is not part of this model.
