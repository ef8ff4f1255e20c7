# OIDC token exchange plugin — Dafny model

This project models the `exchange` command of a JFrog CLI plugin. The command takes an OIDC identity
token, a server URL, the name of an OIDC provider configured on that server, and an optional project key.
It exchanges them for a JFrog access token with one OAuth 2.0 Token Exchange request (RFC 8693).

The command works in four steps:

1. It builds the request body. The body holds the fixed grant type of section 2.1 of RFC 8693 and the
   `id_token` token type of section 3 of RFC 8693. It also holds the caller's token and provider name,
   and a `project_key` only when a non-empty project was given.
2. It encodes the body as JSON.
3. It POSTs the body as `application/json` to the server, with at most one trailing `/` removed,
   followed by `/access/api/v1/oidc/token`.
4. It reads and decodes the reply, and returns its `access_token` or the first error it met.

Files:

- `wrappers.dfy`: module `Wrappers`, with `Option` (Go's nil-able pointer) and `Result` (Go's
  value-or-error return).
- `go_strings.dfy`: module `GoStrings`, with `HasSuffix` and `CutSuffix` from Go's `strings` package.
  The URL rule rests on these.
- `exchange.dfy`: module `Exchange`, the model of `commands/exchange.go`:
  - the `Payload` and `ExchangeResponse` records;
  - the pure builders `BuildPayload` and `ExchangeUrl`;
  - the injected HTTP client, as the class `HttpClient`;
  - the command itself, as the method `ExchangeCommand`. It is proved against the specification
    functions `ExchangeRequest`, `ReplyOutcome` and `ExchangeOutcome`;
  - lemmas about all of these, and a method that replays the repository's tests.

How the command's collaborators are modelled:

- **Flag accessor.** It is a map from flag name to value; a flag that is not set reads as `""`.
- **HTTP client.** It is an object whose constant `answer` function gives the network's reply to each
  request. Its ghost `sent` log records every request it was asked to send.
- **Reading the reply body.** A `Response` carries the outcome of reading the body to its end: the bytes
  read, or the error the read stopped with.
- **JSON.** Go's `json.Marshal` and `json.Unmarshal` are the two functions of a `Json` value passed to the
  command. Nothing is assumed about them: each may fail or succeed on any input.

The status code of the reply is part of `Response`, and `StatusCodeIgnored` proves that it has no effect.
The command decodes every reply, whatever its status.

## Model

| member | source | states |
|---|---|---|
| `GoStrings.CutSuffix` | commands/exchange.go:97 | `strings.CutSuffix`: reports a cut exactly when `s` ends in the suffix. When it cuts, the part kept followed by the suffix is `s` again. Otherwise `s` is returned unchanged |
| `GoStrings.CutSuffixOfAppended` | commands/exchange.go:97 | cutting a suffix undoes appending it, and exactly one copy of the suffix is removed |
| `Exchange.GetStringFlagValue` | commands/exchange.go:17-19 | a flag reads as its given value, and as `""` when it was not given |
| `Exchange.BuildPayload` | commands/exchange.go:86-95 | the body always carries the RFC 8693 grant type and `id_token` token type. `subject_token` and `provider_name` are the token and provider flags, unchanged. `project_key` is absent exactly when the project flag is `""`, and otherwise equals that flag |
| `Exchange.PayloadRoundTrip` | commands/exchange.go:73-95 | every well-formed body is rebuilt from its own token, provider and project: the builder and the field selectors invert each other |
| `Exchange.BuildPayloadInjective` | commands/exchange.go:86-95 | two bodies are equal exactly when token, provider and project flags are all equal, so no flag value is lost |
| `Exchange.BaseUrl` | commands/exchange.go:97 | the base URL is the server with its one trailing `/` removed when it has one, and the server unchanged otherwise |
| `Exchange.ExchangeUrl` | commands/exchange.go:97-98 | the URL always ends in `/access/api/v1/oidc/token`. What precedes it is the server without its last character when that is `/`, and the whole server otherwise |
| `Exchange.TrailingSlashIrrelevant` | commands/exchange.go:97-98 | for a server `s` not ending in `/`, `s` and `s + "/"` give the identical URL |
| `Exchange.OnlyOneSlashRemoved` | commands/exchange.go:97 | at most one trailing `/` is removed: `s + "//"` gives `s + "/"` followed by the path |
| `Exchange.TrailingSlashes` | commands/exchange.go:97 | the count `n` of trailing `/` characters is exact: the last `n` characters are all `/`, and the one before them, if any, is not |
| `Exchange.BaseUrlDropsOneSlash` | commands/exchange.go:97 | whatever the number `n` of trailing `/`, the URL base keeps `n - 1` of them (none when `n` is 0), and everything before them unchanged |
| `Exchange.SameUrlIffSameServer` | commands/exchange.go:97-98 | two servers give the same URL if and only if they are equal, or one is the other followed by a single `/` and that other does not end in `/` |
| `Exchange.HttpClient.constructor` | commands/exchange.go:13-15 | a new client answers with the given network function and has sent nothing |
| `Exchange.HttpClient.Post` | commands/exchange.go:13-15 | a POST records exactly one request, with its URL, content type and body. It returns the network's answer to that request |
| `Exchange.ExchangeRequest` | commands/exchange.go:86-105 | when the body encodes, the request goes to the computed URL with content type `application/json`, and its body is the encoding of the built payload. Otherwise the encoding error is the result |
| `Exchange.ReplyOutcome` | commands/exchange.go:105-122 | each error is returned unchanged: a transport error, a read error, or a decode error. A decoded reply yields exactly its `access_token`, and a token is returned only from such a decoded reply |
| `Exchange.ExchangeOutcome` | commands/exchange.go:85-123 | a token is only ever the `access_token` decoded from the reply to the one request built from the flags. When encoding fails, the result is the encoder's error |
| `Exchange.ExchangeCommand` | commands/exchange.go:85-123 | the command returns exactly the outcome of the exchange specification. The client is asked to POST once, with the specified request, when the body encodes, and not at all when encoding fails |
| `Exchange.ExchangeSteps` | commands/exchange.go:100-122 | step by step from the inputs: an encode, transport, read or decode error is the outcome, unchanged. A decoded reply to the request sent to the computed URL gives `Success` of its `access_token` |
| `Exchange.StatusCodeIgnored` | commands/exchange.go:110-122 | replacing the status code of every reply changes nothing in the outcome, so no status check comes before decoding |
| `Exchange.RequestCarriesFlags` | commands/exchange.go:86-105 | the body sent is the encoding of a well-formed payload. It carries the token and provider flags unchanged, and a `project_key` exactly when the project flag is non-empty, equal to that flag |
| `Exchange.TrailingSlashSameExchange` | commands/exchange_test.go:33-67 | with the server given with or without one trailing `/`, both the request sent and the command's outcome are the same |
| `Exchange.TestServerUrl` | commands/exchange_test.go:33-56 | `https://test-server.local` and `https://test-server.local/` both reach the literal `https://test-server.local/access/api/v1/oidc/token` |
| `Exchange.SimpleExchangeScenario` | commands/exchange_test.go:32-107 | the mock answers only the request the tests write out as literals. That is the literal endpoint, `application/json`, and the encoding of the literal payload, with `project_key` only when a project is given. With either server spelling and with or without a project, the command sends that request and returns `this-is-an-access-token-from-a-test` |

## Left out

- `GetExchangeCommand` and `getExchangeFlags` (commands/exchange.go:21-71) are left out. They are
  declarative command and flag tables for the host CLI framework: the four flags `token`, `server`,
  `provider` and `project`, the first three mandatory. The `Action` closure only prints the token.
  Checking the mandatory flags is the framework's job, so the model accepts any flag values.
- `main.go` is not part of this model. It only registers the command with the plugin framework.
- The syntax of JSON is not modelled. Go's encoder and decoder are arbitrary functions here, so:
  - the model does not state that the encoder omits a nil `project_key`;
  - it does not state that Go's decoder leaves a missing `access_token` as `""`.
- A client that breaks the `net/http` contract is not modelled. If `Post` returns a nil response
  with a nil error, or a response with a nil `Body`, the command panics at commands/exchange.go:112.
  `Result<Response, Error>` always carries either a response with a body outcome or an error, so the
  model excludes such clients.
- HTTP transport is not modelled: TLS, DNS, timeouts, headers beyond the content type, and closing the
  body. The network is only a function from request to outcome.
- Partial reads are not modelled. `bytes.Buffer.ReadFrom` is reduced to its outcome: either the whole
  body or the error it stopped with. Bytes read before such an error are dropped, as the command drops
  them.
- Errors are passed on as the same value. The source returns each error unchanged (commands/exchange.go:101-120)
  and does not wrap it with a description of the failing step. The model follows the code here.
- No status-code check is modelled, because the source has none. `StatusCodeIgnored` states that the
  command does not look at the status.
- Go strings are byte strings; the model uses Dafny character sequences. The only character the command
  inspects is the ASCII `/`, so the two agree.
