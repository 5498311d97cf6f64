# External Secrets: template renderer and GitHub token generator

This project models two parts of the external-secrets operator and proves
properties of them in Dafny.

- **Secret template renderer** (`template.dfy`, module `Template`). `Execute`
  renders a map of templates against a secret's data. It writes the
  rendered values into one of the secret's three maps: `Data`,
  `Annotations` or `Labels`. In `Values` scope each template entry is written
  under its own key. In `KeysAndValues` scope each entry's output is decoded
  as a YAML string map, and every decoded pair is written. The secret is a
  class (`Template.Secret`) whose three optional maps the methods update in
  place. Every method is proved equal to a specification function (`Apply`,
  `ApplyMap`, `MapScopeRun`, `EntriesRun`, `ExecuteRun`), and the lemmas
  state what the source promises about those functions.
- **GitHub App access-token generator** (`github.dfy`, module
  `GithubGenerator`). `generate` parses the spec and fetches the App's RSA
  key from a Kubernetes secret. It signs a JWT with that key, posts it to
  `/app/installations/{id}/access_tokens`, and returns the token as the
  single field `"token"`. Step by step, the methods `Generate`, `NewGHClient`
  and `BuildPayload` are proved equal to the functions `GenerateOutcome`,
  `NewClient` and `Payload`. The pure decisions are functions: the endpoint
  URL, the JWT claims, the payload and body, and the reading of the response.

Shared modules: `Wrappers` (Option, Result and Outcome) and `GoText`. In
`GoText`, Go strings and byte slices are both byte sequences. Go's
`string(b)` and `[]byte(s)` conversions copy the bytes unchanged, so they
are the identity here. `GoText` also holds `%d` formatting, substring
containment and the reading of a nil map.

Collaborators that are not part of the model are parameters:

- The template engine (parse, execute) and the YAML decoder are the fields
  of `Template.Engine`.
- Go's map iteration order is the `order` argument: any enumeration of the
  template map's keys. The loop over decoded pairs takes its keys in an
  arbitrary order (`:|`) and is proved to give the same secret whatever the
  order.
- Spec decoding, the Kubernetes secret fetch, RSA key parsing, JWT signing,
  JSON encoding, request construction, the HTTP round trip and the two
  clock readings are the fields of `GithubGenerator.Env`.

Behaviours of the code worth knowing:

- The JWT's issued-at is `now - 10s` and its expiry is `now + 300s`
  (github.go:191-192), so the token is valid for 310 seconds. The two
  `time.Now()` calls are two clock readings; the lifetime is exactly 310
  seconds when they agree.
- An unknown template target is silently ignored (template.go:103-104). It
  is not reported as an error.
- A nil template map succeeds before the scope is checked
  (template.go:135-138). A non-nil empty map with an unknown scope is an
  error (template.go:152-153).
- In `KeysAndValues` scope, an output that decodes to an empty map writes
  nothing (template.go:128-130). A nil target map stays nil.

The constant values `"Values"`, `"KeysAndValues"`, `"Data"`, `"Annotations"`
and `"Labels"` are those of the `esapi` template scope and target types.
That API package is not part of this model.

## Model

| member | source | states |
|---|---|---|
| `Template.ApplyToTarget` | pkg/template/v2/template.go:86-105 | the secret afterwards is `Apply` of the secret before: the named map is allocated if nil and key k is set to the value |
| `Template.ApplyWritesOneKey` | pkg/template/v2/template.go:86-102 | for Annotations, Labels or Data the target map exists afterwards; its keys are the old keys plus k, and k holds the value; every other key and the other two maps are unchanged |
| `Template.ApplyUnknownTargetIsNoop` | pkg/template/v2/template.go:103-104 | an unrecognised target leaves the secret exactly as it was |
| `Template.ApplyAfterApplyMap` | pkg/template/v2/template.go:128-130 | writing one more decoded pair after a batch equals writing the batch extended by that pair, so the result of the decoded-pair loop does not depend on map iteration order |
| `Template.Render` | pkg/template/v2/template.go:158-178 | the string copy of the data has the same keys as the data, each holding that entry's bytes; the result is the parse error, the execute error or the rendered bytes, as `Rendering` defines |
| `Template.RenderingErrorsAreDistinct` | pkg/template/v2/template.go:164-176 | success iff the template parses and runs; a parse failure is reported as `ParseFailed`, and only then; a run failure is reported as `ExecuteFailed`, and only then; both name the template |
| `Template.MapScopeApply` | pkg/template/v2/template.go:118-132 | the outcome and the secret afterwards are those of `MapScopeRun`; the decoded pairs are written in the runtime's arbitrary order |
| `Template.MapScopeWritesDecodedPairs` | pkg/template/v2/template.go:118-131 | on success every decoded key holds its decoded value and every other key is unchanged, so the template's own key is not used; on a render or decode failure nothing is written |
| `Template.EntryRunSpec` | pkg/template/v2/template.go:107-131 | one entry fails exactly when its rendering (or, in KeysAndValues scope, its decoding) fails; a failing entry writes nothing; a succeeding one touches only its own key (Values) or its decoded keys (KeysAndValues) |
| `Template.FirstFailure` | pkg/template/v2/template.go:108-113 | the index of the first failing entry: every earlier entry succeeds and the entry at that index fails |
| `Template.EntriesStopAtFirstFailure` | pkg/template/v2/template.go:108-145 | in either scope the walk succeeds iff no entry fails; otherwise its error is the first failing entry's; the secret afterwards is exactly the prefix before that entry applied, with no rollback and nothing later applied |
| `Template.EntriesTouchOnlyWalkKeys` | pkg/template/v2/template.go:107-131 | a walk over the template map leaves every key outside the entries' own or decoded keys unchanged |
| `Template.ValuesWalkKeys` | pkg/template/v2/template.go:108-113 | in Values scope the keys a walk may write are exactly the template keys it visits |
| `Template.ValuesLaterEntriesUntouched` | pkg/template/v2/template.go:108-113 | in Values scope, the failing entry's key and every later key keep what the target held before the call |
| `Template.ValuesSuccessWritesEveryKey` | pkg/template/v2/template.go:107-116 | on success in Values scope every template key is present in the target map and holds the bytes its own template rendered to |
| `Template.EntriesUnknownTargetKeepSecret` | pkg/template/v2/template.go:86-104 | with an unrecognised target a walk in either scope leaves the secret unchanged, whatever its outcome |
| `Template.ValueScopeApply` | pkg/template/v2/template.go:107-116 | the outcome and the secret afterwards are those of the Values walk over the template map in the runtime's order |
| `Template.ExecuteNilTemplatesIsNoop` | pkg/template/v2/template.go:135-138 | a nil template map succeeds and leaves the secret unchanged, whatever the scope and target |
| `Template.ExecuteUnknownScope` | pkg/template/v2/template.go:139-154 | a scope other than Values or KeysAndValues is an error, raised before any write, also for an empty non-nil map; its message names 'Values' and 'KeysAndValues' |
| `Template.ExecuteUnknownTargetKeepsSecret` | pkg/template/v2/template.go:86-104 | Execute with an unrecognised target never changes the secret |
| `Template.Execute` | pkg/template/v2/template.go:135-156 | the outcome and the secret afterwards are those of `ExecuteRun`: the nil check, then the scope dispatch to the KeysAndValues loop or to valueScopeApply, and the unknown-scope error |
| `GithubGenerator.InstallationClaimsValues` | pkg/generator/github/github.go:188-193 | the issuer is the App id; issued-at is 10 s before the first clock reading and strictly before it; expiry is 300 s after the second; expiry minus issued-at is exactly 310 s with one clock value, and at least 310 s when the clock moves forward |
| `GithubGenerator.NumericDateShift` | pkg/generator/github/github.go:191-192 | truncating a time shifted by whole seconds to whole seconds shifts the result by the same number of seconds, and never rounds up |
| `GithubGenerator.NumericDateMonotone` | pkg/generator/github/github.go:191-192 | truncation to whole seconds preserves the order of times |
| `GithubGenerator.EndpointURLKeepsPath` | pkg/generator/github/github.go:167-171 | the URL is the default base or a non-empty spec URL, followed by `/app/installations/{installID}/access_tokens`; the override replaces only the base; the URL contains the installation id |
| `GithubGenerator.MissingKeyIsParseError` | pkg/generator/github/github.go:172-180 | a failed secret fetch is its own error; a key missing from the fetched secret gives no fetch error: the empty value goes to the parser, and its rejection is an RSA key parse error |
| `GithubGenerator.Github.constructor` | pkg/generator/github/github.go:159-165 | the client starts with the namespace, repositories and permissions of the spec, and with an empty URL and token |
| `GithubGenerator.NewGHClient` | pkg/generator/github/github.go:148-185 | fails exactly when `NewClient` does, with its error; on success it returns a new client whose URL, token, repositories and permissions are `NewClient`'s |
| `GithubGenerator.BuildPayload` | pkg/generator/github/github.go:92-98 | the payload built field by field equals `Payload` of the client's permissions and repositories |
| `GithubGenerator.PayloadFields` | pkg/generator/github/github.go:92-108 | "permissions" is in the payload iff the permissions map is non-nil (an empty one too); "repositories" is in it iff the list is non-empty; there is no other key; no body is sent iff both are absent |
| `GithubGenerator.RejectionCarriesStatus` | pkg/generator/github/github.go:132-137 | a status of 300 or more is always an error whose message contains the status code; it is `Rejected` and contains the response's message when that field is present, and otherwise contains "failed to extract error message" |
| `GithubGenerator.DecodeErrorFatalOnlyOn2xx` | pkg/generator/github/github.go:127-137 | an undecodable body gives the decode error iff the status is in [200, 300); at 300 or above it gives the message-less rejection; below 200 it gives the missing-token error |
| `GithubGenerator.TokenIsTheOnlyField` | pkg/generator/github/github.go:139-145 | below 300 with a decoded body, success holds iff "token" is present and is a string; the result is then exactly the field "token" holding its bytes, with nil provider state; otherwise the error is the missing-token one |
| `GithubGenerator.NilSpecConsultsNothing` | pkg/generator/github/github.go:81-83 | a nil spec yields "no config spec provided", and the outcome is the same whatever every collaborator would do |
| `GithubGenerator.ClientFailureSendsNothing` | pkg/generator/github/github.go:87-90 | when building the client fails, generate reports that error wrapped, and the outcome does not depend on the encoder, the request builder or the HTTP round trip |
| `GithubGenerator.GenerateSuccessShape` | pkg/generator/github/github.go:139-145 | a successful generate returns exactly one field, "token", and no provider state |
| `GithubGenerator.Generate` | pkg/generator/github/github.go:76-146 | the outcome of the early-return sequence (spec check, client, payload, body, request, round trip, decode, status and token checks) is `GenerateOutcome` |
| `GithubGenerator.Cleanup` | pkg/generator/github/github.go:72-74 | always returns no error, whatever the spec, provider state and namespace |

## Left out

- Go's `text/template` parsing and execution, the sprig function table, the delimiter flags and `missingkey=error` are not modelled. Rendering is the abstract `Engine.parse` and `Engine.run`. Because `Engine.run` is a function of the template name, text and values, it gives one outcome per template; sprig's impure functions (`now`, `randAlphaNum`, `uuidv4` and the like) can give different outputs when two `KeysAndValues` entries with the same template text are each rendered again (template.go:141-142), and the model does not capture that.
- The crypto template functions of `tplFuncs` (pkcs12, PEM, JWK, toYaml/fromYaml) and `FuncMap` are not modelled. Their bodies are not part of this model.
- The `init` functions are not modelled: removing `env`/`expandenv` from the sprig map, the pflag registration and the generator registration. This is process start-up over foreign libraries.
- YAML decoding of the rendered output and of the generator spec is not modelled. `Engine.unmarshal` and `Env.parseSpec` are abstract outcomes.
- RSA PEM parsing and RS256 JWT signing are not modelled. `Env.parseKey` and `Env.sign` are opaque outcomes.
- The Kubernetes secret fetch is not modelled. `Env.getSecret` returns the secret's data or a failure.
- HTTP client construction is not modelled: the default client when `httpClient` is nil and the 5 s client timeout. The 30 s context timeout, cancellation, request sending and body closing are left out too. These are I/O and concurrency; `Env.newRequest` and `Env.send` are outcomes.
- The exported `Generate` method is not modelled separately. It only forwards to `generate`, which `GithubGenerator.Generate` models.
- `GithubGenerator.Generate`: request headers are an ordered list of pairs. Go's canonicalised `http.Header` map is not modelled.
- `GithubGenerator.RejectionCarriesStatus`: how `%v` prints a non-string `message` value is not modelled. It is the opaque `JOther.shown`.
- `GithubGenerator.DecodeErrorFatalOnlyOn2xx`: when the body cannot be decoded, the decoded map is taken to be nil. Go's decoder checks a value's syntax before assigning it. A top-level non-object leaves a `map[string]any` nil. Not captured: a partial decode, where `encoding/json` records an error such as a number overflowing float64 (`{"message":"x","n":1e999}`), keeps filling the map and returns the error at the end; for a 404 Go then reports the rejection with message "x" (github.go:133-134), whereas `Undecodable` yields the message-less rejection.
- `GithubGenerator.InstallationClaimsValues`: times are integer nanoseconds since the Unix epoch. The monotonic clock reading that Go strips on truncation is not modelled.
- apis/generators/v1alpha1/register.go (scheme registration) and e2e/framework/addon/eso.go (the end-to-end Helm harness) have no behaviour to verify.
