# zabbix-fc client core, modelled in Dafny

zabbix-fc is a small Go command-line client for a Huawei FusionCompute
server. One run does the following:
- It checks its three flags, `-fcURL`, `-fcUser` and `-fcPassword`.
- It logs in with `POST {url}/session` and keeps the `X-Auth-Token` reply header as a process-wide token.
- It lists the hosts of site 1 with `GET .../sites/1/hosts?limit=100&offset=0`.
- It asks for their realtime metrics with `POST .../sites/1/monitors/realtimedata`. The query has one entry per host, each carrying the fixed catalog of 15 host metric ids.
- It flattens the decoded reply into lines `metricID{name="objectName"}=value`.

Every request after login goes through `CustomTransport`. With an empty token it refuses the request. Otherwise it appends the token, `Accept` and `Content-Type` headers and hands the request on.

The model keeps the source's form:

- `Transport.CustomTransport.RoundTrip` is a method.
  - It changes the request's header map in place (`Http.Request`).
  - It reads the token from a `Process` object that stands for the global `fcToken`.
  - It is proved against `Transport.RoundTripSpec`.
- `Payload.BuildPayload` is the appending loop. It is proved against `Payload.PayloadFor`.
- `Rendering.Render` is the nested loop writing into the string builder.
  - It is proved against `Rendering.RenderResult`.
  - The type assertion `MetricValue.(string)` becomes an explicit failure that names the first value that is not a string.
- `Pipeline.Run` is `main`, split in three methods: `Run`, `ListHosts` and `FetchMetrics`.
  - It assigns the token and issues the three requests.
  - It is proved equal to the function `Pipeline.RunSpec`.
- `Pipeline.RunSpec` has the property `WellSequenced`:
  - stages are reached in order;
  - a run fails exactly when it does not render;
  - the requests sent are the three endpoints in order: those of the stages reached, plus the failing step's own request exactly when that step got as far as sending it;
  - the token is empty until a successful login.
- The lemmas in `Pipeline` state what the run sends and when it stops.

The network, URL building and JSON decoding are parameters of the model. An `Environment` says whether each URL parses and how each request is answered. The answers are: unreachable, or a status and headers with a body that either decoded into the record types or did not.

Where the code and a plain reading of the program's purpose differ, the model follows the code:

- The status codes of the host-list and metric replies are never checked (main.go:166-214). Any reply whose body decodes is used.
- A host list that does not decode ends the run with a panic (main.go:176). A metric reply that does not decode ends it with a return (main.go:211-213). `Pipeline.Failure.Panics` tells the two apart.
- A non-string metric value panics (main.go:222). It is not converted to text.
- The flattened message is built but never printed (main.go:218-226), so the model describes the string, not any output.
- `Client.Post` sets `Content-Type: application/json` before the transport appends `application/json; charset=UTF-8`. The metric request therefore carries both values, in that order (`Pipeline.MetricsRequestCarriesPayload`).

The record types (`RespList`, `MonitorReqList`, `MonitorElement`, `MonitorRespList`) are defined outside main.go, which is the only file of this model. Their shapes in `Records` are taken from how main.go uses them.

## Model

| member | source | states |
|---|---|---|
| Http.GetAfterAdd | main.go:134 | After an Add, Get on that key yields the added value only when the key held none before, and every other key reads as before |
| Http.GetAfterSet | main.go:202 | After a Set, Get on that key yields the value set, and every other key reads as before |
| Http.Request.constructor | main.go:110 | http.NewRequest: a request with the given method, endpoint and body and an empty header map |
| Http.Add | main.go:115-120 | Appends the value to the key's list and leaves every other key's list unchanged |
| Http.Set | main.go:202 | Replaces the key's list by the single value and leaves every other key unchanged |
| Http.Request.AddHeader | main.go:66-68 | The request's header map becomes the old map with the value appended under the key |
| Http.Request.SetHeader | main.go:202 | The request's header map becomes the old map with the key's list replaced |
| Transport.Process.constructor | main.go:23 | The process-wide token starts empty |
| Transport.WithAuthHeaders | main.go:66-68 | X-Auth-Token, Accept and Content-Type each gain exactly one value at the end of their lists (token, the fixed Accept value, the fixed Content-Type value); every other header is unchanged |
| Transport.RoundTripSpec | main.go:61-72 | Refused exactly when the token is empty; otherwise forwarded with the same verb, endpoint and body and the three header lists each extended by one value |
| Transport.CustomTransport.RoundTrip | main.go:61-72 | With an empty token: refused, and the request's headers are untouched. Otherwise: the three headers are appended to the request's own map and that request is forwarded |
| Records.CatalogShapes | main.go:27-55 | The host catalog has 15 distinct ids, the VM catalog 9 distinct ids, and the two differ |
| Payload.PayloadFor | main.go:186-192 | One entry per host, in host order; entry i has host i's urn and exactly the host catalog |
| Payload.BuildPayload | main.go:186-192 | The loop's result is PayloadFor of the host list |
| Payload.PayloadNeverUsesVmMetrics | main.go:186-192 | Every entry carries the host catalog and never the VM catalog; the query is empty exactly when the host list is |
| Rendering.Line | main.go:222 | Defines the line written per value: metric id, `{name="`, object name, `"}=`, the string value, a line break |
| Rendering.Flatten | main.go:218-224 | Defines the builder's text when every value is a string: the lines of the items in order, each item's lines in value order |
| Rendering.ItemResult | main.go:221-223 | One item's text when every value is a string, else the index of its first non-string value, before which all are strings |
| Rendering.RenderResult | main.go:218-224 | Succeeds exactly when every value of every item is a string, with the flattened text; otherwise fails at the first non-string value in iteration order |
| Rendering.FirstNonStringUnique | main.go:220-222 | The first non-string value in iteration order is unique |
| Rendering.FailsAtFirstNonString | main.go:222 | The flattening fails at exactly the first non-string value |
| Rendering.FlattenStep | main.go:220-224 | Finishing one more all-string item appends that item's lines to the text |
| Rendering.ItemTextStep | main.go:221-223 | Writing one more string value appends its line to the item's text |
| Rendering.Render | main.go:218-224 | The nested loops compute RenderResult: the flattened text, or the position of the value whose type assertion panics |
| Rendering.FlattenAppend | main.go:220-224 | Flattening a concatenation of replies is the concatenation of their flattenings |
| Rendering.LineHasOneBreak | main.go:222 | A value whose id, object name and text hold no line break yields exactly one line break |
| Rendering.ItemLineCount | main.go:221-223 | An item yields as many line breaks as it has values |
| Rendering.OneLinePerValue | main.go:218-224 | The flattened text has exactly as many lines as the reply has values |
| Pipeline.Failure.Panics | main.go:176 | Defines the failures that panic rather than return: an undecodable host list and a non-string metric value (main.go:222) |
| Pipeline.LoginHeaders | main.go:115-120 | Defines the login headers as the six Adds in the order main makes them |
| Pipeline.MetricsRequest | main.go:202 | Defines the metric query as Client.Post hands it on: a POST to the realtime-data endpoint with Content-Type set to application/json and the query for the hosts as body |
| Pipeline.LoginHeadersCarryCredentials | main.go:115-120 | The login request carries Accept, Content-Type, Accept-Language zh_CN, the user, the password and X-Auth-UserType 0 once each, and no token |
| Pipeline.RunSpec | main.go:98-224 | Every run is well sequenced, and the login request is always the first request sent |
| Pipeline.LoginSpec | main.go:122-134 | A run past the session request either stops unauthenticated or goes on authenticated; the login request goes first |
| Pipeline.LoginReplySpec | main.go:122-134 | With the login request sent, the run either stops unauthenticated or goes on authenticated, keeping the login as first request |
| Pipeline.ListHostsSpec | main.go:154-177 | From login on, the token is kept, and the host request is sent only with a non-empty token, authorised by the transport |
| Pipeline.HostsReplySpec | main.go:166-177 | An unreachable host server stops the run authenticated with the two requests so far; an undecodable list stops it with HostsUndecodable, a panic; the metric query goes out exactly when the list decodes |
| Pipeline.FetchMetricsSpec | main.go:186-202 | From the decoded host list on, the metric query always goes out as the third request, and it is the authorised query for exactly those hosts |
| Pipeline.MetricsReplySpec | main.go:202-214 | An unreachable server stops the run with MetricsRequestFailed and an undecodable reply with MetricsUndecodable, both returns (no panic) with the hosts listed; the flattening is reached exactly when the reply decodes |
| Pipeline.RenderStageSpec | main.go:209-224 | The run renders exactly when every value is a string, with the flattened text as message; otherwise it stops at the first non-string value |
| Pipeline.Run | main.go:98-144 | main computes RunSpec and leaves the process token equal to the run's token |
| Pipeline.ListHosts | main.go:150-183 | The host stage through the transport computes ListHostsSpec |
| Pipeline.FetchMetrics | main.go:185-224 | The metric stage builds the query, posts it and flattens the reply as FetchMetricsSpec says |
| Pipeline.MissingFlagStopsBeforeAnyRequest | main.go:98-101 | The run fails on a flag exactly when a flag is empty, and then sends nothing and keeps the empty token |
| Pipeline.LoginGoesOutFirstWithoutToken | main.go:109-122 | The first request is the login, with the user and password and no token |
| Pipeline.RejectedLoginStopsRun | main.go:129-132 | A login answered with a status other than 200 ends the run after the login alone, with the token empty |
| Pipeline.TokenComesFromLoginReply | main.go:129-134 | A run gets past login exactly when the flags are set, the session request is built and the login answers 200; the token is then the reply's X-Auth-Token |
| Pipeline.EmptyTokenRefusedBeforeNetwork | main.go:62-64 | A 200 login without X-Auth-Token stops the run at the host request, which the transport refuses, so only the login was sent |
| Pipeline.HostsRequestCarriesToken | main.go:166 | The host request is a GET without body, carrying the non-empty token, Accept and Content-Type exactly once each, and no other header |
| Pipeline.HostsStageReached | main.go:129-166 | A run that sends the host request got a 200 login with a non-empty token, which it keeps |
| Pipeline.HostReplyDecidesRun | main.go:166-177 | Once the host request is out: an unreachable server ends the run with two requests sent, an undecodable list ends it with a panic, and the metric query goes out exactly when the list decodes |
| Pipeline.MetricReplyDecidesRun | main.go:202-214 | Once the metric query is out: an unreachable server or an undecodable reply ends the run with a return, not a panic, with the hosts listed; the flattening is reached exactly when the reply decodes |
| Pipeline.MetricsQuerySentExactlyWhen | main.go:98-202 | The metric query goes out exactly when the flags are set, the session request is built, the login answers 200 with a token, the host URL is built and the host list decodes |
| Pipeline.MetricsStageReached | main.go:166-202 | A run that sends the metric query got a decoded host list and a non-empty token |
| Pipeline.AuthorizedMetricsHeaders | main.go:202 | The forwarded metric query carries the token once and the two Content-Type values in order |
| Pipeline.MetricsRequestCarriesPayload | main.go:186-202 | The metric request is a POST of the query for exactly the decoded hosts, with the token and both Content-Type values |
| Pipeline.EmptyHostListSendsEmptyQuery | main.go:186-192 | When every earlier step succeeds with an empty host list, the metric query still goes out, and it is empty |
| Pipeline.SuccessfulRunRenders | main.go:98-224 | A run whose every step succeeds and whose reply holds only strings completes, with the flattened reply as message |
| Pipeline.CompletedRunRendersReply | main.go:209-224 | Once the reply decodes, the run completes exactly when every value is a string, with the flattened reply as message; otherwise it stops at the first non-string value |

## Left out

- TLS configuration with certificate checks switched off (main.go:104-107), the inner transport and the network are not modelled. What the network answers is a parameter (`Environment`).
- JSON encoding and decoding are a foreign library. Decoded replies are given as datatypes, and a decode failure is one outcome per reply.
- The encode-error branch (main.go:194-198) is left out. Encoding a list of urn and id-list records cannot fail, so the branch is unreachable.
- `url.JoinPath`, `url.Parse` and `url.Values.Encode` (main.go:109, 139-164, 200-201) are library URL handling. Two booleans stand for them: whether the session request and the host URL could be built. Endpoints are named, not spelled as URLs.
- Flag parsing, the debug level and all `slog` logging (main.go:74-97, 179-183) are process plumbing, so the model leaves them out.
- Closing of reply bodies (`defer resp.Body.Close()`) is not modelled.
- Canonicalisation of header names by Go's `http.Header` is not modelled. Keys are compared as the program spells them; Go stores `X-Auth-UserType` as `X-Auth-Usertype`, and header names are case-insensitive on the wire.
- Formatting of non-string metric values with `%s` is not modelled. The type assertion panics before any such value would be formatted.
- The distinction between a panic and a return is kept only as `Pipeline.Failure.Panics`. Stack unwinding and deferred calls are not modelled.
- All ways a request can fail to reach the server are one outcome, `Unreachable`. Redirects that `http.Client` might follow are not modelled.
- Sharing of the `hostMetrics` slice among all entries (the same backing array) is not modelled. Each entry holds the catalog as a value, which is indistinguishable while nobody writes to it.
- `VmMetrics` is declared (main.go:45-55) and never used. The model keeps it only to show that no query carries it.
- `Http.Header`: the order in which different header names were first added is not observable in the model. It is not observable through Go's `http.Header` either, which is a map.
