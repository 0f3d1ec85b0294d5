# pactbroker_exporter: the scrape cycle, in Dafny

This project models the core of `pactbroker_exporter`, a Prometheus exporter for a
Pact Broker, and proves properties of that model.

The exporter (main.go) does its work in `Collect`. That callback runs one **scrape cycle**
and then sends the `up` metric on the Prometheus channel. A cycle does four things, in order:

1. It raises the `total_scrapes` counter.
2. It fetches `/pacticipants` and sends the participant count on the channel.
3. It walks the participants in list order. For each one it fetches
   `/pacts/provider/<name>` and sets that name's `pacts{name}` gauge to the
   number of `pb:pacts` entries.
4. It returns `up = 1` when it reaches the end of the list.

A failed fetch, or a body that cannot be read, ends the cycle with `up = 0`. This holds for
the participant list and for every participant's pact list.

The fetch function built by `fetchHTTP` requests `uri + endpoint` and accepts only a 2xx
status. `NewExporter` accepts only the URL schemes `http`, `https` and `file`.

The earlier start-up variant (src/pactbroker_exporter.go) is modelled too:

- `getEnv` reads a setting, falling back to a default.
- `checkPacticipants` counts the participants once, with early error returns.
- `main` sets `up` to 1, then raises the `pacticipants_total` counter once per participant.

Modules:

- `Wrappers`: Option and Result.
- `Fetcher`: the fetch function of `fetchHTTP`, over a network oracle.
- `Scrape`: the scrape cycle as a function of the fetch function and of the gauge table, and the lemmas about it.
- `Exporter`: the `Exporter` class, with its `Scrape`, its per-participant loop and `Collect`. Also the `Channel` class, `NewExporter` and its scheme check.
- `Startup`: the start-up variant.

How the outside world is represented:

- The network is an input. `Fetcher` takes an oracle from absolute URL to reply: a transport
  error, or a status and a body.
- A body is already read and decoded. It is either unreadable, or the list of names the JSON
  decoder filled in.
- The exporter keeps the resulting fetch function as a constant field. So within one
  exporter, the broker answers each endpoint the same way every time.
- The Prometheus channel is a `Channel` object with an append-only list of sent metrics.
- The `pacts` gauge vector is a `map<string, nat>` field.
- The counter is a `nat` field.
- A ghost `history` on the exporter records every request and every sent metric, in the
  order they happen. This lets the contracts state which requests and sends come first.

How failures inside the loop are handled:

- A failed per-participant pact fetch or body read **aborts** the cycle with `up = 0`
  (main.go:150-160). It does not skip to the next participant.
- The participants visited before the failure keep their new gauge values. The failing
  participant and all later ones are untouched.

## Model

| member | source | states |
|---|---|---|
| `Fetcher.FetchHttp` | main.go:176-186 | The fetch succeeds exactly when the network gave a response for `uri + endpoint` with a status in [200,300). On success it returns that response's body. A transport error comes back as a transport error. Any other status comes back as an error carrying that status code. |
| `Fetcher.SuccessIsStatusClassTwo` | main.go:181 | For any non-negative status, the success test is the same as the status's hundreds digit being 2 (the "2xx" class). |
| `Fetcher.FetchHttpReadsOnlyItsUrl` | main.go:177 | The fetch consults the network only at the URL `uri + endpoint`. Two networks that agree there give the same result. |
| `Scrape.FirstFailure` | main.go:146-160 | The index of the first participant whose pact fetch or body read fails, or the list length if none fails. Every participant before it succeeds, and the one at it fails. |
| `Scrape.PactLoopUp` | main.go:150-160 | The loop returns 1 exactly when no participant's pact fetch fails, and 0 exactly when one does. |
| `Scrape.PactLoopGets` | main.go:146-150 | The loop requests `/pacts/provider/<name>`, name unescaped, for each participant in list order. It stops after the first failing participant: up to and including the failing one, or the whole list if none fails. |
| `Scrape.PactLoopKeys` | main.go:146-163 | After the loop, the table's keys are the old keys plus the names before the first failure. No name is ever removed. |
| `Scrape.PactLoopValues` | main.go:157-163 | Every participant before the first failure ends with the size of its `pb:pacts` list. Every other name keeps its old value. This includes the failing participant and later ones, unless they were listed earlier too. |
| `Scrape.ScrapeEmitsCount` | main.go:141-144 | When the participant list was read, the cycle sends exactly one metric on the channel: the number of decoded participants. |
| `Scrape.ScrapeParticipantsFailure` | main.go:129-139 | When the `/pacticipants` fetch fails or its body cannot be read, the cycle returns 0, has made only that one request, sends nothing and leaves the gauge table unchanged. |
| `Scrape.ScrapeCycleTrace` | main.go:124-167 | When the participant list decodes to `names`, the events come in this order: the `/pacticipants` request, then the count metric for all of `names`, and only then the pact requests, in list order, up to the first failing participant. The cycle returns 1 exactly when no pact fetch fails. |
| `Scrape.ScrapeCycleTable` | main.go:146-165 | When the participant list decodes to `names`, the participants before the first failure get their pact counts. All other names keep their previous values, and no name is removed. |
| `Scrape.ScrapeEmptyList` | main.go:141-146 | A participant list that decodes to nothing gives a successful cycle. It sends the count 0, makes no pact request and leaves the table unchanged. |
| `Scrape.ScrapeIdempotent` | main.go:124-167 | Against an unchanged broker, a second cycle gives the same return value, the same events and the same table as the first. |
| `Scrape.CollectMetrics` | main.go:98-105 | One `Collect` sends the participant count when the participant list was read, and then, last, `up` with the value the cycle returned. When the list could not be fetched or read, it sends only `up = 0`. |
| `Exporter.Exporter.constructor` | main.go:52-84 | A new exporter keeps its URI and fetch function, and starts with a zero scrape counter, an empty gauge table and no history. |
| `Exporter.Exporter.Scrape` | main.go:124-167 | `total_scrapes` rises by exactly one, whatever the outcome. The return value, the new gauge table, the events added to the history and the metrics added to the channel are exactly those of `ScrapeCycle` on the old table. |
| `Exporter.Exporter.SetPactGauges` | main.go:146-166 | The `for` loop leaves the counter alone. Its return value, gauge table and requests are exactly those of `PactLoop` on the old table. |
| `Exporter.Exporter.Collect` | main.go:98-105 | After the cycle, `up` is sent with the cycle's return value, after everything the cycle sent. The counter rises by one, and the table is the cycle's. |
| `Exporter.CheckScheme` | main.go:45-50 | No error exactly when the scheme is `http`, `https` or `file`. Otherwise the message is `unsupported scheme: ` followed by the scheme in double quotes. |
| `Exporter.CheckSchemeNamesScheme` | main.go:49 | Two refused schemes with the same message are the same scheme. |
| `Exporter.NewExporter` | main.go:38-85 | A URL that does not parse gives the parse error. An unsupported scheme gives the unsupported-scheme error. It succeeds exactly when the scheme is supported. A new exporter has zero scrapes and an empty table, and its fetch is `fetchHTTP` for `uri` at every endpoint. |
| `Exporter.BrokerErrorAbortsCycle` | main.go:129-133 | A broker that cannot be reached, or that answers `/pacticipants` with a status outside 2xx, gives a cycle that returns 0, sends nothing and leaves every gauge as it was. |
| `Exporter.TwoParticipantsScenario` | main.go:124-167 | The broker lists A (one pact) and B (no pacts). `Collect` sends the count 2 and then `up = 1`, and the table ends with A = 1 and B = 0. |
| `Startup.GetEnv` | src/pactbroker_exporter.go:49-55 | An empty or unset variable gives the default. A non-empty value is returned unchanged. |
| `Startup.GetEnvNeverEmpty` | src/pactbroker_exporter.go:49-55 | With a non-empty default, the setting is never empty. |
| `Startup.GetEnvOverride` | src/pactbroker_exporter.go:50-54 | A non-empty value overrides the default. A variable set to "" reads the same as an unset one. |
| `Startup.CheckPacticipants` | src/pactbroker_exporter.go:57-74 | A failed GET of `<data source>/pacticipants` gives exactly (0, GET error). An unreadable body gives exactly (0, read error). A missing `pacticipants` array panics. Otherwise it returns the array's length with no error. Every error return has count 0. |
| `Startup.StartupMetrics.Run` | src/pactbroker_exporter.go:76-87 | `up` is 1 whatever the check gives. On success the counter has grown by exactly the returned count and the process goes on to serve. On an error it ends fatally, and on a panic it crashes; in both cases the counter is unchanged. |

## Left out

- `Describe` (main.go:88-95) only hands metric descriptors to the registry. It has no logic.
- The `sync.RWMutex` in `Collect` only serialises concurrent collections. The model is sequential.
- The HTTP client is replaced by the network oracle: the request, the timeout, `InsecureSkipVerify` and every `Close` of a body, including the deferred closes inside the loop.
- The JSON decoder is replaced by the decoded list. The discarded decode error is not represented, and neither is a partly decoded body: a body is whatever list the decoder left behind.
- `url.Parse` is replaced by its outcome, the scheme or a parse failure, given as an input.
- `Exporter.CheckScheme`: the message quotes the scheme with plain double quotes. Go's `%q` escaping of special characters is not modelled.
- Gauge values are `float64` in the source. All of them are counts converted to float, so the model uses `nat`.
- The Prometheus library is not modelled: metric descriptors, registration through `promauto` and the exposition of `total_scrapes` and of the `pacts` gauges by the default registry.
- Both `main` functions' flag, kingpin and environment parsing, logging, the HTML landing page and `ListenAndServe` are not modelled. `log.Fatal` after `checkPacticipants` is the `Fatal` outcome.
- `Exporter.Exporter.Collect`: the exporter's fetch function is a constant, so two `Collect`s on one exporter always see the same broker. That a name missing from a later participant list keeps its old gauge is proved only for the cycle function, by `Scrape.ScrapeCycleTable` over any table and any fetch, not for a sequence of `Collect`s on one object.
- `Scrape.PactLoopValues`: the fetch is a fixed function of the endpoint. So a name listed twice is written twice with the same count, and "the last write wins" only shows in that form. A broker that changes between two requests is not modelled.
- `Startup.CheckPacticipants`: the JSON body is given as the length of its top-level `pacticipants` array, or its absence. The real broker nests that list under `_embedded`, so against it the type assertion panics; the model shows this only as the `Panicked` outcome.
