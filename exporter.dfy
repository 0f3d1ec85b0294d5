/**
 * The `Exporter` of main.go: its construction (`NewExporter`), its scrape
 * (`scrape`) and its collect callback (`Collect`), with the Prometheus
 * channel as an append-only list of sent metrics and the `pacts` gauge vector
 * as a table from participant name to pact count.
 */
module Exporter {
  import opened Wrappers
  import opened Fetcher
  import opened Scrape

  /** The channel `Collect` is handed: it only ever receives metrics. */
  class Channel {
    var sent: seq<Metric>

    constructor ()
      ensures sent == []
    {
      sent := [];
    }

    method Send(m: Metric)
      modifies this
      ensures sent == old(sent) + [m]
    {
      sent := sent + [m];
    }
  }

  class Exporter {
    const uri: string
    /** The fetch function built around the HTTP client. */
    const fetch: string -> FetchResult
    /** The `total_scrapes` counter. */
    var totalScrapes: nat
    /** The `pacts{name}` gauge vector; it lives as long as the exporter. */
    var pacts: map<string, nat>
    /** Every request and every metric sent, in order. */
    ghost var history: seq<Event>

    constructor (uri: string, fetch: string -> FetchResult)
      ensures this.uri == uri && this.fetch == fetch
      ensures totalScrapes == 0 && pacts == map[] && history == []
    {
      this.uri := uri;
      this.fetch := fetch;
      totalScrapes := 0;
      pacts := map[];
      history := [];
    }

    /** `scrape`: one cycle. The counter goes up by one whatever happens;
        everything else is the cycle `ScrapeCycle` describes. */
    method Scrape(ch: Channel) returns (up: nat)
      modifies this, ch
      ensures totalScrapes == old(totalScrapes) + 1
      ensures var c := ScrapeCycle(fetch, old(pacts));
        && up == c.up
        && pacts == c.pacts
        && history == old(history) + c.trace
        && ch.sent == old(ch.sent) + Emitted(c.trace)
    {
      ghost var c := ScrapeCycle(fetch, pacts);
      totalScrapes := totalScrapes + 1;

      history := history + [Get(ParticipantsPath)];
      var reply := fetch(ParticipantsPath);
      if reply.FetchFailed? || reply.body.Unreadable? {
        ScrapeParticipantsFailure(fetch, pacts);
        return 0;
      }
      var names := reply.body.names;
      ghost var l := PactLoop(fetch, names, pacts);
      ghost var head := [Get(ParticipantsPath), Send(PacticipantsGauge(|names|))];
      assert c == Cycle(l.up, l.pacts, head + GetAll(l.gets));
      ScrapeEmitsCount(fetch, pacts, names);

      ch.Send(PacticipantsGauge(|names|));
      history := history + [Send(PacticipantsGauge(|names|))];
      assert history == old(history) + head;

      up := SetPactGauges(names);
      assert history == old(history) + (head + GetAll(l.gets));
    }

    /** The `for` loop of `scrape`: visit the participants in list order,
        fetch each one's pact list and set its gauge; stop with 0 at the
        first failed fetch or unreadable body, or end with 1. */
    method SetPactGauges(names: seq<string>) returns (up: nat)
      modifies this
      ensures totalScrapes == old(totalScrapes)
      ensures var l := PactLoop(fetch, names, old(pacts));
        && up == l.up
        && pacts == l.pacts
        && history == old(history) + GetAll(l.gets)
    {
      ghost var done: seq<string> := [];
      ResumesStart(fetch, names, pacts);
      var i := 0;
      while i < |names|
        invariant totalScrapes == old(totalScrapes)
        invariant history == old(history) + GetAll(done)
        invariant Resumes(fetch, names, old(pacts), i, pacts, done)
      {
        var path := PactsPath(names[i]);
        GetAllSnoc(done, path);
        history := history + [Get(path)];
        var pactReply := fetch(path);
        if pactReply.FetchFailed? || pactReply.body.Unreadable? {
          ResumesFail(fetch, names, old(pacts), i, pacts, done);
          done := done + [path];
          return 0;
        }
        ResumesNext(fetch, names, old(pacts), i, pacts, done);
        done := done + [path];
        pacts := pacts[names[i] := |pactReply.body.names|];
        i := i + 1;
      }
      ResumesEnd(fetch, names, old(pacts), pacts, done);
      up := 1;
    }

    /** `Collect`: a cycle, then the `up` metric with the value it returned. */
    method Collect(ch: Channel)
      modifies this, ch
      ensures totalScrapes == old(totalScrapes) + 1
      ensures pacts == ScrapeCycle(fetch, old(pacts)).pacts
      ensures history == old(history) + CollectTrace(fetch, old(pacts))
      ensures ch.sent == old(ch.sent) + Emitted(CollectTrace(fetch, old(pacts)))
    {
      ghost var c := ScrapeCycle(fetch, pacts);
      EmittedAppend(c.trace, [Send(UpGauge(c.up))]);
      assert Emitted([Send(UpGauge(c.up))]) == [UpGauge(c.up)];
      var up := Scrape(ch);
      ch.Send(UpGauge(up));
      history := history + [Send(UpGauge(up))];
    }
  }

  /** The schemes `NewExporter` accepts. */
  predicate SupportedScheme(scheme: string)
  {
    scheme == "http" || scheme == "https" || scheme == "file"
  }

  /** The prefix of the error `NewExporter` gives for any other scheme. */
  const UnsupportedPrefix: string := "unsupported scheme: "

  /** The scheme switch of `NewExporter`: no error for a supported scheme,
      and otherwise the message `unsupported scheme: "<scheme>"`. */
  function CheckScheme(scheme: string): (r: Option<string>)
    ensures r.None? <==> SupportedScheme(scheme)
    ensures r.Some? ==> |r.value| == |UnsupportedPrefix| + |scheme| + 2
    ensures r.Some? ==> r.value[..|UnsupportedPrefix|] == UnsupportedPrefix
    ensures r.Some? ==> r.value[|UnsupportedPrefix|] == '"' && r.value[|r.value| - 1] == '"'
    ensures r.Some? ==> r.value[|UnsupportedPrefix| + 1..|r.value| - 1] == scheme
  {
    if SupportedScheme(scheme) then None
    else Some(UnsupportedPrefix + "\"" + scheme + "\"")
  }

  /** Two rejected schemes give the same message only if they are the same
      scheme: the message names the scheme that was refused. */
  lemma CheckSchemeNamesScheme(a: string, b: string)
    requires !SupportedScheme(a) && CheckScheme(a) == CheckScheme(b)
    ensures a == b
  {
    var m := CheckScheme(a).value;
    assert m[|UnsupportedPrefix| + 1..|m| - 1] == a;
  }

  /** The fetch function `NewExporter` installs for `uri` over `net`. */
  function BrokerFetch(uri: string, net: string -> HttpReply): string -> FetchResult
  {
    endpoint => FetchHttp(uri, net, endpoint)
  }

  datatype ExporterError = ParseError | UnsupportedScheme(message: string)

  /** `NewExporter`: `scheme` is what `url.Parse` made of `uri` (None when it
      failed), and `net` is the broker as seen over the network. */
  method NewExporter(uri: string, scheme: Option<string>, net: string -> HttpReply)
    returns (r: Result<Exporter, ExporterError>)
    ensures scheme.None? ==> r == Err(ParseError)
    ensures scheme.Some? && !SupportedScheme(scheme.value) ==>
              r == Err(UnsupportedScheme(CheckScheme(scheme.value).value))
    ensures r.Ok? <==> scheme.Some? && SupportedScheme(scheme.value)
    ensures r.Ok? ==> fresh(r.value)
    ensures r.Ok? ==> r.value.uri == uri && r.value.totalScrapes == 0 && r.value.pacts == map[]
    ensures r.Ok? ==> r.value.fetch == BrokerFetch(uri, net)
    ensures r.Ok? ==> forall endpoint :: r.value.fetch(endpoint) == FetchHttp(uri, net, endpoint)
  {
    if scheme.None? {
      return Err(ParseError);
    }
    var refused := CheckScheme(scheme.value);
    if refused.Some? {
      return Err(UnsupportedScheme(refused.value));
    }
    var e := new Exporter(uri, BrokerFetch(uri, net));
    return Ok(e);
  }

  /** A broker that cannot be reached, or that answers `/pacticipants` with
      a status outside 2xx (a 500, say), gives a cycle that returns 0, sends
      nothing and leaves every pact gauge as it was. */
  lemma BrokerErrorAbortsCycle(uri: string, net: string -> HttpReply, pacts: map<string, nat>)
    requires var reply := net(uri + ParticipantsPath);
      reply.ConnFailed? || !IsSuccess(reply.status)
    ensures var c := ScrapeCycle(BrokerFetch(uri, net), pacts);
      c.up == 0 && c.pacts == pacts && Emitted(c.trace) == []
  {
    ScrapeParticipantsFailure(BrokerFetch(uri, net), pacts);
  }

  /** A broker listing participants A and B, with one pact for A and none
      for B, gives `up = 1`, a participant count of 2 and the gauges
      A = 1, B = 0, whatever the table held before. */
  lemma TwoParticipantsScenario(uri: string, net: string -> HttpReply, pacts: map<string, nat>)
    requires net(uri + ParticipantsPath) == Reply(200, Payload(["A", "B"]))
    requires net(uri + PactsPath("A")) == Reply(200, Payload(["p1"]))
    requires net(uri + PactsPath("B")) == Reply(200, Payload([]))
    ensures var c := ScrapeCycle(BrokerFetch(uri, net), pacts);
      && c.up == 1
      && Emitted(CollectTrace(BrokerFetch(uri, net), pacts)) == [PacticipantsGauge(2), UpGauge(1)]
      && c.pacts == pacts["A" := 1]["B" := 0]
  {
    var fetch := BrokerFetch(uri, net);
    var names := ["A", "B"];
    assert fetch(ParticipantsPath) == Fetched(Payload(names));
    assert PactFetchOk(fetch, names[0]) && PactCount(fetch, names[0]) == 1;
    assert PactFetchOk(fetch, names[1]) && PactCount(fetch, names[1]) == 0;
    assert names[1..][1..] == [];
    CollectMetrics(fetch, pacts);
  }
}
