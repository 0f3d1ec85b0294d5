/**
 * The scrape cycle of `Exporter.scrape` (main.go) as a function of the
 * fetch function and of the pact gauge table before the cycle.
 *
 * A cycle fetches `/pacticipants`, sends the participant-count metric, then
 * fetches `/pacts/provider/<name>` for each participant in list order and
 * sets that participant's pact gauge. The first failed fetch or unreadable
 * body ends the cycle with `up = 0`; reaching the end of the list gives
 * `up = 1`.
 */
module Scrape {
  import opened Fetcher

  /** What the Prometheus channel receives from the exporter. */
  datatype Metric = PacticipantsGauge(count: nat) | UpGauge(value: nat)

  /** One observable step of a cycle: a request to the broker or a metric
      sent on the channel, in the order they happen. */
  datatype Event = Get(endpoint: string) | Send(metric: Metric)

  /** The outcome of the per-participant loop: the value `scrape` returns,
      the gauge table afterwards and the endpoints requested in order. */
  datatype LoopResult = LoopResult(up: nat, pacts: map<string, nat>, gets: seq<string>)

  /** The outcome of one cycle: the value `scrape` returns, the gauge table
      afterwards and the events of the cycle in order. */
  datatype Cycle = Cycle(up: nat, pacts: map<string, nat>, trace: seq<Event>)

  const ParticipantsPath: string := "/pacticipants"
  const PactsPrefix: string := "/pacts/provider/"

  /** The endpoint of a participant's pact list; the name is not escaped. */
  function PactsPath(name: string): string
  {
    PactsPrefix + name
  }

  /** The pact fetch for `name` succeeded and its body was read. */
  predicate PactFetchOk(fetch: string -> FetchResult, name: string)
  {
    fetch(PactsPath(name)).Fetched? && fetch(PactsPath(name)).body.Payload?
  }

  /** The number of `pb:pacts` entries decoded for `name`. */
  function PactCount(fetch: string -> FetchResult, name: string): nat
    requires PactFetchOk(fetch, name)
  {
    |fetch(PactsPath(name)).body.names|
  }

  /** The per-participant loop of `scrape`, over the participants still to
      be visited. */
  function PactLoop(fetch: string -> FetchResult, names: seq<string>, pacts: map<string, nat>): LoopResult
    decreases |names|
  {
    if names == [] then LoopResult(1, pacts, [])
    else
      var path := PactsPath(names[0]);
      match fetch(path)
      case Fetched(Payload(entries)) =>
        var rest := PactLoop(fetch, names[1..], pacts[names[0] := |entries|]);
        LoopResult(rest.up, rest.pacts, [path] + rest.gets)
      case _ => LoopResult(0, pacts, [path])
  }

  /** The loop invariant of `scrape`'s `for` loop: having visited the
      first `i` participants from table `start`, reaching table `pacts` and
      having requested `done`, the rest of the loop from here yields what
      the whole loop yields. */
  ghost predicate Resumes(fetch: string -> FetchResult, names: seq<string>, start: map<string, nat>,
                          i: nat, pacts: map<string, nat>, done: seq<string>)
  {
    && i <= |names|
    && var full := PactLoop(fetch, names, start);
       var rest := PactLoop(fetch, names[i..], pacts);
       full.up == rest.up && full.pacts == rest.pacts && full.gets == done + rest.gets
  }

  lemma ResumesStart(fetch: string -> FetchResult, names: seq<string>, start: map<string, nat>)
    ensures Resumes(fetch, names, start, 0, start, [])
  {
    assert names[0..] == names;
  }

  /** A participant whose pact list was read: its gauge is set and the loop
      goes on with the next one. */
  lemma ResumesNext(fetch: string -> FetchResult, names: seq<string>, start: map<string, nat>,
                    i: nat, pacts: map<string, nat>, done: seq<string>)
    requires Resumes(fetch, names, start, i, pacts, done)
    requires i < |names| && PactFetchOk(fetch, names[i])
    ensures Resumes(fetch, names, start, i + 1, pacts[names[i] := PactCount(fetch, names[i])],
                    done + [PactsPath(names[i])])
  {
    assert names[i..][0] == names[i] && names[i..][1..] == names[i + 1..];
    var rest := PactLoop(fetch, names[i + 1..], pacts[names[i] := PactCount(fetch, names[i])]);
    assert done + ([PactsPath(names[i])] + rest.gets) == (done + [PactsPath(names[i])]) + rest.gets;
  }

  /** A participant whose pact fetch failed ends the loop with 0, after its
      own request. */
  lemma ResumesFail(fetch: string -> FetchResult, names: seq<string>, start: map<string, nat>,
                    i: nat, pacts: map<string, nat>, done: seq<string>)
    requires Resumes(fetch, names, start, i, pacts, done)
    requires i < |names| && !PactFetchOk(fetch, names[i])
    ensures PactLoop(fetch, names, start) == LoopResult(0, pacts, done + [PactsPath(names[i])])
  {
    assert names[i..][0] == names[i];
  }

  /** Past the last participant the loop ends with 1. */
  lemma ResumesEnd(fetch: string -> FetchResult, names: seq<string>, start: map<string, nat>,
                   pacts: map<string, nat>, done: seq<string>)
    requires Resumes(fetch, names, start, |names|, pacts, done)
    ensures PactLoop(fetch, names, start) == LoopResult(1, pacts, done)
  {
    assert names[|names|..] == [];
    assert done + [] == done;
  }

  /** The requests of a list of endpoints, as events. */
  function GetAll(paths: seq<string>): (es: seq<Event>)
  {
    seq(|paths|, i requires 0 <= i < |paths| => Get(paths[i]))
  }

  /** Requesting one more endpoint adds one event at the end. */
  lemma GetAllSnoc(paths: seq<string>, path: string)
    ensures GetAll(paths + [path]) == GetAll(paths) + [Get(path)]
  {
  }

  /** One call of `scrape` against `fetch`, starting from gauge table
      `pacts`. */
  function ScrapeCycle(fetch: string -> FetchResult, pacts: map<string, nat>): Cycle
  {
    match fetch(ParticipantsPath)
    case Fetched(Payload(names)) =>
      var l := PactLoop(fetch, names, pacts);
      Cycle(l.up, l.pacts, [Get(ParticipantsPath), Send(PacticipantsGauge(|names|))] + GetAll(l.gets))
    case _ => Cycle(0, pacts, [Get(ParticipantsPath)])
  }

  /** The metrics sent on the channel during `trace`, in order. */
  function Emitted(trace: seq<Event>): seq<Metric>
  {
    if trace == [] then []
    else if trace[0].Send? then [trace[0].metric] + Emitted(trace[1..])
    else Emitted(trace[1..])
  }

  /** The index of the first participant whose pact fetch or body read
      fails, or the length of the list when none does. */
  function FirstFailure(fetch: string -> FetchResult, names: seq<string>): (k: nat)
    ensures k <= |names|
    ensures forall i :: 0 <= i < k ==> PactFetchOk(fetch, names[i])
    ensures k < |names| ==> !PactFetchOk(fetch, names[k])
  {
    if names == [] then 0
    else if PactFetchOk(fetch, names[0]) then 1 + FirstFailure(fetch, names[1..])
    else 0
  }

  /** The number of pact fetches made by a loop whose first failure is at
      index `k` of `n` participants: the failing one is fetched too. */
  function Attempts(k: nat, n: nat): nat
  {
    if k < n then k + 1 else n
  }

  /** The loop returns 1 exactly when no participant's pact fetch fails,
      and 0 otherwise. */
  lemma {:induction false} PactLoopUp(fetch: string -> FetchResult, names: seq<string>, pacts: map<string, nat>)
    ensures var l := PactLoop(fetch, names, pacts);
      && (l.up == 1 <==> FirstFailure(fetch, names) == |names|)
      && (l.up == 0 <==> FirstFailure(fetch, names) < |names|)
    decreases |names|
  {
    if names != [] && PactFetchOk(fetch, names[0]) {
      PactLoopUp(fetch, names[1..], pacts[names[0] := PactCount(fetch, names[0])]);
    }
  }

  /** The loop requests the pact lists of the participants up to and
      including the first failing one, in list order, at
      `/pacts/provider/<name>`. */
  lemma {:induction false} PactLoopGets(fetch: string -> FetchResult, names: seq<string>, pacts: map<string, nat>)
    ensures var l := PactLoop(fetch, names, pacts);
      && |l.gets| == Attempts(FirstFailure(fetch, names), |names|)
      && (forall i :: 0 <= i < |l.gets| ==> l.gets[i] == PactsPath(names[i]))
    decreases |names|
  {
    if names != [] && PactFetchOk(fetch, names[0]) {
      var rest := names[1..];
      var pacts' := pacts[names[0] := PactCount(fetch, names[0])];
      PactLoopGets(fetch, rest, pacts');
      var l' := PactLoop(fetch, rest, pacts');
      assert PactLoop(fetch, names, pacts).gets == [PactsPath(names[0])] + l'.gets;
      forall i | 1 <= i < 1 + |l'.gets|
        ensures ([PactsPath(names[0])] + l'.gets)[i] == PactsPath(names[i])
      {
        assert names[i] == rest[i - 1];
      }
    }
  }

  /** The loop adds to the table exactly the participants before the first
      failing one; it never removes a name. */
  lemma {:induction false} PactLoopKeys(fetch: string -> FetchResult, names: seq<string>, pacts: map<string, nat>)
    ensures PactLoop(fetch, names, pacts).pacts.Keys == pacts.Keys + (set n | n in names[..FirstFailure(fetch, names)])
    decreases |names|
  {
    var k := FirstFailure(fetch, names);
    if names != [] && PactFetchOk(fetch, names[0]) {
      var rest := names[1..];
      var pacts' := pacts[names[0] := PactCount(fetch, names[0])];
      PactLoopKeys(fetch, rest, pacts');
      assert names[..k] == [names[0]] + rest[..FirstFailure(fetch, rest)];
    } else {
      assert names[..k] == [];
    }
  }

  /** Every participant before the first failing one ends with its pact
      count (a name listed twice ends with its last write, which here is
      the same count); every other name keeps its old value. */
  lemma {:induction false} PactLoopValues(fetch: string -> FetchResult, names: seq<string>, pacts: map<string, nat>)
    ensures var l := PactLoop(fetch, names, pacts);
      var k := FirstFailure(fetch, names);
      && (forall i :: 0 <= i < k ==> names[i] in l.pacts && l.pacts[names[i]] == PactCount(fetch, names[i]))
      && (forall n :: n in pacts && n !in names[..k] ==> n in l.pacts && l.pacts[n] == pacts[n])
    decreases |names|
  {
    var k := FirstFailure(fetch, names);
    if names != [] && PactFetchOk(fetch, names[0]) {
      var rest := names[1..];
      var pacts' := pacts[names[0] := PactCount(fetch, names[0])];
      PactLoopValues(fetch, rest, pacts');
      var l' := PactLoop(fetch, rest, pacts');
      var k' := FirstFailure(fetch, rest);
      assert PactLoop(fetch, names, pacts).pacts == l'.pacts;
      assert names[..k] == [names[0]] + rest[..k'];
      forall i | 0 <= i < k
        ensures names[i] in l'.pacts && l'.pacts[names[i]] == PactCount(fetch, names[i])
      {
        if i > 0 {
          assert names[i] == rest[i - 1];
        } else if names[0] in rest[..k'] {
          var j :| 0 <= j < k' && rest[j] == names[0];
          assert l'.pacts[rest[j]] == PactCount(fetch, rest[j]);
        }
      }
    } else {
      assert names[..k] == [];
    }
  }

  /** The metrics of a trace that starts with `e`: those of `e`, then those
      of the rest. */
  lemma EmittedCons(e: Event, rest: seq<Event>)
    ensures Emitted([e] + rest) == (if e.Send? then [e.metric] else []) + Emitted(rest)
  {
    assert ([e] + rest)[0] == e;
    assert ([e] + rest)[1..] == rest;
  }

  /** Sending is observed in order: the metrics of two consecutive stretches
      of a trace are those of the first followed by those of the second. */
  lemma {:induction false} EmittedAppend(a: seq<Event>, b: seq<Event>)
    ensures Emitted(a + b) == Emitted(a) + Emitted(b)
    decreases |a|
  {
    if a != [] {
      assert a == [a[0]] + a[1..];
      assert a + b == [a[0]] + (a[1..] + b);
      EmittedCons(a[0], a[1..]);
      EmittedCons(a[0], a[1..] + b);
      EmittedAppend(a[1..], b);
    } else {
      assert a + b == b;
    }
  }

  /** Requests send nothing on the channel. */
  lemma {:induction false} EmittedGetAll(paths: seq<string>)
    ensures Emitted(GetAll(paths)) == []
    decreases |paths|
  {
    if paths != [] {
      EmittedGetAll(paths[1..]);
      assert GetAll(paths)[1..] == GetAll(paths[1..]);
    }
  }

  /** A cycle whose participant list was read sends exactly one metric,
      the number of decoded participants. */
  lemma ScrapeEmitsCount(fetch: string -> FetchResult, pacts: map<string, nat>, names: seq<string>)
    requires fetch(ParticipantsPath) == Fetched(Payload(names))
    ensures Emitted(ScrapeCycle(fetch, pacts).trace) == [PacticipantsGauge(|names|)]
  {
    var l := PactLoop(fetch, names, pacts);
    var head := [Get(ParticipantsPath), Send(PacticipantsGauge(|names|))];
    assert ScrapeCycle(fetch, pacts).trace == head + GetAll(l.gets);
    EmittedAppend(head, GetAll(l.gets));
    EmittedGetAll(l.gets);
    assert head[1..][1..] == [];
  }

  /** A failed or unreadable `/pacticipants` fetch ends the cycle with 0,
      after that single request, sending nothing and leaving the gauge table
      as it was. */
  lemma ScrapeParticipantsFailure(fetch: string -> FetchResult, pacts: map<string, nat>)
    requires !(fetch(ParticipantsPath).Fetched? && fetch(ParticipantsPath).body.Payload?)
    ensures var c := ScrapeCycle(fetch, pacts);
      && c.up == 0 && c.pacts == pacts && c.trace == [Get(ParticipantsPath)]
      && Emitted(c.trace) == []
  {
  }

  /** One cycle whose participant list decodes to `names`, with `k` the
      index of the first participant whose pact fetch fails:
      - the first request is `/pacticipants`, then the participant count is
        sent, and only then are the pact lists requested, in list order, up
        to and including participant `k`;
      - the count sent is the number of decoded participants, and nothing
        else is sent;
      - the cycle returns 1 exactly when no pact fetch fails, and 0
        otherwise. */
  lemma ScrapeCycleTrace(fetch: string -> FetchResult, pacts: map<string, nat>, names: seq<string>)
    requires fetch(ParticipantsPath) == Fetched(Payload(names))
    ensures var c := ScrapeCycle(fetch, pacts);
      var k := FirstFailure(fetch, names);
      && (c.up == 1 <==> k == |names|)
      && (c.up == 0 <==> k < |names|)
      && Emitted(c.trace) == [PacticipantsGauge(|names|)]
      && |c.trace| == 2 + Attempts(k, |names|)
      && c.trace[0] == Get(ParticipantsPath)
      && c.trace[1] == Send(PacticipantsGauge(|names|))
      && (forall i :: 2 <= i < |c.trace| ==> c.trace[i] == Get(PactsPath(names[i - 2])))
  {
    PactLoopUp(fetch, names, pacts);
    PactLoopGets(fetch, names, pacts);
    ScrapeEmitsCount(fetch, pacts, names);
  }

  /** The gauge table after a cycle whose participant list decodes to
      `names`, with `k` the index of the first failing participant: the
      participants before `k` end with their pact counts, every other name
      keeps its value (the failing participant and those after it are
      untouched unless listed earlier too), and no name is removed. */
  lemma ScrapeCycleTable(fetch: string -> FetchResult, pacts: map<string, nat>, names: seq<string>)
    requires fetch(ParticipantsPath) == Fetched(Payload(names))
    ensures var c := ScrapeCycle(fetch, pacts);
      var k := FirstFailure(fetch, names);
      && c.pacts.Keys == pacts.Keys + (set n | n in names[..k])
      && (forall i :: 0 <= i < k ==> c.pacts[names[i]] == PactCount(fetch, names[i]))
      && (forall n :: n in pacts && n !in names[..k] ==> c.pacts[n] == pacts[n])
  {
    PactLoopKeys(fetch, names, pacts);
    PactLoopValues(fetch, names, pacts);
  }

  /** A participant list that decodes to nothing (an empty list, or a body
      the decoder could not use) is a successful cycle: the count 0 is sent,
      no pact list is requested and the gauge table is unchanged. */
  lemma ScrapeEmptyList(fetch: string -> FetchResult, pacts: map<string, nat>)
    requires fetch(ParticipantsPath) == Fetched(Payload([]))
    ensures var c := ScrapeCycle(fetch, pacts);
      && c.up == 1 && c.pacts == pacts
      && c.trace == [Get(ParticipantsPath), Send(PacticipantsGauge(0))]
  {
    assert GetAll([]) == [];
  }

  /** Against an unchanged broker a second cycle repeats the first: same
      return value, same requests and metrics, same gauge table. */
  lemma ScrapeIdempotent(fetch: string -> FetchResult, pacts: map<string, nat>)
    ensures var c := ScrapeCycle(fetch, pacts);
      ScrapeCycle(fetch, c.pacts) == c
  {
    match fetch(ParticipantsPath)
    case Fetched(Payload(names)) =>
      var l1 := PactLoop(fetch, names, pacts);
      var l2 := PactLoop(fetch, names, l1.pacts);
      var k := FirstFailure(fetch, names);
      PactLoopUp(fetch, names, pacts);
      PactLoopUp(fetch, names, l1.pacts);
      PactLoopGets(fetch, names, pacts);
      PactLoopGets(fetch, names, l1.pacts);
      PactLoopKeys(fetch, names, pacts);
      PactLoopKeys(fetch, names, l1.pacts);
      PactLoopValues(fetch, names, pacts);
      PactLoopValues(fetch, names, l1.pacts);
      assert l2.gets == l1.gets;
      assert l2.pacts.Keys == l1.pacts.Keys;
      forall n | n in l1.pacts
        ensures l2.pacts[n] == l1.pacts[n]
      {
        if n in names[..k] {
          var i :| 0 <= i < k && names[i] == n;
        }
      }
      assert l2.pacts == l1.pacts;
    case _ =>
  }

  /** The events of one `Collect`: the cycle's, then the `up` metric. */
  function CollectTrace(fetch: string -> FetchResult, pacts: map<string, nat>): seq<Event>
  {
    var c := ScrapeCycle(fetch, pacts);
    c.trace + [Send(UpGauge(c.up))]
  }

  /** What one `Collect` sends on the channel: the participant count when the
      participant list was read, and then, last, `up` with the value the
      cycle returned (0 when the list could not be fetched or read). */
  lemma CollectMetrics(fetch: string -> FetchResult, pacts: map<string, nat>)
    ensures var c := ScrapeCycle(fetch, pacts);
      Emitted(CollectTrace(fetch, pacts)) ==
        match fetch(ParticipantsPath)
        case Fetched(Payload(names)) => [PacticipantsGauge(|names|), UpGauge(c.up)]
        case _ => [UpGauge(0)]
  {
    var c := ScrapeCycle(fetch, pacts);
    EmittedAppend(c.trace, [Send(UpGauge(c.up))]);
    assert Emitted([Send(UpGauge(c.up))]) == [UpGauge(c.up)];
    match fetch(ParticipantsPath)
    case Fetched(Payload(names)) => ScrapeEmitsCount(fetch, pacts, names);
    case _ => assert Emitted(c.trace) == [];
  }
}
