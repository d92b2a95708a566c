/**
 The benchmarks page's metrics streamer (app/benchmarks/page.tsx).

 One socket is created on mount; its open handler requests the benchmark
 feed, and every inbound payload that parses adds one sample to a bounded
 window of the most recent `MaxDataPoints` samples. The wall-clock
 timestamp of a sample is an opaque string supplied with the event, and
 JSON numbers are modelled as reals; a field that is missing or not a
 number is `None`, and such a sample still takes a place in the window.
 */
module Metrics {
  import opened Wrappers

  const MaxDataPoints: nat := 20

  /** A chart point; `cpu` or `memory` is `None` when the payload's field was not a number. */
  datatype Sample = Sample(time: string, cpu: Option<real>, memory: Option<real>)

  /** An inbound frame after `JSON.parse`, reduced to the fields the page reads:
      `data.cpu` and `data.memory`, each possibly absent. */
  datatype Payload = Unparsable | Reading(cpu: Option<real>, memory: Option<real>)

  datatype Frame = Benchmark

  datatype Effect = NewSocket | SendFrame(frame: Frame)

  datatype Dashboard = Dashboard(samples: seq<Sample>, loading: bool, held: bool)

  datatype Event =
    | SocketOpen
    | SocketMessage(payload: Payload, time: string)
    | SocketClose

  datatype Outcome = Outcome(next: Dashboard, effects: seq<Effect>)

  /** The component on mount: an empty window, still loading, one socket being opened. */
  function Mount(): (o: Outcome)
    ensures o.next.samples == [] && o.next.loading && !o.next.held
    ensures o.effects == [NewSocket]
  {
    Outcome(Dashboard([], true, false), [NewSocket])
  }

  /** Append `p`, then drop the oldest sample if that made the window too long. */
  function Push(w: seq<Sample>, p: Sample): (r: seq<Sample>)
    ensures |w| < MaxDataPoints ==> r == w + [p]
    ensures |w| >= MaxDataPoints ==> r == w[1..] + [p]
    ensures |w| <= MaxDataPoints ==> 1 <= |r| <= MaxDataPoints
    ensures |w| == MaxDataPoints ==> |r| == MaxDataPoints
    ensures |r| > 0 && r[|r| - 1] == p
    ensures |r| <= |w| + 1 && r[..|r| - 1] == w[|w| + 1 - |r|..]
  {
    var grown := w + [p];
    if |grown| > MaxDataPoints then grown[1..] else grown
  }

  /** Reference definition: the last `MaxDataPoints` samples of a history, in arrival order. */
  function Recent(h: seq<Sample>): (r: seq<Sample>)
    ensures |r| == if |h| <= MaxDataPoints then |h| else MaxDataPoints
    ensures r == h[|h| - |r|..]
  {
    if |h| <= MaxDataPoints then h else h[|h| - MaxDataPoints..]
  }

  /** Pushing onto the window of a history gives the window of the longer history. */
  lemma PushRecent(h: seq<Sample>, p: Sample)
    ensures Push(Recent(h), p) == Recent(h + [p])
  {
  }

  /** The `onmessage` handler. A payload that does not parse is skipped; the socket stays as it is. */
  function OnMessage(d: Dashboard, payload: Payload, time: string): (o: Outcome)
    ensures payload.Unparsable? ==> o.next == d
    ensures payload.Reading? ==>
      && o.next.samples == Push(d.samples, Sample(time, payload.cpu, payload.memory))
      && o.next.loading == d.loading
    ensures o.next.held == d.held && o.effects == []
  {
    match payload
    case Unparsable => Outcome(d, [])
    case Reading(cpu, memory) =>
      Outcome(d.(samples := Push(d.samples, Sample(time, cpu, memory))), [])
  }

  /** One event: open requests the feed, close forgets the socket without reconnecting. */
  function Step(d: Dashboard, e: Event): (o: Outcome)
    ensures e.SocketOpen? ==>
      && o.next == d.(loading := false, held := true)
      && o.effects == [SendFrame(Benchmark)]
    ensures e.SocketClose? ==> o.next == d.(held := false) && o.effects == []
    ensures e.SocketMessage? ==> o == OnMessage(d, e.payload, e.time)
    ensures o.next.samples == d.samples || e.SocketMessage?
  {
    match e
    case SocketOpen => Outcome(d.(loading := false, held := true), [SendFrame(Benchmark)])
    case SocketMessage(payload, time) => OnMessage(d, payload, time)
    case SocketClose => Outcome(d.(held := false), [])
  }

  function Run(d: Dashboard, es: seq<Event>): Outcome
    decreases |es|
  {
    if es == [] then Outcome(d, [])
    else
      var first := Step(d, es[0]);
      var rest := Run(first.next, es[1..]);
      Outcome(rest.next, first.effects + rest.effects)
  }

  /** The sample one event contributes: one for a payload that parsed, none otherwise. */
  function ReadingOf(e: Event): (r: seq<Sample>)
    ensures |r| <= 1
    ensures e.SocketMessage? && e.payload.Reading? <==> |r| == 1
  {
    match e
    case SocketMessage(Reading(cpu, memory), time) => [Sample(time, cpu, memory)]
    case _ => []
  }

  /** The samples a run of events produces, in arrival order. */
  function Readings(es: seq<Event>): seq<Sample>
    decreases |es|
  {
    if es == [] then [] else ReadingOf(es[0]) + Readings(es[1..])
  }

  /** One event keeps the window equal to the last samples of the history. */
  lemma StepKeepsRecent(d: Dashboard, h: seq<Sample>, e: Event)
    requires d.samples == Recent(h)
    ensures Step(d, e).next.samples == Recent(h + ReadingOf(e))
  {
  }

  /** After any run, the window is exactly the last `MaxDataPoints` samples received so far. */
  lemma {:induction false} RunKeepsRecent(d: Dashboard, h: seq<Sample>, es: seq<Event>)
    requires d.samples == Recent(h)
    ensures Run(d, es).next.samples == Recent(h + Readings(es))
    decreases |es|
  {
    if es == [] {
      assert h + Readings(es) == h;
    } else {
      var mid := Step(d, es[0]).next;
      var h' := h + ReadingOf(es[0]);
      StepKeepsRecent(d, h, es[0]);
      RunKeepsRecent(mid, h', es[1..]);
      assert Run(d, es).next == Run(mid, es[1..]).next;
      assert Readings(es) == ReadingOf(es[0]) + Readings(es[1..]);
      assert h + Readings(es) == h' + Readings(es[1..]);
    }
  }

  /** From mount, the window never exceeds its capacity and holds the newest samples in order. */
  lemma WindowBounded(es: seq<Event>)
    ensures var w := Run(Mount().next, es).next.samples;
      && |w| <= MaxDataPoints
      && w == Recent(Readings(es))
  {
    assert Mount().next.samples == Recent([]);
    RunKeepsRecent(Mount().next, [], es);
    assert [] + Readings(es) == Readings(es);
  }

  /** Once 21 samples have arrived, the first one is gone and the other twenty keep their order. */
  lemma TwentyFirstEvictsFirst(h: seq<Sample>, p: Sample)
    requires |h| == MaxDataPoints
    ensures Recent(h + [p]) == h[1..] + [p]
  {
  }
}
