/** The batch path of a Go agent run, and how it compares with the stream of the same events. */
module AgentRuns {
  import opened Options
  import opened Strings
  import opened AuthErrors
  import opened UsageSums
  import opened AgentStream

  // ---------- the response put together from events

  datatype Wanted = AnyStart | AnyTurn | AnyEnd

  predicate Is(e: Event, wanted: Wanted) {
    match wanted
    case AnyStart => e.MessageStart?
    case AnyTurn => e.MessageEnd?
    case AnyEnd => e.AgentEnd?
  }

  /** The last such event among the first `n`. */
  function LastBefore(events: seq<Event>, n: nat, wanted: Wanted): (e: Option<Event>)
    requires n <= |events|
    ensures e.Some? ==> Is(e.value, wanted)
  {
    if n == 0 then None
    else if Is(events[n - 1], wanted) then Some(events[n - 1])
    else LastBefore(events, n - 1, wanted)
  }

  function LastOf(events: seq<Event>, wanted: Wanted): (e: Option<Event>)
    ensures e.Some? ==> Is(e.value, wanted)
  {
    LastBefore(events, |events|, wanted)
  }

  function StartProvider(events: seq<Event>): string {
    var start := LastOf(events, AnyStart);
    if start.Some? then start.value.provider else ""
  }

  function StartApi(events: seq<Event>): string {
    var start := LastOf(events, AnyStart);
    if start.Some? then start.value.api else ""
  }

  function TurnStop(events: seq<Event>): string {
    var turn := LastOf(events, AnyTurn);
    if turn.Some? then turn.value.stop else ""
  }

  /** The usage of the batch response: all turns added up, or else what the end reports. */
  function BatchUsage(events: seq<Event>): Option<Usage> {
    var aggregate, end := AddAll(None, UsagesOf(events)), LastOf(events, AnyEnd);
    if aggregate.Some? then aggregate
    else if end.Some? then end.value.usage
    else None
  }

  /** Provider and api come from the last message start, else from the end; the stop reason from
      the end, else from the last message end. */
  function ResponseOf(events: seq<Event>): Response {
    var end := LastOf(events, AnyEnd);
    Response(BatchUsage(events),
             FirstNonEmpty(if end.Some? then end.value.stop else "", TurnStop(events)),
             if end.Some? then end.value.error else "",
             FirstNonEmpty(StartProvider(events), if end.Some? then end.value.provider else ""),
             FirstNonEmpty(StartApi(events), if end.Some? then end.value.api else ""))
  }

  lemma {:induction false} UsagesAppend(events: seq<Event>, e: Event)
    ensures UsagesOf(events + [e]) == UsagesOf(events) + if e.MessageEnd? then [e.usage] else []
  {
    if events != [] {
      assert (events + [e])[1..] == events[1..] + [e];
      UsagesAppend(events[1..], e);
    }
  }

  lemma {:induction false} AddAllAppend(u: Option<Usage>, others: seq<Option<Usage>>, last: Option<Usage>)
    ensures AddAll(u, others + [last]) == Add(AddAll(u, others), last)
    decreases |others|
  {
    if others != [] {
      assert (others + [last])[1..] == others[1..] + [last];
      AddAllAppend(Add(u, others[0]), others[1..], last);
    } else {
      assert ([] + [last])[1..] == [];
    }
  }

  /** The loops over the message starts: first for the last one, then from there on. */
  method Origin(events: seq<Event>) returns (provider: string, api: string)
    ensures provider == StartProvider(events) && api == StartApi(events)
  {
    var start := 0;
    for i := 0 to |events|
      invariant start <= i && (start == i ==> i == 0)
      invariant var last := LastBefore(events, i, AnyStart);
                if last.Some? then start < i && last.value == events[start] else start == 0
      invariant forall j :: 0 <= j < i && events[j].MessageStart? ==> j <= start && LastBefore(events, i, AnyStart).Some?
    {
      if events[i].MessageStart? {
        start := i;
      }
    }
    provider, api := "", "";
    for i := start to |events|
      invariant if i > start && events[start].MessageStart?
                then provider == events[start].provider && api == events[start].api
                else provider == api == ""
    {
      if events[i].MessageStart? {
        provider, api := FirstNonEmpty(events[i].provider, provider), FirstNonEmpty(events[i].api, api);
      }
    }
  }

  /** The loop over the turns. */
  method Turns(events: seq<Event>) returns (messageEnd: Option<Event>, aggregated: Option<Usage>)
    ensures messageEnd == LastOf(events, AnyTurn) && aggregated == AddAll(None, UsagesOf(events))
    ensures messageEnd.Some? && aggregated.None? ==> messageEnd.value.usage.None?
  {
    messageEnd, aggregated := None, None;
    for i := 0 to |events|
      invariant aggregated == AddAll(None, UsagesOf(events[..i])) && messageEnd == LastBefore(events, i, AnyTurn)
      invariant messageEnd.Some? && aggregated.None? ==> messageEnd.value.usage.None?
    {
      assert events[..i + 1] == events[..i] + [events[i]];
      UsagesAppend(events[..i], events[i]);
      assert UsagesOf(events[..i]) + [] == UsagesOf(events[..i]);
      if events[i].MessageEnd? {
        messageEnd := Some(events[i]);
        AddAllAppend(None, UsagesOf(events[..i]), events[i].usage);
        aggregated := Add(aggregated, events[i].usage);
      }
    }
    assert events[..|events|] == events;
  }

  /** `buildResponseFromEvents`, but for the message. */
  method BuildResponse(events: seq<Event>) returns (r: Response)
    ensures r == ResponseOf(events)
  {
    var provider, api := Origin(events);
    var messageEnd, aggregated := Turns(events);
    r := Response(None, "", "", provider, api);
    var i := |events| - 1;
    while i >= 0 && !events[i].AgentEnd?
      invariant -1 <= i < |events|
      invariant LastBefore(events, i + 1, AnyEnd) == LastOf(events, AnyEnd)
    {
      i := i - 1;
    }
    if i >= 0 {
      var end := events[i];
      r := Response(end.usage, end.stop, end.error, FirstNonEmpty(provider, end.provider), FirstNonEmpty(api, end.api));
    }
    if aggregated.Some? {
      r := r.(usage := aggregated);
    }
    if r.usage.None? && messageEnd.Some? {
      r := r.(usage := messageEnd.value.usage);
    }
    if r.stop == "" && messageEnd.Some? {
      r := r.(stop := messageEnd.value.stop);
    }
  }

  // ---------- the batch path

  /** What ends a run: the pump, an error event, a result frame, or an end after these events. */
  datatype Cause =
    | PumpStopped(code: int)
    | Errored(message: int)
    | Framed(response: Response)
    | Gathered(events: seq<Event>)

  /** What ends it when `before` has been collected. */
  function CauseOf(script: seq<Pumped>, before: seq<Event>): Cause
    decreases |script|
  {
    if script == [] then PumpStopped(TIMED_OUT)
    else
      match script[0]
      case Broken(code) => PumpStopped(code)
      case Result(response) => Framed(response)
      case Batch(events) =>
        var k := EndAt(events);
        if k == |events| then CauseOf(script[1..], before + events)
        else if events[k].ErrorEvent? then Errored(events[k].message)
        else Gathered(before + events[..k + 1])
  }

  /** How `Run` comes out: with a response or with a failure. */
  datatype Settlement = Responded(response: Response) | RunFailed(failure: Failure)

  /** `responseOrAuthError`. */
  function Settle(r: Response, run: Context): Settlement {
    if IsAuthFailure(r.stop, r.error, r.api)
    then RunFailed(AuthRequired(FirstNonEmpty(r.provider, run.fallback), FirstNonEmpty(r.error, CODES[0])))
    else Responded(r)
  }

  function SettleCause(cause: Cause, run: Context): Settlement {
    match cause
    case PumpStopped(code) => RunFailed(PumpFailure(code))
    case Errored(message) => RunFailed(EventError(message))
    case Framed(response) => Settle(response, run)
    case Gathered(events) => Settle(ResponseOf(events), run)
  }

  function RunOf(script: seq<Pumped>, run: Context): Settlement {
    SettleCause(CauseOf(script, []), run)
  }

  /** `Run`. */
  method Run(script: seq<Pumped>, run: Context) returns (r: Settlement)
    ensures r == RunOf(script, run)
  {
    var events: seq<Event> := [];
    var read := 0;
    while read < |script|
      invariant 0 <= read <= |script|
      invariant CauseOf(script, []) == CauseOf(script[read..], events)
    {
      var pumped := script[read];
      assert script[read..][0] == pumped && script[read..][1..] == script[read + 1..];
      read := read + 1;
      if pumped.Broken? {
        return RunFailed(PumpFailure(pumped.code));
      }
      if pumped.Result? {
        return Settle(pumped.response, run);
      }
      ghost var before := events;
      var batch := pumped.events;
      for k := 0 to |batch|
        invariant events == before + batch[..k]
        invariant forall i :: 0 <= i < k ==> !Ends(batch[i])
      {
        if batch[k].ErrorEvent? {
          EndAtIs(batch, k);
          return RunFailed(EventError(batch[k].message));
        }
        events := events + [batch[k]];
        assert before + batch[..k + 1] == events;
        if batch[k].AgentEnd? {
          EndAtIs(batch, k);
          var response := BuildResponse(events);
          return Settle(response, run);
        }
      }
      assert batch[..|batch|] == batch;
    }
    return RunFailed(PumpFailure(TIMED_OUT));
  }

  // ---------- the batch path on all the events of a script

  /** The script's run is ended by a result frame, not by an event. */
  predicate FrameSettles(script: seq<Pumped>) {
    script != []
    && (script[0].Result? || (script[0].Batch? && EndAt(script[0].events) == |script[0].events| && FrameSettles(script[1..])))
  }

  /** What ends a run whose events are `all`. */
  function Meant(all: seq<Event>, code: int, byFrame: bool): Cause {
    var k := EndAt(all);
    if k == |all| then PumpStopped(code)
    else if all[k].ErrorEvent? then Errored(all[k].message)
    else if byFrame then Framed(Response(all[k].usage, all[k].stop, all[k].error, all[k].provider, all[k].api))
    else Gathered(all[..k + 1])
  }

  /** What ends `Run`, when it has collected `before`, is the first end among all the events: as
      a frame reports it if a frame settles the run, else with the events through that end. */
  lemma {:induction false} RunMeets(script: seq<Pumped>, before: seq<Event>)
    requires EndAt(before) == |before|
    ensures CauseOf(script, before) == Meant(before + Pumpings(script).0, Pumpings(script).1, FrameSettles(script))
    decreases |script|
  {
    EndAtConcat(before, Pumpings(script).0);
    if script != [] && !script[0].Broken? {
      var head, tail := script[0].Events(), Pumpings(script[1..]).0;
      assert before + (head + tail) == (before + head) + tail;
      EndAtConcat(before, head);
      EndAtConcat(before + head, tail);
      if EndAt(head) == |head| {
        RunMeets(script[1..], before + head);
      } else {
        ThroughMiddle(before, head, tail, EndAt(head));
        EndsHere(script, before);
      }
    }
  }

  lemma EndsHere(script: seq<Pumped>, before: seq<Event>)
    requires script != [] && !script[0].Broken? && EndAt(script[0].Events()) < |script[0].Events()|
    ensures Pumpings(script).0 == script[0].Events() + Pumpings(script[1..]).0
    ensures script[0].Result? ==> FrameSettles(script) && CauseOf(script, before) == Framed(script[0].response)
    ensures script[0].Batch? ==> !FrameSettles(script)
    ensures script[0].Batch? ==>
              var head, k := script[0].events, EndAt(script[0].events);
              CauseOf(script, before) ==
                if head[k].ErrorEvent? then Errored(head[k].message) else Gathered(before + head[..k + 1])
  {
  }

  lemma ThroughMiddle(before: seq<Event>, head: seq<Event>, tail: seq<Event>, k: nat)
    requires k < |head|
    ensures
      var all := before + head + tail;
      all[|before| + k] == head[k] && all[..|before| + k + 1] == before + head[..k + 1]
  {
  }

  // ---------- failures: the stream against the batch path

  /** The run is ended by an event that is no error; its events through that one. */
  predicate EventSettles(script: seq<Pumped>) {
    var events := Pumpings(script).0;
    !FrameSettles(script) && EndAt(events) < |events| && events[EndAt(events)].AgentEnd?
  }

  function EndEvent(script: seq<Pumped>): (e: Event)
    requires EventSettles(script)
    ensures e.AgentEnd?
  {
    var events := Pumpings(script).0;
    events[EndAt(events)]
  }

  function Collected(script: seq<Pumped>): seq<Event>
    requires EventSettles(script)
  {
    var events := Pumpings(script).0;
    events[..EndAt(events) + 1]
  }

  /** A failed end whose error is one of authentication at Anthropic only. */
  predicate DependsOnApi(e: Event)
    requires e.AgentEnd?
  {
    e.stop == "error" && e.error != "" && IsAnthropicMarked(e.error) && !IsMarked(e.error)
  }

  /** Only `Run` fails: the end names no stop reason, and the last turn had failed; or the error
      depends on the api, and only the message start names Anthropic's. */
  predicate OnlyRunFails(script: seq<Pumped>) {
    EventSettles(script) &&
    var e, events := EndEvent(script), Collected(script);
    (e.stop == "" && TurnStop(events) == "error" && IsAuthFailureMessage(e.error, FirstNonEmpty(StartApi(events), e.api)))
    || (DependsOnApi(e) && e.api != ANTHROPIC && StartApi(events) == ANTHROPIC)
  }

  /** Only the stream fails: the error depends on the api, the end names Anthropic's, and the
      message start another one. */
  predicate OnlyStreamFails(script: seq<Pumped>) {
    EventSettles(script) &&
    var e, events := EndEvent(script), Collected(script);
    DependsOnApi(e) && e.api == ANTHROPIC && StartApi(events) != "" && StartApi(events) != ANTHROPIC
  }

  /** Both fail for lack of credentials, but of different providers. */
  predicate ProvidersDiffer(script: seq<Pumped>, run: Context) {
    EventSettles(script) &&
    var e, events := EndEvent(script), Collected(script);
    IsAuthFailure(e.stop, e.error, e.api) && !OnlyStreamFails(script)
    && StartProvider(events) != "" && StartProvider(events) != FirstNonEmpty(e.provider, run.fallback)
  }

  function StreamFailure(script: seq<Pumped>, run: Context): Option<Failure> {
    EndedWith(EndingOf(Pumpings(script).0, Pumpings(script).1, run))
  }

  function RunFailure(script: seq<Pumped>, run: Context): Option<Failure> {
    match RunOf(script, run)
    case Responded(_) => None
    case RunFailed(f) => Some(f)
  }

  lemma EndIsLast(events: seq<Event>, k: nat)
    requires k < |events| && events[k].AgentEnd?
    ensures LastOf(events[..k + 1], AnyEnd) == Some(events[k])
  {
  }

  lemma SettledByEvents(script: seq<Pumped>)
    requires EventSettles(script)
    ensures CauseOf(script, []) == Gathered(Collected(script))
  {
    RunMeets(script, []);
    assert [] + Pumpings(script).0 == Pumpings(script).0;
  }

  lemma SettledByFrame(script: seq<Pumped>)
    requires FrameSettles(script)
    ensures
      var (events, code) := Pumpings(script);
      var k := EndAt(events);
      CauseOf(script, []) ==
        if k == |events| then PumpStopped(code)
        else if events[k].ErrorEvent? then Errored(events[k].message)
        else Framed(Response(events[k].usage, events[k].stop, events[k].error, events[k].provider, events[k].api))
  {
    RunMeets(script, []);
    assert [] + Pumpings(script).0 == Pumpings(script).0;
  }

  lemma ResponseAtEnd(events: seq<Event>, k: nat)
    requires k < |events| && events[k].AgentEnd?
    ensures
      var all, e := events[..k + 1], events[k];
      ResponseOf(all) ==
        Response(BatchUsage(all), FirstNonEmpty(e.stop, TurnStop(all)), e.error,
                 FirstNonEmpty(StartProvider(all), e.provider), FirstNonEmpty(StartApi(all), e.api))
  {
    EndIsLast(events, k);
  }

  lemma StreamFailureAtEnd(script: seq<Pumped>, run: Context)
    requires EventSettles(script)
    ensures StreamFailure(script, run) == if FailsRun(EndEvent(script)) then Some(FailureOf(EndEvent(script), run)) else None
  {
  }

  lemma RunFailureAtEnd(script: seq<Pumped>, run: Context)
    requires EventSettles(script)
    ensures
      var e, events := EndEvent(script), Collected(script);
      RunFailure(script, run) ==
        if IsAuthFailure(FirstNonEmpty(e.stop, TurnStop(events)), e.error, FirstNonEmpty(StartApi(events), e.api))
        then Some(AuthRequired(FirstNonEmpty(FirstNonEmpty(StartProvider(events), e.provider), run.fallback), e.error))
        else None
  {
    SettledByEvents(script);
    ResponseAtEnd(Pumpings(script).0, EndAt(Pumpings(script).0));
    FailureOfSettled(ResponseOf(Collected(script)), run);
  }

  lemma FailureOfSettled(r: Response, run: Context)
    ensures Settle(r, run) ==
            if IsAuthFailure(r.stop, r.error, r.api)
            then RunFailed(AuthRequired(FirstNonEmpty(r.provider, run.fallback), r.error))
            else Responded(r)
  {
  }

  lemma OtherFailures(script: seq<Pumped>, run: Context)
    requires !EventSettles(script)
    ensures StreamFailure(script, run) == RunFailure(script, run)
  {
    var (events, code) := Pumpings(script);
    RunMeets(script, []);
    assert [] + events == events;
  }

  /** On every script the two paths fail alike but in three cases, each where it says. */
  lemma FailuresAgreeIff(script: seq<Pumped>, run: Context)
    ensures
      var stream, batch := StreamFailure(script, run), RunFailure(script, run);
      && (stream.None? && batch.Some? <==> OnlyRunFails(script))
      && (stream.Some? && batch.None? <==> OnlyStreamFails(script))
      && (stream.Some? && batch.Some? && stream != batch <==> ProvidersDiffer(script, run))
  {
    if EventSettles(script) {
      StreamFailureAtEnd(script, run);
      RunFailureAtEnd(script, run);
    } else {
      OtherFailures(script, run);
    }
  }

  /** A message start and a failed end, each naming an api or none. */
  function Denial(start: string, end: string): seq<Pumped> {
    [Batch([MessageStart("", start), AgentEnd(None, "error", DENIED, "", end)])]
  }

  /** Both happen. */
  lemma DenialsDiffer()
    ensures OnlyRunFails(Denial(ANTHROPIC, "")) && OnlyStreamFails(Denial("openai-completions", ANTHROPIC))
  {
    DeniedIsAnthropics();
    DenialSettles(ANTHROPIC, "");
    DenialSettles("openai-completions", ANTHROPIC);
  }

  lemma DenialSettles(start: string, end: string)
    ensures
      var script := Denial(start, end);
      EventSettles(script) && EndEvent(script) == AgentEnd(None, "error", DENIED, "", end)
      && StartApi(Collected(script)) == start
  {
    var script := Denial(start, end);
    var events := script[0].events;
    EndAtIs(events, 1);
    assert Pumpings(script).0 == events + [] == events;
    assert events[..2] == events;
    assert LastBefore(events, 1, AnyStart) == Some(events[0]);
  }

  // ---------- usage: the stream against the batch path

  lemma NextTotal(events: seq<Event>, aggregate: Option<Usage>)
    requires events != []
    ensures AddAll(aggregate, UsagesOf(events)) == AddAll(Counted(aggregate, events[0]), UsagesOf(events[1..]))
  {
    if events[0].MessageEnd? {
      assert UsagesOf(events)[1..] == UsagesOf(events[1..]);
    } else {
      assert UsagesOf(events) == UsagesOf(events[1..]);
    }
  }

  lemma OneSettles(end: Event, aggregate: Option<Usage>)
    requires end.AgentEnd?
    ensures Settled([end], aggregate) == [WithUsage(end, aggregate)] && UsagesOf([end]) == []
  {
  }

  lemma NextSettles(events: seq<Event>, aggregate: Option<Usage>)
    requires events != []
    ensures Settled(events, aggregate) == [WithUsage(events[0], aggregate)] + Settled(events[1..], Counted(aggregate, events[0]))
  {
  }

  /** The end of a settled run carries the turns' sum, or what it reports if no turn does. */
  lemma {:induction false} SettledUsage(events: seq<Event>, aggregate: Option<Usage>)
    requires events != [] && events[|events| - 1].AgentEnd?
    ensures
      var settled := Settled(events, aggregate);
      |settled| == |events| && settled[|events| - 1] == WithUsage(events[|events| - 1], AddAll(aggregate, UsagesOf(events)))
    decreases |events|
  {
    if |events| == 1 {
      assert events == [events[0]];
      OneSettles(events[0], aggregate);
    } else {
      SettledUsage(events[1..], Counted(aggregate, events[0]));
      NextTotal(events, aggregate);
      NextSettles(events, aggregate);
    }
  }

  /** The turns' sum as a stream forms it. */
  function StreamTotal(events: seq<Event>): Option<Usage> {
    AddAll(SeenTwice(events), UsagesOf(events[..EndAt(events)]))
  }

  lemma EndReportsNoTurn(events: seq<Event>, k: nat)
    requires k < |events| && !events[k].MessageEnd?
    ensures events[..k + 1] == events[..k] + [events[k]] && UsagesOf(events[..k + 1]) == UsagesOf(events[..k])
  {
    assert events[..k + 1] == events[..k] + [events[k]];
    UsagesAppend(events[..k], events[k]);
    assert UsagesOf(events[..k]) + [] == UsagesOf(events[..k]);
  }

  lemma StreamedUsage(events: seq<Event>, session: string)
    requires EndAt(events) < |events| && !FailsRun(events[EndAt(events)])
    ensures
      var d := Delivered(events, session);
      d != [] && d[|d| - 1] == WithUsage(events[EndAt(events)], StreamTotal(events))
  {
    var kept := Kept(events);
    EndReportsNoTurn(events, EndAt(events));
    SettledUsage(kept, SeenTwice(events));
  }

  /** A run's end reports what a frame does exactly if the turns report nothing or add up to it. */
  lemma FrameAgreesIff(events: seq<Event>)
    requires EndAt(events) < |events| && events[EndAt(events)].AgentEnd?
    ensures
      var frame := events[EndAt(events)].usage;
      WithUsage(events[EndAt(events)], StreamTotal(events)).usage == frame <==> TurnsAddUpTo(events, frame)
  {
    var twice, usages := SeenTwice(events), UsagesOf(events[..EndAt(events)]);
    var frame, total := events[EndAt(events)].usage, StreamTotal(events);
    assert ([twice] + usages)[1..] == usages;
    assert total == AddAll(None, [twice] + usages);
    SumFromNothing([twice] + usages);
    SeenTwiceIsAmong(events);
    if total.Some? && frame.Some? {
      SameByFields(total.value, frame.value);
    }
  }

  lemma SeenTwiceIsAmong(events: seq<Event>)
    requires EndAt(events) < |events|
    ensures
      var usages := UsagesOf(events[..EndAt(events)]);
      NoneReported([SeenTwice(events)] + usages) <==> NoneReported(usages)
  {
    var before := events[..EndAt(events)];
    NoneReportedCons(SeenTwice(events), UsagesOf(before));
    if SeenTwice(events).Some? {
      assert before[0] == events[0] && UsagesOf(before)[0] == SeenTwice(events);
    }
  }

  lemma EventsAgreeIff(events: seq<Event>)
    requires EndAt(events) < |events| && events[EndAt(events)].AgentEnd?
    ensures
      var twice, end := SeenTwice(events), events[EndAt(events)];
      WithUsage(end, StreamTotal(events)).usage == BatchUsage(events[..EndAt(events) + 1])
      <==> twice.None? || twice.value == ZERO
  {
    var k, twice := EndAt(events), SeenTwice(events);
    var kept := events[..k + 1];
    EndReportsNoTurn(events, k);
    EndIsLast(events, k);
    if twice.Some? {
      FirstCountedTwice(kept, twice.value);
    }
  }

  /** The exact sum of one counter over the turns, with the turn a stream opens with added. */
  function ExactSum(events: seq<Event>, turns: seq<Option<Usage>>, f: Field): int {
    Total([SeenTwice(events)] + turns, f)
  }

  /** No turn reports a usage, or what is reported is, counter by counter, the exact sum over
      the turns, an opening one twice, wrapped to 64 bits. */
  predicate TurnsAddUpTo(events: seq<Event>, reported: Option<Usage>) {
    var usages := UsagesOf(events[..EndAt(events)]);
    NoneReported(usages)
    || (reported.Some? && forall f: Field :: Get(reported.value, f) == Wrap(ExactSum(events, usages, f)))
  }

  /** When the two paths report the same usage: a run that events settle does not open with the
      end of a message whose usage is not all zero; the turns of a run that a frame settles add
      up to what the frame reports. */
  predicate PathsMeet(script: seq<Pumped>) {
    var events := Pumpings(script).0;
    if FrameSettles(script) then EndAt(events) < |events| && events[EndAt(events)].AgentEnd?
                                 && TurnsAddUpTo(events, events[EndAt(events)].usage)
    else SeenTwice(events).None? || SeenTwice(events).value == ZERO
  }

  /** Where both end well, the usage on the end of the stream is that of the response exactly if
      `PathsMeet`. */
  lemma UsagesAgreeIff(script: seq<Pumped>, run: Context)
    ensures StreamFailure(script, run).None? && RunFailure(script, run).None? ==>
      var d := Delivered(Pumpings(script).0, run.session);
      d != [] && d[|d| - 1].AgentEnd?
      && (d[|d| - 1].usage == RunOf(script, run).response.usage <==> PathsMeet(script))
  {
    if StreamFailure(script, run).None? && RunFailure(script, run).None? {
      StreamedUsage(Pumpings(script).0, run.session);
      if FrameSettles(script) {
        SettledByFrame(script);
        FrameAgreesIff(Pumpings(script).0);
      } else {
        ResponseUsage(script, run);
        EventsAgreeIff(Pumpings(script).0);
      }
    }
  }

  lemma ResponseUsage(script: seq<Pumped>, run: Context)
    requires EventSettles(script) && RunFailure(script, run).None?
    ensures RunOf(script, run).response.usage == BatchUsage(Collected(script))
  {
    SettledByEvents(script);
    SettledUsageIs(Collected(script), run);
  }

  lemma SettledUsageIs(events: seq<Event>, run: Context)
    ensures
      var r := Settle(ResponseOf(events), run);
      r.Responded? ==> r.response.usage == BatchUsage(events)
  {
  }

  /** A frame that repeats the last turn's usage, as the runtime's does, meets the stream's sum
      exactly if what the other turns report adds up to nothing. */
  lemma LastTurnIsNotTheSum(events: seq<Event>, others: seq<Option<Usage>>, last: Usage)
    requires UsagesOf(events[..EndAt(events)]) == others + [Some(last)]
    ensures TurnsAddUpTo(events, Some(last)) <==> forall f: Field :: Wrap(ExactSum(events, others, f)) == 0
  {
    var usages := UsagesOf(events[..EndAt(events)]);
    assert usages[|others|].Some? && !NoneReported(usages);
    forall f: Field ensures Get(last, f) == Wrap(ExactSum(events, usages, f)) <==> Wrap(ExactSum(events, others, f)) == 0 {
      assert [SeenTwice(events)] + usages == ([SeenTwice(events)] + others) + [Some(last)];
      TotalAppend([SeenTwice(events)] + others, Some(last), f);
      WrapIsLast(ExactSum(events, others, f), Get(last, f));
    }
  }

  lemma FirstCountedTwice(events: seq<Event>, u: Usage)
    requires events != [] && events[0].MessageEnd? && events[0].usage == Some(u)
    ensures BatchUsage(events).Some?
    ensures AddAll(Some(u), UsagesOf(events)).Some?
    ensures AddAll(Some(u), UsagesOf(events)) == BatchUsage(events) <==> u == ZERO
  {
    var others := UsagesOf(events[1..]);
    assert UsagesOf(events) == [Some(u)] + others && UsagesOf(events)[1..] == others;
    SumIsExact(u, others, Input);
    SumIsExact(u, [Some(u)] + others, Input);
    CountedTwiceIff(u, others);
  }
}
