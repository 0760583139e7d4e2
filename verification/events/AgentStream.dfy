/** The event iterator of a Go agent run. */
module AgentStream {
  import opened Options
  import opened Strings
  import opened AuthErrors
  import opened UsageSums

  /** The fields that matter of the events of a run. */
  datatype Event =
    | AgentStart(session: string)
    | AgentEnd(usage: Option<Usage>, stop: string, error: string, provider: string, api: string)
    | ErrorEvent(message: int)
    | MessageStart(provider: string, api: string)
    | MessageEnd(usage: Option<Usage>, stop: string)
    | OtherEvent(content: int)

  /** The completion response of a run, but for the message itself. */
  datatype Response = Response(usage: Option<Usage>, stop: string, error: string, provider: string, api: string)

  datatype Failure = EventError(message: int) | AuthRequired(provider: string, error: string) | PumpFailure(code: int)

  /** The session id, and the provider named where a failure names none. */
  datatype Context = Context(session: string, fallback: string)

  /** What one call of the pump gives: some events, a result frame, or a failure. A pump that
      has nothing more to give times out. */
  datatype Pumped =
    | Batch(events: seq<Event>)
    | Result(response: Response)
    | Broken(code: int)
  {
    /** A stream takes a result frame for the end of the run. */
    function Events(): seq<Event> {
      match this
      case Batch(events) => events
      case Result(r) => [AgentEnd(r.usage, r.stop, r.error, r.provider, r.api)]
      case Broken(_) => []
    }
  }

  const TIMED_OUT := -1

  // ---------- what is pumped

  /** Everything pumped up to the first failure, and that failure. */
  function Pumpings(script: seq<Pumped>): (seq<Event>, int) {
    if script == [] then ([], TIMED_OUT)
    else
      match script[0]
      case Broken(code) => ([], code)
      case _ => (script[0].Events() + Pumpings(script[1..]).0, Pumpings(script[1..]).1)
  }

  // ---------- what a caller is to see

  /** How iterating ends: with the run, or with a failure. */
  datatype Ending = Finished | Failed(failure: Failure)

  predicate Ends(e: Event) {
    e.AgentEnd? || e.ErrorEvent?
  }

  /** The first event that ends the run; the length if none does. */
  function EndAt(events: seq<Event>): (k: nat)
    ensures k <= |events|
    ensures forall i :: 0 <= i < k ==> !Ends(events[i])
    ensures k < |events| ==> Ends(events[k])
  {
    EndFrom(events, 0)
  }

  function EndFrom(events: seq<Event>, from: nat): (k: nat)
    requires from <= |events|
    ensures from <= k <= |events|
    ensures forall i :: from <= i < k ==> !Ends(events[i])
    ensures k < |events| ==> Ends(events[k])
    decreases |events| - from
  {
    if from == |events| || Ends(events[from]) then from else EndFrom(events, from + 1)
  }

  lemma EndAtIs(events: seq<Event>, k: nat)
    requires k <= |events| && (k < |events| ==> Ends(events[k]))
    requires forall i :: 0 <= i < k ==> !Ends(events[i])
    ensures EndAt(events) == k
  {
  }

  lemma EndAtConcat(a: seq<Event>, b: seq<Event>)
    ensures EndAt(a + b) == if EndAt(a) < |a| then EndAt(a) else |a| + EndAt(b)
  {
    EndAtIs(a + b, if EndAt(a) < |a| then EndAt(a) else |a| + EndAt(b));
  }

  /** An event that fails the run is not delivered. */
  predicate FailsRun(e: Event) {
    e.ErrorEvent? || (e.AgentEnd? && IsAuthFailure(e.stop, e.error, e.api))
  }

  function FailureOf(e: Event, run: Context): Failure
    requires FailsRun(e)
  {
    if e.ErrorEvent? then EventError(e.message)
    else AuthRequired(FirstNonEmpty(e.provider, run.fallback), e.error)
  }

  /** The ending the events lead to; `code` is the failure that follows them. */
  function EndingOf(events: seq<Event>, code: int, run: Context): Ending {
    var k := EndAt(events);
    if k == |events| then Failed(PumpFailure(code))
    else if FailsRun(events[k]) then Failed(FailureOf(events[k], run))
    else Finished
  }

  /** The events before the cut: with the end of a run that went well, without a failure. */
  function Kept(events: seq<Event>): seq<Event> {
    var k := EndAt(events);
    if k < |events| && !FailsRun(events[k]) then events[..k + 1] else events[..k]
  }

  function UsagesOf(events: seq<Event>): seq<Option<Usage>> {
    if events == [] then []
    else (if events[0].MessageEnd? then [events[0].usage] else []) + UsagesOf(events[1..])
  }

  /** An end of a run with the sum of its turns' usages, if any turn reported one. */
  function WithUsage(e: Event, aggregate: Option<Usage>): Event {
    if e.AgentEnd? && aggregate.Some? then AgentEnd(aggregate, e.stop, e.error, e.provider, e.api) else e
  }

  function Counted(aggregate: Option<Usage>, e: Event): Option<Usage> {
    if e.MessageEnd? then Add(aggregate, e.usage) else aggregate
  }

  /** The kept events as they are delivered, `aggregate` having been counted before. */
  function Settled(events: seq<Event>, aggregate: Option<Usage>): seq<Event>
    decreases |events|
  {
    if events == [] then []
    else
      [WithUsage(events[0], aggregate)] + Settled(events[1..], Counted(aggregate, events[0]))
  }

  /** A stream that has delivered nothing looks at its first event twice when that is not a
      start: once to find that out, once to deliver it. */
  function SeenTwice(events: seq<Event>): Option<Usage> {
    if events != [] && events[0].MessageEnd? then events[0].usage else None
  }

  function Opened(events: seq<Event>, session: string): seq<Event> {
    if events == [] || events[0].AgentStart? then events else [AgentStart(session)] + events
  }

  /** All that a new stream delivers. */
  function Delivered(events: seq<Event>, session: string): seq<Event> {
    Opened(Settled(Kept(events), SeenTwice(events)), session)
  }

  lemma UnfoldFailure(events: seq<Event>, code: int, run: Context, aggregate: Option<Usage>)
    requires events != [] && FailsRun(events[0])
    ensures Settled(Kept(events), aggregate) == [] && EndingOf(events, code, run) == Failed(FailureOf(events[0], run))
  {
  }

  lemma UnfoldEnd(events: seq<Event>, code: int, run: Context, aggregate: Option<Usage>)
    requires events != [] && events[0].AgentEnd? && !FailsRun(events[0])
    ensures Settled(Kept(events), aggregate) == [WithUsage(events[0], aggregate)]
    ensures EndingOf(events, code, run) == Finished
  {
    assert Kept(events) == [events[0]];
  }

  lemma UnfoldOther(events: seq<Event>, code: int, run: Context, aggregate: Option<Usage>)
    requires events != [] && !Ends(events[0])
    ensures EndingOf(events, code, run) == EndingOf(events[1..], code, run)
    ensures Settled(Kept(events), aggregate) ==
      [events[0]] + Settled(Kept(events[1..]), Counted(aggregate, events[0]))
  {
    var e, tail := events[0], events[1..];
    assert events == [e] + tail;
    EndAtConcat([e], tail);
    assert Kept(events) == [e] + Kept(tail);
    assert ([e] + Kept(tail))[1..] == Kept(tail);
  }

  // ---------- the iterator

  /** What is still to come of a stream in this state. */
  function Rest(pending: seq<Event>, script: seq<Pumped>): (seq<Event>, int) {
    (pending + Pumpings(script).0, Pumpings(script).1)
  }

  class Stream {
    const run: Context
    var script: seq<Pumped>
    var pending: seq<Event>
    var current: Option<Event>
    var err: Option<Failure>
    var done: bool
    var started: bool
    var aggregate: Option<Usage>

    ghost predicate Valid()
      reads this
    {
      (!started ==> aggregate == None) && (err.Some? ==> done)
    }

    /** What `Next` will still deliver. */
    ghost function Coming(): seq<Event>
      reads this
    {
      if done then []
      else
        var (events, code) := Rest(pending, script);
        if started then Settled(Kept(events), aggregate)
        else Opened(Settled(Kept(events), SeenTwice(events)), run.session)
    }

    /** How it will end. */
    ghost function Outcome(): Ending
      reads this
    {
      if done then (if err.Some? then Failed(err.value) else Finished)
      else
        var (events, code) := Rest(pending, script);
        EndingOf(events, code, run)
    }

    constructor (script: seq<Pumped>, run: Context)
      ensures Valid()
      ensures Coming() == Delivered(Pumpings(script).0, run.session)
      ensures Outcome() == EndingOf(Pumpings(script).0, Pumpings(script).1, run)
      ensures !done && !started && err == None && this.run == run
    {
      this.run, this.script, pending := run, script, [];
      current, err, done, started, aggregate := None, None, false, false, None;
      new;
      assert [] + Pumpings(script).0 == Pumpings(script).0;
    }

    method Fail(failure: Failure)
      modifies `err, `done, `current
      ensures err == Some(failure) && done && current == None
    {
      err, done, current := Some(failure), true, None;
    }

    /** Advances to the next event to come; false, and for ever false, when there is none. */
    method Next() returns (more: bool)
      requires Valid()
      modifies this
      ensures Valid()
      ensures more <==> old(Coming()) != []
      ensures more ==> current == Some(old(Coming())[0]) && Coming() == old(Coming())[1..]
      ensures !more ==> done && Coming() == [] && err == EndedWith(old(Outcome()))
      ensures Outcome() == old(Outcome())
    {
      if done {
        return false;
      }
      ghost var rest := Rest(pending, script);
      while true
        invariant !done && Rest(pending, script) == rest
        invariant started == old(started) && aggregate == old(aggregate) && err == old(err)
        decreases |script|
      {
        if pending != [] {
          more := Take(rest.0, rest.1);
          return;
        }
        assert rest.0 == Pumpings(script).0;
        if script == [] {
          Fail(PumpFailure(TIMED_OUT));
          return false;
        }
        var batch := script[0];
        if batch.Broken? {
          Fail(PumpFailure(batch.code));
          return false;
        }
        script := script[1..];
        var more := batch.Events();
        assert (pending + more) + Pumpings(script).0 == pending + (more + Pumpings(script).0);
        pending := pending + more;
      }
    }

    /** The caller's loop. */
    method Drain() returns (delivered: seq<Event>, failure: Option<Failure>)
      requires Valid()
      modifies this
      ensures delivered == old(Coming()) && failure == EndedWith(old(Outcome()))
    {
      ghost var all, outcome, left := Coming(), Outcome(), Coming();
      delivered := [];
      var more := Next();
      while more
        invariant Valid() && Outcome() == outcome && all == delivered + left
        invariant more ==> left != [] && current == Some(left[0]) && Coming() == left[1..]
        invariant !more ==> left == [] && err == EndedWith(outcome)
        decreases |left|, more
      {
        MoveFirst(delivered, left);
        delivered, left := delivered + [current.value], left[1..];
        more := Next();
      }
      failure := err;
    }

    /** The first pending event is handed out, or ends the iteration. */
    method Take(ghost events: seq<Event>, ghost code: int) returns (more: bool)
      requires Valid() && !done && pending != [] && (events, code) == Rest(pending, script)
      modifies this
      ensures Valid()
      ensures more <==> old(Coming()) != []
      ensures more ==> current == Some(old(Coming())[0]) && Coming() == old(Coming())[1..]
      ensures !more ==> done && Coming() == [] && err == EndedWith(old(Outcome()))
      ensures Outcome() == old(Outcome())
    {
      var event := pending[0];
      if FailsRun(event) {
        UnfoldFailure(events, code, run, if started then aggregate else SeenTwice(events));
        done := done || event.AgentEnd?;
        Fail(FailureOf(event, run));
        return false;
      }
      if started {
        more := Deliver(events, code);
      } else {
        more := Open(events, code);
      }
    }

    /** The usual case: the event is handed out and is gone. */
    method Deliver(ghost events: seq<Event>, ghost code: int) returns (more: bool)
      requires Valid() && started && !done && pending != [] && !FailsRun(pending[0])
      requires (events, code) == Rest(pending, script)
      modifies this
      ensures Valid() && more && started
      ensures old(Coming()) != [] && current == Some(old(Coming())[0]) && Coming() == old(Coming())[1..]
      ensures Outcome() == old(Outcome())
    {
      var event := pending[0];
      pending := pending[1..];
      assert events[1..] == Rest(pending, script).0;
      if event.AgentEnd? {
        UnfoldEnd(events, code, run, aggregate);
        event := WithUsage(event, aggregate);
        done := true;
      } else {
        UnfoldOther(events, code, run, aggregate);
        if event.MessageEnd? {
          aggregate := Add(aggregate, event.usage);
        }
      }
      current := Some(event);
      return true;
    }

    /** The first event of all: unless it is a start itself, one is made up, and the event
        stays for the next call, though its usage has been counted. */
    method Open(ghost events: seq<Event>, ghost code: int) returns (more: bool)
      requires Valid() && !started && !done && pending != [] && !FailsRun(pending[0])
      requires (events, code) == Rest(pending, script)
      modifies this
      ensures Valid() && more && started
      ensures old(Coming()) != [] && current == Some(old(Coming())[0]) && Coming() == old(Coming())[1..]
      ensures Outcome() == old(Outcome())
    {
      var event := pending[0];
      FirstOfAll(events, code, run);
      started := true;
      if event.AgentStart? {
        pending := pending[1..];
        current := Some(event);
        assert events[1..] == Rest(pending, script).0 && aggregate == None;
      } else {
        if event.MessageEnd? {
          aggregate := Add(aggregate, event.usage);
        }
        current := Some(AgentStart(run.session));
        assert events == Rest(pending, script).0 && aggregate == SeenTwice(events);
      }
      return true;
    }
  }

  lemma MoveFirst(xs: seq<Event>, ys: seq<Event>)
    requires ys != []
    ensures xs + ys == xs + [ys[0]] + ys[1..]
  {
  }

  lemma FirstOfAll(events: seq<Event>, code: int, run: Context)
    requires events != [] && !FailsRun(events[0])
    ensures
      var all := Settled(Kept(events), SeenTwice(events));
      if events[0].AgentStart? then
        Opened(all, run.session) == [events[0]] + Settled(Kept(events[1..]), None)
        && EndingOf(events, code, run) == EndingOf(events[1..], code, run)
      else Opened(all, run.session) == [AgentStart(run.session)] + all
  {
    if events[0].AgentEnd? {
      UnfoldEnd(events, code, run, None);
    } else {
      UnfoldOther(events, code, run, SeenTwice(events));
    }
  }

  // ---------- a whole stream

  /** Iterating to the end delivers what was specified and ends as specified. */
  method Collect(script: seq<Pumped>, run: Context) returns (delivered: seq<Event>, failure: Option<Failure>)
    ensures
      var (events, code) := Pumpings(script);
      delivered == Delivered(events, run.session)
      && failure == EndedWith(EndingOf(events, code, run))
  {
    var stream := new Stream(script, run);
    ghost var outcome := stream.Outcome();
    delivered, failure := stream.Drain();
  }

  /** How iterating came to its end. */
  function EndedWith(outcome: Ending): Option<Failure> {
    match outcome
    case Finished => None
    case Failed(f) => Some(f)
  }

  /** Two events that differ at most in the usage an end of the run carries. */
  predicate SameButUsage(a: Event, b: Event) {
    a == b || (a.AgentEnd? && b.AgentEnd? && a == AgentEnd(a.usage, b.stop, b.error, b.provider, b.api))
  }

  lemma {:induction false} SettledKeepsEvents(events: seq<Event>, aggregate: Option<Usage>)
    ensures |Settled(events, aggregate)| == |events|
    ensures forall i :: 0 <= i < |events| ==> SameButUsage(Settled(events, aggregate)[i], events[i])
    decreases |events|
  {
    if events != [] {
      SettledKeepsEvents(events[1..], Counted(aggregate, events[0]));
    }
  }

  /** What a stream delivers: nothing, or a start of the run, made up exactly if the first
      event is none, followed by the pumped events in order, through the first end of the
      run or up to the first failure. */
  lemma DeliveredShape(events: seq<Event>, code: int, run: Context)
    ensures
      var d, kept := Delivered(events, run.session), Kept(events);
      var skip := if kept != [] && !kept[0].AgentStart? then 1 else 0;
      && |d| == skip + |kept| && kept <= events
      && (skip == 1 ==> d[0] == AgentStart(run.session))
      && (d != [] ==> d[0].AgentStart?)
      && (forall i :: 0 <= i < |kept| ==> SameButUsage(d[skip + i], kept[i]))
      && (forall i :: 0 <= i < |kept| - 1 ==> !Ends(kept[i]))
      && (kept != [] ==> (Ends(kept[|kept| - 1]) <==> EndingOf(events, code, run).Finished?))
      && !(exists i :: 0 <= i < |kept| && FailsRun(kept[i]))
  {
    SettledKeepsEvents(Kept(events), SeenTwice(events));
  }
}
