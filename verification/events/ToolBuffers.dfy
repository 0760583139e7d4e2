/** Tool calls that arrive in fragments, several at a time, told apart by an index. */
module ToolBuffers {
  import opened Options
  import opened Strings

  datatype Entry = Entry(id: string, name: string, args: string)

  datatype Call = Call(id: string, name: string, args: string)

  /** A start may come without an index and then takes the number of open buffers; a delta
      or an end without one means index 0. */
  datatype Fragment =
    | Start(at: Option<int>, id: string, name: string)
    | Delta(at: Option<int>, delta: string)
    | End(at: Option<int>, id: string, name: string, args: string)

  function Index(f: Fragment, open: nat): int {
    if f.at.Some? then f.at.value else if f.Start? then open else 0
  }

  // ---------- the buffers

  function Entries(entries: map<int, Entry>, f: Fragment): map<int, Entry> {
    var i := Index(f, |entries|);
    match f
    case Start(_, id, name) => entries[i := Entry(id, name, "")]
    case Delta(_, delta) =>
      var e := if i in entries then entries[i] else Entry("", "", "");
      entries[i := e.(args := e.args + delta)]
    case End(_, _, _, _) => entries - {i}
  }

  /** The call an end emits: its own fields, the buffered ones where they are empty. */
  function Emitted(entries: map<int, Entry>, f: Fragment): Option<Call> {
    if !f.End? then None
    else if Index(f, |entries|) in entries then
      var e := entries[Index(f, |entries|)];
      Some(Call(FirstNonEmpty(f.id, e.id), FirstNonEmpty(f.name, e.name), FirstNonEmpty(f.args, e.args)))
    else Some(Call(f.id, f.name, f.args))
  }

  function After(fragments: seq<Fragment>): map<int, Entry> {
    if fragments == [] then map[]
    else Entries(After(fragments[..|fragments| - 1]), fragments[|fragments| - 1])
  }

  class ToolBuffer {
    var entries: map<int, Entry>

    constructor ()
      ensures entries == map[]
    {
      entries := map[];
    }

    method StartCall(index: int, id: string, name: string)
      modifies this
      ensures entries == old(entries)[index := Entry(id, name, "")]
    {
      entries := entries[index := Entry(id, name, "")];
    }

    method AddDelta(index: int, delta: string)
      modifies this
      ensures
        var e := if index in old(entries) then old(entries)[index] else Entry("", "", "");
        entries == old(entries)[index := e.(args := e.args + delta)]
    {
      if index !in entries {
        entries := entries[index := Entry("", "", "")];
      }
      entries := entries[index := entries[index].(args := entries[index].args + delta)];
    }

    method EndCall(index: int) returns (entry: Option<Entry>)
      modifies this
      ensures entries == old(entries) - {index}
      ensures entry == if index in old(entries) then Some(old(entries)[index]) else None
    {
      entry := if index in entries then Some(entries[index]) else None;
      entries := entries - {index};
    }

    method Normalize(f: Fragment) returns (call: Option<Call>)
      modifies this
      ensures entries == Entries(old(entries), f) && call == Emitted(old(entries), f)
    {
      match f
      case Start(at, id, name) =>
        StartCall(if at.Some? then at.value else |entries|, id, name);
        call := None;
      case Delta(at, delta) =>
        AddDelta(if at.Some? then at.value else 0, delta);
        call := None;
      case End(at, id, name, args) =>
        var entry := EndCall(if at.Some? then at.value else 0);
        var event := Call(id, name, args);
        if entry.Some? {
          event := Call(FirstNonEmpty(id, entry.value.id), FirstNonEmpty(name, entry.value.name), FirstNonEmpty(args, entry.value.args));
        }
        call := Some(event);
    }
  }

  // ---------- what a call depends on

  /** Every start names its index. */
  predicate Explicit(fragments: seq<Fragment>) {
    forall k :: 0 <= k < |fragments| ==> fragments[k].Start? ==> fragments[k].at.Some?
  }

  /** The fragments of one index. */
  function Own(fragments: seq<Fragment>, i: int): seq<Fragment> {
    if fragments == [] then []
    else
      var last := fragments[|fragments| - 1];
      Own(fragments[..|fragments| - 1], i) + if Index(last, 0) == i then [last] else []
  }

  function At(entries: map<int, Entry>, i: int): Option<Entry> {
    if i in entries then Some(entries[i]) else None
  }

  /** A fragment with an index leaves every other buffer as it was. */
  lemma OthersUnchanged(entries: map<int, Entry>, f: Fragment, j: int)
    requires Index(f, |entries|) != j
    ensures At(Entries(entries, f), j) == At(entries, j)
  {
  }

  lemma {:induction false} OwnIsExplicit(fragments: seq<Fragment>, i: int)
    requires Explicit(fragments)
    ensures Explicit(Own(fragments, i))
  {
    if fragments != [] {
      OwnIsExplicit(fragments[..|fragments| - 1], i);
    }
  }

  /** However the fragments of several calls are interleaved, a buffer is what its own
      fragments alone would have made of it. */
  lemma {:induction false} InterleavingIsInvisible(fragments: seq<Fragment>, i: int)
    requires Explicit(fragments)
    ensures At(After(fragments), i) == At(After(Own(fragments, i)), i)
  {
    if fragments != [] {
      var front, last := fragments[..|fragments| - 1], fragments[|fragments| - 1];
      InterleavingIsInvisible(front, i);
      assert Index(last, 0) == Index(last, |After(front)|);
      if Index(last, 0) == i {
        var own := Own(front, i);
        assert (own + [last])[..|own + [last]| - 1] == own;
        assert Index(last, |After(own)|) == i;
      } else {
        assert Own(front, i) + [] == Own(front, i);
        OthersUnchanged(After(front), last, i);
      }
    }
  }

  function DeltaOf(f: Fragment, i: int): string {
    if f.Delta? && Index(f, 0) == i then f.delta else ""
  }

  /** The deltas of one index, strung together. */
  function Deltas(fragments: seq<Fragment>, i: int): string {
    if fragments == [] then ""
    else Deltas(fragments[..|fragments| - 1], i) + DeltaOf(fragments[|fragments| - 1], i)
  }

  /** No call starts or ends at this index in `since`, `before` having gone before: a start
      without an index is judged by the one it takes. */
  predicate Continues(before: seq<Fragment>, since: seq<Fragment>, i: int) {
    forall k :: 0 <= k < |since| ==> since[k].Delta? || Index(since[k], |After(before + since[..k])|) != i
  }

  lemma ContinuesFront(before: seq<Fragment>, since: seq<Fragment>, i: int)
    requires Continues(before, since, i) && since != []
    ensures
      var front, last := since[..|since| - 1], since[|since| - 1];
      Continues(before, front, i) && (last.Delta? || Index(last, |After(before + front)|) != i)
  {
    var front := since[..|since| - 1];
    forall k | 0 <= k < |front| ensures front[k].Delta? || Index(front[k], |After(before + front[..k])|) != i {
      assert front[..k] == since[..k] && front[k] == since[k];
    }
  }

  /** What is buffered at an index; nothing at all reads as an empty buffer. */
  function Buffered(entries: map<int, Entry>, i: int): Entry {
    if i in entries then entries[i] else Entry("", "", "")
  }

  lemma {:induction false} DeltasAreAppended(before: seq<Fragment>, since: seq<Fragment>, i: int)
    requires Continues(before, since, i)
    ensures
      var e := Buffered(After(before), i);
      Buffered(After(before + since), i) == e.(args := e.args + Deltas(since, i))
    decreases |since|
  {
    if since == [] {
      assert before + since == before;
    } else {
      var front, last := since[..|since| - 1], since[|since| - 1];
      ContinuesFront(before, since, i);
      DeltasAreAppended(before, front, i);
      AfterLast(before, since);
      NextFragment(After(before + front), last, i);
      OneMore(Buffered(After(before), i), Deltas(front, i), DeltaOf(last, i));
    }
  }

  lemma OneMore(e: Entry, args: string, delta: string)
    ensures e.(args := (e.args + args) + delta) == e.(args := e.args + (args + delta))
  {
    assert (e.args + args) + delta == e.args + (args + delta);
  }

  lemma AfterLast(before: seq<Fragment>, since: seq<Fragment>)
    requires since != []
    ensures After(before + since) == Entries(After(before + since[..|since| - 1]), since[|since| - 1])
  {
    assert (before + since)[..|before + since| - 1] == before + since[..|since| - 1];
  }

  lemma NextFragment(entries: map<int, Entry>, f: Fragment, i: int)
    requires f.Delta? || Index(f, |entries|) != i
    ensures
      var e := Buffered(entries, i);
      Buffered(Entries(entries, f), i) == e.(args := e.args + DeltaOf(f, i))
  {
    var e := Buffered(entries, i);
    assert e.args + "" == e.args;
  }

  lemma EmittedIs(entries: map<int, Entry>, end: Fragment)
    requires end.End?
    ensures
      var e := Buffered(entries, Index(end, 0));
      Emitted(entries, end) ==
        Some(Call(FirstNonEmpty(end.id, e.id), FirstNonEmpty(end.name, e.name), FirstNonEmpty(end.args, e.args)))
  {
  }

  lemma AfterStart(before: seq<Fragment>, start: Fragment, i: int)
    requires start.Start?
    ensures Buffered(After(before + [start]), i) ==
            if Index(start, |After(before)|) == i then Entry(start.id, start.name, "") else Buffered(After(before), i)
  {
    assert (before + [start])[..|before|] == before;
  }

  /** The call emitted at the end of an index carries, where the end frame leaves a field
      empty, the id and name of the last start and all deltas since, in order, whatever
      came before and whatever other calls did meanwhile. */
  lemma CallIsItsFragments(before: seq<Fragment>, start: Fragment, since: seq<Fragment>, end: Fragment, i: int)
    requires start.Start? && start.at == Some(i) && end.End? && Index(end, 0) == i
    requires Continues(before + [start], since, i)
    ensures Emitted(After(before + [start] + since), end) ==
      Some(Call(FirstNonEmpty(end.id, start.id), FirstNonEmpty(end.name, start.name), FirstNonEmpty(end.args, Deltas(since, i))))
  {
    AfterStart(before, start, i);
    DeltasAreAppended(before + [start], since, i);
    EmittedIs(After(before + [start] + since), end);
    assert "" + Deltas(since, i) == Deltas(since, i);
  }

  /** A start that leaves its index to the number of open buffers, where the deltas and the end
      mean index 0: the end gives the whole call exactly if no buffer is open at the start, or
      what buffer 0 holds is that same start. */
  lemma ImplicitCallIff(before: seq<Fragment>, start: Fragment, since: seq<Fragment>)
    requires start.Start? && start.at == None && Continues(before + [start], since, 0)
    ensures
      Emitted(After(before + [start] + since), End(None, "", "", "")) == Some(Call(start.id, start.name, Deltas(since, 0)))
      <==> After(before) == map[] || Buffered(After(before), 0) == Entry(start.id, start.name, "")
  {
    var n := |After(before)|;
    assert n == 0 <==> After(before) == map[];
    AfterStart(before, start, 0);
    DeltasAreAppended(before + [start], since, 0);
    EmittedIs(After(before + [start] + since), End(None, "", "", ""));
    var args := Buffered(After(before + [start]), 0).args;
    assert args + Deltas(since, 0) == Deltas(since, 0) <==> args == "" by {
      assert |args + Deltas(since, 0)| == |args| + |Deltas(since, 0)|;
    }
  }

  /** What the fragments themselves say: index 0 is not named by a start, nor meant by an end. */
  predicate LeavesFirstAlone(f: Fragment) {
    f.Delta? || (f.Start? && f.at == None) || Index(f, 0) != 0
  }

  /** While buffer 0 is open no start without an index takes it: with no buffer open at the
      start, what comes in between has only to leave index 0 alone in so many words. */
  lemma {:induction false} FirstStaysOpen(before: seq<Fragment>, since: seq<Fragment>)
    requires 0 in After(before) && forall k :: 0 <= k < |since| ==> LeavesFirstAlone(since[k])
    ensures Continues(before, since, 0) && 0 in After(before + since)
    decreases |since|
  {
    if since == [] {
      assert before + since == before;
    } else {
      var front, last := since[..|since| - 1], since[|since| - 1];
      FirstStaysOpen(before, front);
      AfterLast(before, since);
      KeepsFirst(After(before + front), last);
      ContinuesOn(before, since, 0);
    }
  }

  lemma KeepsFirst(entries: map<int, Entry>, f: Fragment)
    requires 0 in entries && LeavesFirstAlone(f)
    ensures (f.Delta? || Index(f, |entries|) != 0) && 0 in Entries(entries, f)
  {
    assert |entries| > 0;
  }

  lemma ContinuesOn(before: seq<Fragment>, since: seq<Fragment>, i: int)
    requires since != []
    requires
      var front, last := since[..|since| - 1], since[|since| - 1];
      Continues(before, front, i) && (last.Delta? || Index(last, |After(before + front)|) != i)
    ensures Continues(before, since, i)
  {
    var front := since[..|since| - 1];
    forall k | 0 <= k < |since| ensures since[k].Delta? || Index(since[k], |After(before + since[..k])|) != i {
      if k < |front| {
        assert front[..k] == since[..k] && front[k] == since[k];
      }
    }
  }

  lemma ImplicitCallIsWhole(before: seq<Fragment>, start: Fragment, since: seq<Fragment>)
    requires start.Start? && start.at == None && After(before) == map[]
    requires forall k :: 0 <= k < |since| ==> LeavesFirstAlone(since[k])
    ensures Emitted(After(before + [start] + since), End(None, "", "", "")) == Some(Call(start.id, start.name, Deltas(since, 0)))
  {
    assert (before + [start])[..|before|] == before;
    FirstStaysOpen(before + [start], since);
    ImplicitCallIff(before, start, since);
  }
}
