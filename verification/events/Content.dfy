/** The assistant message rebuilt from the events of a run. */
module Content {
  datatype Event =
    | MessageStart | MessageEnd
    | TextDelta(delta: string) | ThinkingDelta(delta: string)
    | ToolCall(id: string, name: string, args: string)
    | OtherEvent

  datatype Part = Text(text: string) | Thinking(thinking: string) | Tool(id: string, name: string, args: string)

  /** Plain text if there is nothing else, else parts. */
  datatype Message = Plain(text: string) | Parts(parts: seq<Part>)

  // ---------- what a message says

  /** What a reader of the message gets to see, character by character. */
  datatype Atom = Char(c: char) | Thought(thinking: string) | Request(id: string, name: string, args: string)

  function Chars(s: string): (a: seq<Atom>)
    ensures |a| == |s| && forall i :: 0 <= i < |s| ==> a[i] == Char(s[i])
  {
    seq(|s|, i requires 0 <= i < |s| => Char(s[i]))
  }

  function AtomsOf(e: Event): seq<Atom> {
    match e
    case TextDelta(d) => Chars(d)
    case ThinkingDelta(d) => [Thought(d)]
    case ToolCall(id, name, args) => [Request(id, name, args)]
    case _ => []
  }

  function Said(events: seq<Event>): seq<Atom> {
    if events == [] then [] else Said(events[..|events| - 1]) + AtomsOf(events[|events| - 1])
  }

  function PartAtoms(p: Part): seq<Atom> {
    match p
    case Text(t) => Chars(t)
    case Thinking(t) => [Thought(t)]
    case Tool(id, name, args) => [Request(id, name, args)]
  }

  function Expand(parts: seq<Part>): seq<Atom> {
    if parts == [] then [] else Expand(parts[..|parts| - 1]) + PartAtoms(parts[|parts| - 1])
  }

  function Shown(m: Message): seq<Atom> {
    match m
    case Plain(t) => Chars(t)
    case Parts(ps) => Expand(ps)
  }

  predicate CanonicalParts(parts: seq<Part>) {
    (forall i :: 0 <= i < |parts| ==> parts[i].Text? ==> parts[i].text != "")
    && forall i :: 0 < i < |parts| ==> !(parts[i - 1].Text? && parts[i].Text?)
  }

  /** No empty text and no two texts in a row; parts only if there is something but text. */
  predicate Canonical(m: Message) {
    m.Parts? ==> CanonicalParts(m.parts) && exists i :: 0 <= i < |m.parts| && !m.parts[i].Text?
  }

  /** The text of a message: the concatenation of its text parts. */
  function TextOf(parts: seq<Part>): string {
    if parts == [] then ""
    else TextOf(parts[..|parts| - 1]) + if parts[|parts| - 1].Text? then parts[|parts| - 1].text else ""
  }

  function Deltas(events: seq<Event>): string {
    if events == [] then ""
    else Deltas(events[..|events| - 1]) + if events[|events| - 1].TextDelta? then events[|events| - 1].delta else ""
  }

  // ---------- which events count

  /** Where the last message starts; 0 without one. */
  function LastStart(events: seq<Event>): (k: nat)
    ensures k <= |events|
    ensures k > 0 ==> k < |events| && events[k].MessageStart?
    ensures forall i :: k < i < |events| ==> !events[i].MessageStart?
  {
    LastStartBefore(events, |events|)
  }

  function LastStartBefore(events: seq<Event>, n: nat): (k: nat)
    requires n <= |events|
    ensures k <= n
    ensures k > 0 ==> k < n && events[k].MessageStart?
    ensures forall i :: k < i < n ==> !events[i].MessageStart?
  {
    if n == 0 then 0
    else if events[n - 1].MessageStart? then n - 1
    else LastStartBefore(events, n - 1)
  }

  /** The first message end, or the length if there is none. */
  function FirstEnd(events: seq<Event>): (k: nat)
    ensures k <= |events|
    ensures k < |events| ==> events[k].MessageEnd?
  {
    FirstEndFrom(events, 0)
  }

  function FirstEndFrom(events: seq<Event>, from: nat): (k: nat)
    requires from <= |events|
    ensures from <= k <= |events|
    ensures k < |events| ==> events[k].MessageEnd?
    ensures forall i :: from <= i < k ==> !events[i].MessageEnd?
    decreases |events| - from
  {
    if from == |events| || events[from].MessageEnd? then from else FirstEndFrom(events, from + 1)
  }

  predicate HasStart(events: seq<Event>) {
    exists i :: 0 <= i < |events| && events[i].MessageStart?
  }

  /** Go: from the last message start to the end of the list. */
  function GoFinal(events: seq<Event>): seq<Event> {
    events[LastStart(events)..]
  }

  /** Rust and TypeScript: from the last message start to the first message end after it. */
  function RustFinal(events: seq<Event>): seq<Event> {
    if !HasStart(events) then events
    else
      var start := LastStart(events);
      var tail := if start + 1 <= |events| then events[start + 1..] else [];
      var end := FirstEnd(tail);
      if end == |tail| then events[start..] else events[start..start + 1 + end + 1]
  }

  // ---------- the loop

  /** The text so far becomes a part of its own. */
  function Flush(parts: seq<Part>, text: string): seq<Part> {
    if text != "" then parts + [Text(text)] else parts
  }

  /** The finished parts never end in text, so a flush puts no two texts in a row. */
  predicate Ready(parts: seq<Part>) {
    CanonicalParts(parts) && (parts != [] ==> !parts[|parts| - 1].Text?)
  }

  lemma FlushIsCanonical(parts: seq<Part>, text: string, p: Part)
    requires Ready(parts) && !p.Text?
    ensures CanonicalParts(Flush(parts, text)) && Ready(Flush(parts, text) + [p])
  {
  }

  /** Parts and pending text show what the events so far said. */
  predicate Shows(parts: seq<Part>, text: string, events: seq<Event>) {
    Expand(parts) + Chars(text) == Said(events)
  }

  lemma SaidAppend(events: seq<Event>, e: Event)
    ensures Said(events + [e]) == Said(events) + AtomsOf(e)
  {
    assert (events + [e])[..|events|] == events;
  }

  lemma TextShows(parts: seq<Part>, text: string, events: seq<Event>, e: Event)
    requires Shows(parts, text, events) && e.TextDelta?
    ensures Shows(parts, text + e.delta, events + [e])
  {
    SaidAppend(events, e);
    CharsConcat(text, e.delta);
    Assoc(Expand(parts), Chars(text), Chars(e.delta));
  }

  lemma PartShows(parts: seq<Part>, text: string, events: seq<Event>, e: Event, p: Part)
    requires Shows(parts, text, events) && AtomsOf(e) == PartAtoms(p)
    ensures Shows(Flush(parts, text) + [p], "", events + [e])
  {
    SaidAppend(events, e);
    ExpandFlushed(parts, text, p);
    var said := Said(events + [e]);
    assert said + [] == said;
  }

  lemma OtherShows(parts: seq<Part>, text: string, events: seq<Event>, e: Event)
    requires Shows(parts, text, events) && AtomsOf(e) == []
    ensures Shows(parts, text, events + [e])
  {
    SaidAppend(events, e);
    assert Said(events) + [] == Said(events);
  }

  lemma FinishShows(parts: seq<Part>, text: string, events: seq<Event>)
    requires Shows(parts, text, events) && Ready(parts)
    ensures var m := if parts == [] then Plain(text) else Parts(Flush(parts, text));
            Shown(m) == Said(events) && Canonical(m)
  {
    if parts == [] {
      assert [] + Chars(text) == Chars(text);
    } else {
      ExpandFlush(parts, text);
      FlushIsCanonical(parts, text, Thinking(""));
      assert Flush(parts, text)[|parts| - 1] == parts[|parts| - 1];
    }
  }

  /** The accumulating loop all three clients share. */
  method Assemble(events: seq<Event>) returns (m: Message)
    ensures Shown(m) == Said(events) && Canonical(m)
  {
    var parts: seq<Part>, text := [], "";
    for k := 0 to |events|
      invariant Shows(parts, text, events[..k]) && Ready(parts)
    {
      assert events[..k + 1] == events[..k] + [events[k]];
      if events[k].TextDelta? {
        TextShows(parts, text, events[..k], events[k]);
        text := text + events[k].delta;
      } else if events[k].ThinkingDelta? || events[k].ToolCall? {
        var p := if events[k].ThinkingDelta? then Thinking(events[k].delta)
                 else Tool(events[k].id, events[k].name, events[k].args);
        PartShows(parts, text, events[..k], events[k], p);
        FlushIsCanonical(parts, text, p);
        parts, text := Flush(parts, text) + [p], "";
      } else {
        OtherShows(parts, text, events[..k], events[k]);
      }
    }
    assert events[..|events|] == events;
    FinishShows(parts, text, events);
    if parts == [] {
      return Plain(text);
    }
    return Parts(Flush(parts, text));
  }

  lemma CharsConcat(a: string, b: string)
    ensures Chars(a + b) == Chars(a) + Chars(b)
  {
  }

  lemma ExpandFlush(parts: seq<Part>, text: string)
    ensures Expand(Flush(parts, text)) == Expand(parts) + Chars(text)
  {
    assert (parts + [Text(text)])[..|parts|] == parts;
  }

  lemma ExpandFlushed(parts: seq<Part>, text: string, p: Part)
    ensures Expand(Flush(parts, text) + [p]) == Expand(parts) + Chars(text) + PartAtoms(p)
    ensures Chars("") == []
  {
    ExpandFlush(parts, text);
    var f := Flush(parts, text);
    assert (f + [p])[..|f|] == f;
  }

  // ---------- the message is determined

  /** The pieces of the text parts: what is shown up to the last thing that is not a
      character, and the characters after it. */
  function TrailingText(atoms: seq<Atom>): string {
    if atoms == [] || !atoms[|atoms| - 1].Char? then ""
    else TrailingText(atoms[..|atoms| - 1]) + [atoms[|atoms| - 1].c]
  }

  lemma {:induction false} TrailingOfText(atoms: seq<Atom>, text: string)
    requires atoms == [] || !atoms[|atoms| - 1].Char?
    ensures TrailingText(atoms + Chars(text)) == text
    decreases |text|
  {
    var all := atoms + Chars(text);
    if text == "" {
      assert all == atoms;
    } else {
      var front, c := text[..|text| - 1], text[|text| - 1];
      assert all[..|all| - 1] == atoms + Chars(front) && all[|all| - 1] == Char(c);
      TrailingOfText(atoms, front);
    }
  }

  lemma ExpandLast(parts: seq<Part>)
    requires CanonicalParts(parts) && parts != []
    ensures Expand(parts) != []
    ensures !parts[|parts| - 1].Text? ==> !Expand(parts)[|Expand(parts)| - 1].Char?
  {
  }

  /** The atoms tell whether the last part is text, and which. */
  lemma ExpandTrailing(parts: seq<Part>)
    requires CanonicalParts(parts)
    ensures TrailingText(Expand(parts)) == if parts != [] && parts[|parts| - 1].Text? then parts[|parts| - 1].text else ""
  {
    if parts != [] {
      var front := parts[..|parts| - 1];
      if parts[|parts| - 1].Text? {
        if front != [] {
          ExpandLast(front);
        }
        TrailingOfText(Expand(front), parts[|parts| - 1].text);
      } else {
        ExpandLast(parts);
      }
    }
  }

  /** Parts in canonical form that show the same are the same. */
  lemma {:induction false} CanonicalIsUnique(a: seq<Part>, b: seq<Part>)
    requires CanonicalParts(a) && CanonicalParts(b) && Expand(a) == Expand(b)
    ensures a == b
    decreases |a|
  {
    if a == [] {
      if b != [] {
        ExpandLast(b);
      }
    } else if b == [] {
      ExpandLast(a);
    } else {
      SameLastPart(a, b);
      CanonicalIsUnique(a[..|a| - 1], b[..|b| - 1]);
      assert a == a[..|a| - 1] + [a[|a| - 1]] && b == b[..|b| - 1] + [b[|b| - 1]];
    }
  }

  lemma SameLastPart(a: seq<Part>, b: seq<Part>)
    requires CanonicalParts(a) && CanonicalParts(b) && Expand(a) == Expand(b) && a != [] && b != []
    ensures a[|a| - 1] == b[|b| - 1] && Expand(a[..|a| - 1]) == Expand(b[..|b| - 1])
    ensures CanonicalParts(a[..|a| - 1]) && CanonicalParts(b[..|b| - 1])
  {
    LastPart(a);
    LastPart(b);
    SameLast(Expand(a[..|a| - 1]), a[|a| - 1], Expand(b[..|b| - 1]), b[|b| - 1]);
  }

  lemma LastPart(parts: seq<Part>)
    requires CanonicalParts(parts) && parts != []
    ensures
      var front, last := parts[..|parts| - 1], parts[|parts| - 1];
      CanonicalParts(front) && Expand(parts) == Expand(front) + PartAtoms(last)
      && (last.Text? ==> last.text != "")
      && TrailingText(Expand(parts)) == if last.Text? then last.text else ""
  {
    ExpandTrailing(parts);
  }

  lemma SameLast(x: seq<Atom>, p: Part, y: seq<Atom>, q: Part)
    requires x + PartAtoms(p) == y + PartAtoms(q)
    requires (p.Text? ==> p.text != "") && (q.Text? ==> q.text != "")
    requires (if p.Text? then p.text else "") == (if q.Text? then q.text else "")
    ensures p == q && x == y
  {
    var all := x + PartAtoms(p);
    assert p.Text? <==> q.Text?;
    assert |PartAtoms(p)| == |PartAtoms(q)|;
    assert all[|all| - 1] == PartAtoms(p)[|PartAtoms(p)| - 1] == PartAtoms(q)[|PartAtoms(q)| - 1];
    assert x == all[..|x|] && y == all[..|y|];
  }

  lemma MessageIsUnique(m: Message, n: Message)
    requires Canonical(m) && Canonical(n) && Shown(m) == Shown(n)
    ensures m == n
  {
    if m.Parts? && n.Parts? {
      CanonicalIsUnique(m.parts, n.parts);
    } else if m.Plain? && n.Plain? {
      SameChars(m.text, n.text);
    } else if m.Parts? {
      PartsAreNotPlain(m.parts, n.text);
    } else {
      PartsAreNotPlain(n.parts, m.text);
    }
  }

  lemma SameChars(a: string, b: string)
    requires Chars(a) == Chars(b)
    ensures a == b
  {
    assert |Chars(a)| == |a| && |Chars(b)| == |b|;
    forall i | 0 <= i < |a| ensures a[i] == b[i] {
      assert Chars(a)[i] == Chars(b)[i];
    }
  }

  lemma {:induction false} PartsAreNotPlain(parts: seq<Part>, text: string)
    requires exists i :: 0 <= i < |parts| && !parts[i].Text?
    ensures Expand(parts) != Chars(text)
    decreases |parts|
  {
    var front, last := parts[..|parts| - 1], parts[|parts| - 1];
    if last.Text? {
      var i :| 0 <= i < |parts| && !parts[i].Text?;
      assert front[i] == parts[i];
      if Expand(parts) == Chars(text) {
        assert Expand(front) == Chars(text)[..|Expand(front)|] == Chars(text[..|Expand(front)|]);
        PartsAreNotPlain(front, text[..|Expand(front)|]);
      }
    } else {
      assert Expand(parts)[|Expand(parts)| - 1] == PartAtoms(last)[0];
    }
  }

  // ---------- text

  function Letters(atoms: seq<Atom>): string {
    if atoms == [] then ""
    else Letters(atoms[..|atoms| - 1]) + if atoms[|atoms| - 1].Char? then [atoms[|atoms| - 1].c] else ""
  }

  lemma {:induction false} LettersConcat(a: seq<Atom>, b: seq<Atom>)
    ensures Letters(a + b) == Letters(a) + Letters(b)
    decreases |b|
  {
    if b == [] {
      assert a + b == a;
    } else {
      assert (a + b)[..|a + b| - 1] == a + b[..|b| - 1];
      LettersConcat(a, b[..|b| - 1]);
    }
  }

  lemma {:induction false} LettersOfChars(s: string)
    ensures Letters(Chars(s)) == s
  {
    if s != "" {
      LettersOfChars(s[..|s| - 1]);
      assert Chars(s)[..|s| - 1] == Chars(s[..|s| - 1]);
    }
  }

  lemma {:induction false} LettersSaid(events: seq<Event>)
    ensures Letters(Said(events)) == Deltas(events)
  {
    if events != [] {
      var front, last := events[..|events| - 1], events[|events| - 1];
      LettersSaid(front);
      LettersConcat(Said(front), AtomsOf(last));
      if last.TextDelta? {
        LettersOfChars(last.delta);
      }
    }
  }

  lemma {:induction false} LettersOfParts(parts: seq<Part>)
    ensures Letters(Expand(parts)) == TextOf(parts)
  {
    if parts != [] {
      var front, last := parts[..|parts| - 1], parts[|parts| - 1];
      LettersOfParts(front);
      LettersConcat(Expand(front), PartAtoms(last));
      if last.Text? {
        LettersOfChars(last.text);
      }
    }
  }

  // ---------- the three clients

  /** Go's content: a loop for the last message start, then the loop over the rest; the text
      is strung together from the parts. */
  method GoContent(events: seq<Event>) returns (m: Message, text: string)
    ensures Shown(m) == Said(GoFinal(events)) && Canonical(m)
    ensures text == Deltas(GoFinal(events))
  {
    var start := 0;
    for i := 0 to |events|
      invariant start == LastStartBefore(events, i)
    {
      if events[i].MessageStart? {
        start := i;
      }
    }
    m := Assemble(events[start..]);
    LettersSaid(events[start..]);
    if m.Plain? {
      LettersOfChars(m.text);
      text := m.text;
    } else {
      LettersOfParts(m.parts);
      text := Combine(m.parts);
    }
  }

  method Combine(parts: seq<Part>) returns (text: string)
    ensures text == TextOf(parts)
  {
    text := "";
    for i := 0 to |parts|
      invariant text == TextOf(parts[..i])
    {
      assert parts[..i + 1][..i] == parts[..i];
      if parts[i].Text? {
        text := text + parts[i].text;
      }
    }
    assert parts[..|parts|] == parts;
  }

  /** The content of the Rust and TypeScript clients. */
  method RustContent(events: seq<Event>) returns (m: Message)
    ensures Shown(m) == Said(RustFinal(events)) && Canonical(m)
  {
    m := Assemble(RustFinal(events));
  }

  /** What Go counts and the others do not: the events after the end of the last message. */
  function Trailing(events: seq<Event>): seq<Event> {
    Beyond(RustFinal(events), GoFinal(events))
  }

  function Beyond(some: seq<Event>, all: seq<Event>): seq<Event> {
    if |some| <= |all| then all[|some|..] else []
  }

  lemma Assoc(x: seq<Atom>, y: seq<Atom>, z: seq<Atom>)
    ensures (x + y) + z == x + (y + z)
  {
  }

  lemma {:induction false} SaidConcat(a: seq<Event>, b: seq<Event>)
    ensures Said(a + b) == Said(a) + Said(b)
    decreases |b|
  {
    if b == [] {
      assert a + b == a;
      assert Said(a) + [] == Said(a);
    } else {
      var front, last := b[..|b| - 1], b[|b| - 1];
      SaidConcat(a, front);
      SaidLast(a, b);
      Assoc(Said(a), Said(front), AtomsOf(last));
    }
  }

  lemma SaidLast(a: seq<Event>, b: seq<Event>)
    requires b != []
    ensures
      var front, last := b[..|b| - 1], b[|b| - 1];
      Said(b) == Said(front) + AtomsOf(last) && Said(a + b) == Said(a + front) + AtomsOf(last)
  {
    var front, last := b[..|b| - 1], b[|b| - 1];
    assert a + b == (a + front) + [last];
    SaidAppend(a + front, last);
  }

  lemma FinalsNest(events: seq<Event>)
    ensures GoFinal(events) == RustFinal(events) + Trailing(events)
  {
    assert !HasStart(events) ==> LastStart(events) == 0;
  }

  /** The clients rebuild the same message exactly if nothing is said after the end of the
      last message. */
  lemma ClientsAgreeIff(events: seq<Event>, go: Message, rust: Message)
    requires Canonical(go) && Shown(go) == Said(GoFinal(events))
    requires Canonical(rust) && Shown(rust) == Said(RustFinal(events))
    ensures go == rust <==> Said(Trailing(events)) == []
  {
    FinalsNest(events);
    SaidConcat(RustFinal(events), Trailing(events));
    if Said(Trailing(events)) == [] {
      MessageIsUnique(go, rust);
    }
  }

  // ---------- bracketed lists

  /** The list ends inside a message. */
  predicate InMessage(events: seq<Event>) {
    events != [] && (events[|events| - 1].MessageStart?
                     || (!events[|events| - 1].MessageEnd? && InMessage(events[..|events| - 1])))
  }

  predicate Bracketed(events: seq<Event>) {
    forall i :: 0 <= i < |events| && AtomsOf(events[i]) != [] ==> InMessage(events[..i])
  }

  /** After the end that follows the last start, the list stays outside a message. */
  lemma {:induction false} OutsideAfterEnd(events: seq<Event>, end: nat, i: nat)
    requires LastStart(events) < end < i <= |events| && events[end].MessageEnd?
    ensures !InMessage(events[..i])
    decreases i
  {
    var prefix := events[..i];
    assert prefix[i - 1] == events[i - 1] && prefix[..i - 1] == events[..i - 1];
    assert !events[i - 1].MessageStart?;
    if end < i - 1 {
      OutsideAfterEnd(events, end, i - 1);
    }
  }

  lemma {:induction false} SilentSaysNothing(events: seq<Event>)
    requires forall i :: 0 <= i < |events| ==> AtomsOf(events[i]) == []
    ensures Said(events) == []
  {
    if events != [] {
      SilentSaysNothing(events[..|events| - 1]);
    }
  }

  /** On lists that say something only inside messages, the clients agree. */
  lemma BracketedAgree(events: seq<Event>)
    requires Bracketed(events)
    ensures Said(Trailing(events)) == []
  {
    if HasStart(events) {
      if Trailing(events) != [] {
        var end := TrailingStart(events);
        LateIsSilent(events, end);
        SilentSaysNothing(events[end + 1..]);
      }
    } else {
      assert LastStart(events) == 0;
    }
  }

  lemma TrailingStart(events: seq<Event>) returns (end: nat)
    requires HasStart(events) && Trailing(events) != []
    ensures LastStart(events) < end < |events| && events[end].MessageEnd? && Trailing(events) == events[end + 1..]
  {
    var start := LastStart(events);
    var tail := events[start + 1..];
    end := start + 1 + FirstEnd(tail);
    TrailingIs(events, start, tail);
  }

  lemma TrailingIs(events: seq<Event>, start: nat, tail: seq<Event>)
    requires HasStart(events) && start == LastStart(events) < |events| && tail == events[start + 1..]
    ensures FirstEnd(tail) == |tail| ==> Trailing(events) == []
    ensures FirstEnd(tail) < |tail| ==>
              var end := start + 1 + FirstEnd(tail);
              tail[FirstEnd(tail)] == events[end] && Trailing(events) == events[end + 1..]
  {
    var k := FirstEnd(tail);
    RustFinalIs(events, start, tail, k);
    if k < |tail| {
      BeyondFirst(events, start, k + 2);
    }
  }

  lemma BeyondFirst(events: seq<Event>, start: nat, length: nat)
    requires start + length <= |events|
    ensures Beyond(events[start..start + length], events[start..]) == events[start + length..]
  {
  }

  lemma RustFinalIs(events: seq<Event>, start: nat, tail: seq<Event>, k: nat)
    requires HasStart(events) && start == LastStart(events) < |events| && tail == events[start + 1..] && k == FirstEnd(tail)
    ensures RustFinal(events) == if k == |tail| then events[start..] else events[start..start + 1 + k + 1]
  {
  }

  lemma LateIsSilent(events: seq<Event>, end: nat)
    requires Bracketed(events) && LastStart(events) < end < |events| && events[end].MessageEnd?
    ensures var late := events[end + 1..]; forall i :: 0 <= i < |late| ==> AtomsOf(late[i]) == []
  {
    var late := events[end + 1..];
    forall i | 0 <= i < |late| ensures AtomsOf(late[i]) == [] {
      OutsideAfterEnd(events, end, end + 1 + i);
    }
  }
}
