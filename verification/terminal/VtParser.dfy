/** Cutting a terminal byte stream into control sequences and glyphs, from any chunking.
    The cut of a stream depends on what has arrived so far, and `SplitSafe` is the exact
    condition under which it does not matter how the stream arrives. */
module VtParser {
  import opened Bytes

  const ESC: Byte := 0x1B

  /** More bytes than this without an end, and a sequence is given up. */
  const CSI_LIMIT := 64
  const STRING_LIMIT := 8192

  datatype Action =
    | Ignored
    | Csi(params: seq<Byte>, final: Byte)
    | SaveCursor | RestoreCursor | ReverseIndex | Index | NextLine
    | CarriageReturn | LineFeed | Backspace | Tab
    | Glyph(bytes: seq<Byte>)

  /** The bytes one step consumes. */
  type Token = seq<Byte>

  /** One step at the front of what has arrived: wait for more, or consume `length` bytes.
      The decision looked at `seen` bytes and holds as soon as that many have arrived. */
  datatype Cut = Wait | Cut(length: nat, seen: nat)

  // ---------- control sequences (section 5.4 of ECMA-48)

  predicate IsParameter(b: Byte) { 0x30 <= b <= 0x3F }

  predicate IsIntermediate(b: Byte) { 0x20 <= b <= 0x2F }

  predicate IsFinal(b: Byte) { 0x40 <= b <= 0x7E }

  function AfterParameters(b: seq<Byte>, j: nat): (k: nat)
    requires j <= |b|
    ensures j <= k <= |b|
    decreases |b| - j
  {
    if j < |b| && IsParameter(b[j]) then AfterParameters(b, j + 1) else j
  }

  function AfterIntermediates(b: seq<Byte>, j: nat): (k: nat)
    requires j <= |b|
    ensures j <= k <= |b|
    decreases |b| - j
  {
    if j < |b| && IsIntermediate(b[j]) then AfterIntermediates(b, j + 1) else j
  }

  lemma ParametersRun(b: seq<Byte>, j: nat)
    requires j <= |b|
    ensures var k := AfterParameters(b, j);
            (forall i :: j <= i < k ==> IsParameter(b[i])) && (k < |b| ==> !IsParameter(b[k]))
    decreases |b| - j
  {
    if j < |b| && IsParameter(b[j]) {
      ParametersRun(b, j + 1);
    }
  }

  lemma IntermediatesRun(b: seq<Byte>, j: nat)
    requires j <= |b|
    ensures var k := AfterIntermediates(b, j);
            (forall i :: j <= i < k ==> IsIntermediate(b[i])) && (k < |b| ==> !IsIntermediate(b[k]))
    decreases |b| - j
  {
    if j < |b| && IsIntermediate(b[j]) {
      IntermediatesRun(b, j + 1);
    }
  }

  /** The length of the control sequence at the front, 0 if there is none (yet). */
  function CsiLength(b: seq<Byte>): (n: nat)
    requires |b| >= 2
    ensures n <= |b| && (n == 0 || n >= 3)
  {
    var q := AfterIntermediates(b, AfterParameters(b, 2));
    if q < |b| && IsFinal(b[q]) then q + 1 else 0
  }

  /** An introducer, parameter bytes up to `p`, intermediate bytes and one final byte. */
  predicate CsiShape(t: seq<Byte>, p: nat) {
    2 <= p < |t| && t[0] == ESC && t[1] == 0x5B && IsFinal(t[|t| - 1])
    && (forall i :: 2 <= i < p ==> IsParameter(t[i]))
    && (forall i :: p <= i < |t| - 1 ==> IsIntermediate(t[i]))
  }

  ghost predicate IsCsi(t: seq<Byte>) {
    exists p :: CsiShape(t, p)
  }

  /** The front of a buffer has at most one control sequence, and that one is found. */
  lemma CsiLengthIff(b: seq<Byte>, n: nat)
    requires |b| >= 2 && b[0] == ESC && b[1] == 0x5B && 0 < n <= |b|
    ensures CsiLength(b) == n <==> IsCsi(b[..n])
  {
    var p := AfterParameters(b, 2);
    var t := b[..n];
    if CsiLength(b) == n {
      ParametersRun(b, 2);
      IntermediatesRun(b, p);
      assert CsiShape(t, p);
    }
    if IsCsi(t) {
      var p' :| CsiShape(t, p');
      CsiFound(b, n, p');
    }
  }

  lemma CsiFound(b: seq<Byte>, n: nat, p: nat)
    requires n <= |b| && CsiShape(b[..n], p)
    ensures CsiLength(b) == n && AfterParameters(b, 2) == p
  {
    var t := b[..n];
    var p', q := AfterParameters(b, 2), AfterIntermediates(b, p);
    ParametersRun(b, 2);
    IntermediatesRun(b, p);
    assert forall i :: 0 <= i < n ==> t[i] == b[i];
    assert !IsParameter(b[p]) && !IsIntermediate(b[n - 1]);
  }

  // ---------- control strings, ended by BEL or ESC \

  predicate EndsString(b: seq<Byte>, j: nat)
    requires j < |b|
  {
    b[j] == 0x07 || (b[j] == ESC && j + 1 < |b| && b[j + 1] == 0x5C)
  }

  /** Where the string scan that is now at `j` ends, 0 if nothing ends it (yet). */
  function StringEnd(b: seq<Byte>, j: nat): (n: nat)
    requires j <= |b|
    ensures n <= |b| && (n == 0 || n > j)
    decreases |b| - j
  {
    if j == |b| then 0
    else if b[j] == 0x07 then j + 1
    else if EndsString(b, j) then j + 2
    else StringEnd(b, j + 1)
  }

  // ---------- one step

  predicate OpensString(b: Byte) { b == 0x5D || b == 0x50 || b == 0x5F || b == 0x5E || b == 0x58 }

  predicate OpensDesignator(b: Byte) { 0x28 <= b <= 0x2B }

  /** The length of a UTF-8 character by its first byte. */
  function GlyphLength(b: Byte): nat {
    if b < 0x80 then 1 else if b < 0xE0 then 2 else if b < 0xF0 then 3 else 4
  }

  function Min(a: nat, b: nat): nat { if a <= b then a else b }

  function Max(a: nat, b: nat): nat { if a >= b then a else b }

  function CutSequence(b: seq<Byte>): (c: Cut)
    requires |b| >= 2
    ensures c.Cut? ==> 0 < c.length <= c.seen <= |b|
  {
    if b[1] == 0x5B then
      var n := CsiLength(b);
      if n > 0 then Cut(n, n)
      else if |b| > CSI_LIMIT then Cut(2, CSI_LIMIT + 1)
      else Wait
    else if OpensString(b[1]) then
      var n := StringEnd(b, 2);
      if n > 0 then Cut(n, n)
      else if |b| > STRING_LIMIT then Cut(2, STRING_LIMIT + 1)
      else Wait
    else if OpensDesignator(b[1]) then Cut(Min(3, |b|), Min(3, |b|))
    else Cut(2, 2)
  }

  function NextCut(b: seq<Byte>): (c: Cut)
    requires b != []
    ensures c.Cut? ==> 0 < c.length <= c.seen <= |b|
  {
    if b[0] == ESC then (if |b| < 2 then Wait else CutSequence(b))
    else if b[0] < 0x20 || b[0] == 0x7F then Cut(1, 1)
    else if GlyphLength(b[0]) > |b| then Wait
    else Cut(GlyphLength(b[0]), GlyphLength(b[0]))
  }

  // ---------- what a token does

  function EscapeAction(b: Byte): Action {
    if b == 0x37 then SaveCursor
    else if b == 0x38 then RestoreCursor
    else if b == 0x4D then ReverseIndex
    else if b == 0x44 then Index
    else if b == 0x45 then NextLine
    else Ignored
  }

  function ControlAction(b: Byte): Action {
    if b == 0x0D then CarriageReturn
    else if 0x0A <= b <= 0x0C then LineFeed
    else if b == 0x08 then Backspace
    else if b == 0x09 then Tab
    else Ignored
  }

  /** A sequence that was given up, a control string and a designator do nothing. */
  function ActionOf(t: Token): Action {
    if |t| >= 2 && t[0] == ESC then
      if t[1] == 0x5B then
        if |t| == 2 then Ignored else Csi(t[2..AfterParameters(t, 2)], t[|t| - 1])
      else if OpensString(t[1]) || OpensDesignator(t[1]) then Ignored
      else EscapeAction(t[1])
    else if |t| == 1 && (t[0] < 0x20 || t[0] == 0x7F) then ControlAction(t[0])
    else Glyph(t)
  }

  // ---------- a whole buffer

  datatype Parsed = Parsed(tokens: seq<Token>, rest: seq<Byte>)

  /** All steps that what has arrived allows, and the bytes held back. */
  function Parse(b: seq<Byte>): Parsed
    decreases |b|
  {
    if b == [] || NextCut(b).Wait? then Parsed([], b)
    else
      var c := NextCut(b);
      var more := Parse(b[c.length..]);
      Parsed([b[..c.length]] + more.tokens, more.rest)
  }

  /** The same with the bytes arriving in chunks, `held` being held back at first. */
  function ParseChunks(held: seq<Byte>, chunks: seq<seq<Byte>>): Parsed
    decreases |chunks|
  {
    if chunks == [] then Parsed([], held)
    else
      var first := Parse(held + chunks[0]);
      var more := ParseChunks(first.rest, chunks[1..]);
      Parsed(first.tokens + more.tokens, more.rest)
  }

  /** Nothing is lost: the tokens and the bytes held back spell the buffer. */
  lemma {:induction false} ParseKeepsBytes(b: seq<Byte>)
    ensures Joined(Parse(b).tokens) + Parse(b).rest == b
    decreases |b|
  {
    if b == [] || NextCut(b).Wait? {
      assert Parse(b) == Parsed([], b);
    } else {
      var n := NextCut(b).length;
      ParseKeepsBytes(b[n..]);
      ParseStep(b);
      StepKeepsBytes(b, n, Parse(b[n..]));
    }
  }

  lemma StepKeepsBytes(b: seq<Byte>, n: nat, more: Parsed)
    requires n <= |b| && Joined(more.tokens) + more.rest == b[n..]
    ensures Joined(Prepend(b[..n], more).tokens) + Prepend(b[..n], more).rest == b
  {
    PrependKeepsBytes(b[..n], more);
    assert b == b[..n] + b[n..];
  }

  lemma PrependKeepsBytes(t: Token, p: Parsed)
    ensures Joined(Prepend(t, p).tokens) + p.rest == t + (Joined(p.tokens) + p.rest)
  {
    assert ([t] + p.tokens)[1..] == p.tokens;
  }

  /** What is held back can only wait. */
  lemma {:induction false} RestWaits(b: seq<Byte>)
    ensures var rest := Parse(b).rest; rest == [] || NextCut(rest).Wait?
    decreases |b|
  {
    if b != [] && NextCut(b).Cut? {
      RestWaits(b[NextCut(b).length..]);
    }
  }

  // ---------- when chunking does not matter

  /** A designator of three bytes, or a sequence that some arrival would have given up, when
      at least the first `need` bytes are known to be there. */
  predicate Breakable(b: seq<Byte>, length: nat, need: nat) {
    |b| >= 2 && b[0] == ESC
    && if b[1] == 0x5B then Max(need, CSI_LIMIT + 1) < length
       else if OpensString(b[1]) then Max(need, STRING_LIMIT + 1) < length
       else OpensDesignator(b[1]) && length == 3 && need <= 2
  }

  /** No token of the stream is breakable. Giving a sequence up needs more bytes than it
      consumes, so the tokens after it are known to have arrived in part. */
  predicate SafeFrom(b: seq<Byte>, need: nat)
    decreases |b|
  {
    if b == [] || NextCut(b).Wait? then true
    else
      var c := NextCut(b);
      !Breakable(b, c.length, need) && SafeFrom(b[c.length..], Max(need, c.seen) - c.length)
  }

  predicate SplitSafe(b: seq<Byte>) { SafeFrom(b, 0) }

  lemma {:induction false} ParametersOfPrefix(a: seq<Byte>, x: seq<Byte>, j: nat)
    requires j <= |a|
    ensures var k := AfterParameters(a, j);
            if k < |a| then AfterParameters(a + x, j) == k else AfterParameters(a + x, j) >= |a|
    decreases |a| - j
  {
    if j < |a| && IsParameter(a[j]) {
      ParametersOfPrefix(a, x, j + 1);
    }
  }

  lemma {:induction false} IntermediatesOfPrefix(a: seq<Byte>, x: seq<Byte>, j: nat)
    requires j <= |a|
    ensures var k := AfterIntermediates(a, j);
            if k < |a| then AfterIntermediates(a + x, j) == k else AfterIntermediates(a + x, j) >= |a|
    decreases |a| - j
  {
    if j < |a| && IsIntermediate(a[j]) {
      IntermediatesOfPrefix(a, x, j + 1);
    }
  }

  lemma CsiOfPrefix(a: seq<Byte>, x: seq<Byte>)
    requires |a| >= 2
    ensures CsiLength(a) > 0 ==>
      CsiLength(a + x) == CsiLength(a) && AfterParameters(a + x, 2) == AfterParameters(a, 2) < |a|
    ensures CsiLength(a) == 0 && CsiLength(a + x) > 0 ==> CsiLength(a + x) > |a|
  {
    ParametersOfPrefix(a, x, 2);
    var p := AfterParameters(a, 2);
    if p < |a| {
      IntermediatesOfPrefix(a, x, p);
    }
  }

  lemma {:induction false} StringOfPrefix(a: seq<Byte>, x: seq<Byte>, j: nat)
    requires j <= |a|
    ensures StringEnd(a, j) > 0 ==> StringEnd(a + x, j) == StringEnd(a, j)
    ensures StringEnd(a, j) == 0 && StringEnd(a + x, j) > 0 ==> StringEnd(a + x, j) > |a|
    decreases |a| - j
  {
    if j < |a| {
      assert (a + x)[j] == a[j] && (j + 1 < |a| ==> (a + x)[j + 1] == a[j + 1]);
      if j + 1 < |a| || a[j] == 0x07 {
        StringOfPrefix(a, x, j + 1);
      }
    }
  }

  /** A prefix that has what the decision needed decides alike; one that has not waits, or
      gives up a breakable token, or cuts a designator short. */
  lemma CutOfPrefix(a: seq<Byte>, x: seq<Byte>, need: nat)
    requires a != [] && need <= |a|
    ensures NextCut(a + x).Wait? ==> NextCut(a).Wait?
    ensures NextCut(a).Wait? || NextCut(a) == NextCut(a + x)
            || (NextCut(a + x).Cut? && Breakable(a + x, NextCut(a + x).length, need))
    ensures var c := NextCut(a + x);
            c.Cut? && c.seen <= |a| ==> NextCut(a) == c
  {
    var b := a + x;
    assert b[0] == a[0] && (|a| >= 2 ==> b[1] == a[1]);
    if a[0] == ESC && |a| >= 2 {
      if a[1] == 0x5B {
        CsiOfPrefix(a, x);
      } else if OpensString(a[1]) {
        StringOfPrefix(a, x, 2);
      }
    }
  }

  /** The first step of a prefix is the first step of a safe stream. */
  lemma HeadOfPrefix(a: seq<Byte>, x: seq<Byte>, need: nat)
    requires a != [] && NextCut(a).Cut? && need <= |a| && SafeFrom(a + x, need)
    ensures NextCut(a + x) == NextCut(a)
    ensures var c := NextCut(a);
            (a + x)[c.length..] == a[c.length..] + x && (a + x)[..c.length] == a[..c.length]
            && SafeFrom(a[c.length..] + x, Max(need, c.seen) - c.length)
  {
    SafeHead(a, x, need);
    SafeTail(a + x, need, NextCut(a));
    Slices(a, x, NextCut(a).length);
  }

  lemma SafeTail(b: seq<Byte>, need: nat, c: Cut)
    requires b != [] && c == NextCut(b) && c.Cut? && SafeFrom(b, need)
    ensures SafeFrom(b[c.length..], Max(need, c.seen) - c.length)
  {
  }

  lemma SafeHead(a: seq<Byte>, x: seq<Byte>, need: nat)
    requires a != [] && NextCut(a).Cut? && need <= |a| && SafeFrom(a + x, need)
    ensures NextCut(a + x) == NextCut(a)
  {
    CutOfPrefix(a, x, need);
  }

  lemma Slices(a: seq<Byte>, x: seq<Byte>, n: nat)
    requires n <= |a|
    ensures (a + x)[n..] == a[n..] + x && (a + x)[..n] == a[..n]
  {
  }

  function Prepend(t: Token, p: Parsed): Parsed {
    Parsed([t] + p.tokens, p.rest)
  }

  /** First what came, then the rest of it with what came later. */
  function Then(first: Parsed, x: seq<Byte>): Parsed {
    var second := Parse(first.rest + x);
    Parsed(first.tokens + second.tokens, second.rest)
  }

  lemma ThenPrepend(t: Token, first: Parsed, x: seq<Byte>)
    ensures Then(Prepend(t, first), x) == Prepend(t, Then(first, x))
  {
    var tail := Parse(first.rest + x).tokens;
    assert ([t] + first.tokens) + tail == [t] + (first.tokens + tail);
  }

  lemma ParseStep(b: seq<Byte>)
    requires b != [] && NextCut(b).Cut?
    ensures var c := NextCut(b);
            Parse(b) == Prepend(b[..c.length], Parse(b[c.length..]))
  {
  }

  lemma ThenFirst(a: seq<Byte>, x: seq<Byte>)
    requires a == [] || NextCut(a).Wait?
    ensures Parse(a) == Parsed([], a)
    ensures Then(Parse(a), x) == Parse(a + x)
  {
    var whole := Parse(a + x);
    assert [] + whole.tokens == whole.tokens;
  }

  lemma ThenStep(a: seq<Byte>, x: seq<Byte>, c: Cut, rest: seq<Byte>)
    requires a != [] && NextCut(a) == c == NextCut(a + x) && c.Cut? && a[c.length..] == rest
    requires (a + x)[c.length..] == rest + x && (a + x)[..c.length] == a[..c.length]
    requires Parse(rest + x) == Then(Parse(rest), x)
    ensures Parse(a + x) == Then(Parse(a), x) && Parse(a).rest == Parse(rest).rest
  {
    ParseStep(a);
    ParseStep(a + x);
    ThenPrepend(a[..c.length], Parse(rest), x);
  }

  /** Cutting a stream in two. The result is how many of the bytes held back must be there. */
  lemma {:induction false} SplitParse(a: seq<Byte>, x: seq<Byte>, need: nat) returns (left: nat)
    requires need <= |a| && SafeFrom(a + x, need)
    ensures Parse(a + x) == Then(Parse(a), x)
    ensures left <= |Parse(a).rest| && SafeFrom(Parse(a).rest + x, left)
    decreases |a|
  {
    if a == [] || NextCut(a).Wait? {
      ThenFirst(a, x);
      left := need;
    } else {
      var c := NextCut(a);
      HeadOfPrefix(a, x, need);
      left := SplitParse(a[c.length..], x, Max(need, c.seen) - c.length);
      ThenStep(a, x, c, a[c.length..]);
    }
  }

  lemma {:induction false} ChunksParse(held: seq<Byte>, chunks: seq<seq<Byte>>, need: nat)
    requires held == [] || NextCut(held).Wait?
    requires need <= |held| && SafeFrom(held + Joined(chunks), need)
    ensures ParseChunks(held, chunks) == Parse(held + Joined(chunks))
    decreases |chunks|
  {
    if chunks == [] {
      assert held + [] == held;
    } else {
      var a, x := held + chunks[0], Joined(chunks[1..]);
      assert a + x == held + Joined(chunks);
      var left := SplitParse(a, x, need);
      RestWaits(a);
      ChunksParse(Parse(a).rest, chunks[1..], left);
    }
  }

  ghost predicate SplitsBadly(b: seq<Byte>, n: nat) {
    n <= |b| && Then(Parse(b[..n]), b[n..]) != Parse(b)
  }

  /** A breakable token is given up, or cut short, when the arrivals pause inside it. */
  lemma BreakableSplits(b: seq<Byte>, need: nat) returns (n: nat)
    requires b != [] && NextCut(b).Cut? && Breakable(b, NextCut(b).length, need)
    ensures need <= n && SplitsBadly(b, n)
  {
    n := if b[1] == 0x5B then Max(need, CSI_LIMIT + 1)
         else if OpensString(b[1]) then Max(need, STRING_LIMIT + 1)
         else 2;
    var a, x := b[..n], b[n..];
    assert b == a + x && a[0] == b[0] && a[1] == b[1];
    if b[1] == 0x5B {
      CsiOfPrefix(a, x);
    } else if OpensString(b[1]) {
      StringOfPrefix(a, x, 2);
    }
    assert NextCut(a).Cut? && NextCut(a).length == 2 < NextCut(b).length;
    assert Then(Parse(a), x).tokens[0] == a[..2];
    assert |a[..2]| != |Parse(b).tokens[0]|;
  }

  lemma UnsafeStep(b: seq<Byte>, need: nat) returns (c: Cut, rest: seq<Byte>, later: nat)
    requires !SafeFrom(b, need)
    ensures b != [] && c == NextCut(b) && c.Cut? && rest == b[c.length..] && |rest| < |b|
    ensures Breakable(b, c.length, need) || !SafeFrom(rest, later)
    ensures later + c.length >= need && later + c.length >= c.seen
  {
    c := NextCut(b);
    rest := b[c.length..];
    later := Max(need, c.seen) - c.length;
  }

  /** An unsafe stream has a cut in two that parses differently. */
  lemma {:induction false} UnsafeSplits(b: seq<Byte>, need: nat) returns (n: nat)
    requires !SafeFrom(b, need)
    ensures need <= n && SplitsBadly(b, n)
    decreases |b|
  {
    var c, rest, later := UnsafeStep(b, need);
    if Breakable(b, c.length, need) {
      n := BreakableSplits(b, need);
    } else {
      var m := UnsafeSplits(rest, later);
      n := c.length + m;
      SplitsLater(b, c, rest, m);
    }
  }

  lemma SplitsLater(b: seq<Byte>, c: Cut, rest: seq<Byte>, m: nat)
    requires b != [] && c == NextCut(b) && c.Cut? && rest == b[c.length..]
    requires m + c.length >= c.seen && SplitsBadly(rest, m)
    ensures SplitsBadly(b, c.length + m)
  {
    var n := c.length + m;
    var a, x := b[..n], b[n..];
    assert a + x == b && rest[m..] == x;
    CutOfPrefix(a, x, 0);
    assert a[c.length..] == rest[..m] && a[..c.length] == b[..c.length];
    var token := b[..c.length];
    ParseStep(a);
    ParseStep(b);
    ThenPrepend(token, Parse(rest[..m]), x);
    assert Prepend(token, Parse(rest)).tokens[1..] == Parse(rest).tokens;
    assert Prepend(token, Then(Parse(rest[..m]), x)).tokens[1..] == Then(Parse(rest[..m]), x).tokens;
  }

  lemma SafeInAnyChunks(s: seq<Byte>, chunks: seq<seq<Byte>>)
    requires SplitSafe(s) && Joined(chunks) == s
    ensures ParseChunks([], chunks) == Parse(s)
  {
    assert [] + Joined(chunks) == s;
    ChunksParse([], chunks, 0);
  }

  lemma UnsafeInSomeChunks(s: seq<Byte>) returns (chunks: seq<seq<Byte>>)
    requires !SplitSafe(s)
    ensures Joined(chunks) == s && ParseChunks([], chunks) != Parse(s)
  {
    var n := UnsafeSplits(s, 0);
    chunks := [s[..n], s[n..]];
    JoinedTwo(s[..n], s[n..]);
    TwoChunks(s[..n], s[n..]);
  }

  lemma JoinedTwo(a: seq<Byte>, x: seq<Byte>)
    ensures Joined([a, x]) == a + x
  {
    assert [a, x][1..] == [x] && [x][1..] == [];
    assert Joined([x]) == x + [] == x;
  }

  /** Every way for the bytes to arrive gives the same steps and holds the same bytes back,
      exactly if no token of the stream is breakable. */
  lemma ChunkingIff(s: seq<Byte>)
    ensures SplitSafe(s) <==>
            forall chunks :: Joined(chunks) == s ==> ParseChunks([], chunks) == Parse(s)
  {
    if SplitSafe(s) {
      forall chunks | Joined(chunks) == s ensures ParseChunks([], chunks) == Parse(s) {
        SafeInAnyChunks(s, chunks);
      }
    } else {
      var chunks := UnsafeInSomeChunks(s);
    }
  }

  lemma TwoChunks(a: seq<Byte>, x: seq<Byte>)
    ensures ParseChunks([], [a, x]) == Then(Parse(a), x)
  {
    var first := Parse(a);
    var second := Parse(first.rest + x);
    assert [] + a == a && [a, x][1..] == [x];
    assert ParseChunks(first.rest, [x]).tokens == second.tokens + [];
  }

  predicate Sturdy(t: Token) {
    |t| >= 2 && t[0] == ESC ==>
      if t[1] == 0x5B then |t| <= CSI_LIMIT + 1
      else if OpensString(t[1]) then |t| <= STRING_LIMIT + 1
      else OpensDesignator(t[1]) ==> |t| < 3
  }

  /** A stream is safe if it has no whole designator and its sequences are not too long. */
  lemma {:induction false} SturdyIsSafe(b: seq<Byte>, need: nat)
    requires AllSturdy(Parse(b).tokens)
    ensures SafeFrom(b, need)
    decreases |b|
  {
    if b != [] && NextCut(b).Cut? {
      var c := NextCut(b);
      ParseStep(b);
      FirstIsSturdy(b[..c.length], Parse(b[c.length..]).tokens);
      SturdyIsUnbreakable(b, need);
      SturdyIsSafe(b[c.length..], Max(need, c.seen) - c.length);
    }
  }

  predicate AllSturdy(tokens: seq<Token>) {
    forall i :: 0 <= i < |tokens| ==> Sturdy(tokens[i])
  }

  lemma FirstIsSturdy(t: Token, more: seq<Token>)
    requires AllSturdy([t] + more)
    ensures Sturdy(t) && AllSturdy(more)
  {
    assert ([t] + more)[0] == t;
    assert forall i :: 0 <= i < |more| ==> ([t] + more)[i + 1] == more[i];
  }

  lemma SturdyIsUnbreakable(b: seq<Byte>, need: nat)
    requires b != [] && NextCut(b).Cut? && Sturdy(b[..NextCut(b).length])
    ensures !Breakable(b, NextCut(b).length, need)
  {
    var t := b[..NextCut(b).length];
    assert t[0] == b[0] && (|t| >= 2 ==> t[1] == b[1]);
  }
}
