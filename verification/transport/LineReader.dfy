/** The bounded line reader: over a buffer of any size it reads the lines of a stream one
    by one, dropping a line over the limit and nothing else. */
module LineReader {
  import opened Bytes

  const NEWLINE: Byte := 10

  /** What the stream ends with: its end, or a read error. */
  datatype Failure = EndOfStream | Broken(code: int)

  datatype LineResult = Line(bytes: seq<Byte>) | Oversized | Failed(failure: Failure)

  datatype Status = Delimited | BufferFull | Ended

  // ---------- the specification

  /** The position of the first newline, or the length if there is none. */
  function NewlineAt(s: seq<Byte>): (k: nat)
    ensures k <= |s|
    ensures k < |s| ==> s[k] == NEWLINE
    ensures forall j :: 0 <= j < k ==> s[j] != NEWLINE
  {
    if s == [] || s[0] == NEWLINE then 0 else 1 + NewlineAt(s[1..])
  }

  predicate NoNewline(s: seq<Byte>) {
    forall j :: 0 <= j < |s| ==> s[j] != NEWLINE
  }

  /** The lines of a stream, each with its newline; the last one may have none. */
  function Lines(s: seq<Byte>): seq<seq<Byte>> {
    if s == [] then []
    else if NewlineAt(s) == |s| then [s]
    else [s[..NewlineAt(s) + 1]] + Lines(s[NewlineAt(s) + 1..])
  }

  predicate Terminated(line: seq<Byte>) {
    line != [] && line[|line| - 1] == NEWLINE && forall j :: 0 <= j < |line| - 1 ==> line[j] != NEWLINE
  }

  predicate Unterminated(line: seq<Byte>) {
    line != [] && NoNewline(line)
  }

  /** Cutting a stream at its newlines: nothing lost, a newline ends every line but perhaps
      the last and occurs nowhere else. */
  predicate IsLines(s: seq<Byte>, lines: seq<seq<Byte>>) {
    Joined(lines) == s
    && (forall i :: 0 <= i < |lines| - 1 ==> Terminated(lines[i]))
    && (lines != [] ==> Terminated(lines[|lines| - 1]) || Unterminated(lines[|lines| - 1]))
  }

  /** What reading line number `i` should give. A stream that breaks inside an oversized
      line reports the break. */
  function Expected(s: seq<Byte>, failure: Failure, limit: nat, i: nat): LineResult {
    var lines := Lines(s);
    if i >= |lines| then Failed(failure)
    else if |lines[i]| <= limit then Line(lines[i])
    else if Terminated(lines[i]) || failure.EndOfStream? then Oversized
    else Failed(failure)
  }

  lemma JoinedStep(line: seq<Byte>, lines: seq<seq<Byte>>)
    ensures Joined([line] + lines) == line + Joined(lines)
  {
    assert ([line] + lines)[1..] == lines;
  }

  lemma PrependLine(line: seq<Byte>, s: seq<Byte>, lines: seq<seq<Byte>>)
    requires Terminated(line) && IsLines(s, lines)
    ensures IsLines(line + s, [line] + lines)
  {
    JoinedStep(line, lines);
    var all := [line] + lines;
    assert forall i :: 1 <= i < |all| ==> all[i] == lines[i - 1];
  }

  lemma {:induction false} LinesCutStream(s: seq<Byte>)
    ensures IsLines(s, Lines(s))
    decreases |s|
  {
    var k := NewlineAt(s);
    if s == [] {
    } else if k == |s| {
      JoinedStep(s, []);
      assert [s] + [] == [s];
    } else {
      LinesCutStream(s[k + 1..]);
      PrependLine(s[..k + 1], s[k + 1..], Lines(s[k + 1..]));
      assert s[..k + 1] + s[k + 1..] == s;
    }
  }

  lemma {:induction false} CutIsUnique(s: seq<Byte>, lines: seq<seq<Byte>>)
    requires IsLines(s, lines)
    ensures lines == Lines(s)
    decreases |lines|
  {
    if lines != [] {
      var line, rest := lines[0], lines[1..];
      CutAt(s, line, Joined(rest));
      if Terminated(line) {
        assert s[|line|..] == Joined(rest) && s[..|line|] == line;
        assert forall i :: 0 <= i < |rest| ==> rest[i] == lines[i + 1];
        CutIsUnique(Joined(rest), rest);
      } else {
        assert rest == [] && s == line;
      }
    }
  }

  // ---------- the buffered reader underneath

  /** A buffered reader of `size` bytes over a stream: `rest` is what is still to come. */
  class BufferedReader {
    var rest: seq<Byte>
    const failure: Failure
    const size: nat

    constructor (stream: seq<Byte>, failure: Failure, size: nat)
      requires size > 0
      ensures rest == stream && this.failure == failure && this.size == size
    {
      rest, this.failure, this.size := stream, failure, size;
    }

    /** Up to and including the next newline; or a full buffer without one; or the rest, with
        the stream's failure. A rest that just fills the buffer may come either way. */
    method ReadSlice() returns (chunk: seq<Byte>, status: Status)
      requires size > 0
      modifies this
      ensures old(rest) == chunk + rest
      ensures status.Delimited? ==> Terminated(chunk)
      ensures status.BufferFull? ==> |chunk| == size && NoNewline(chunk)
      ensures status.Ended? ==> rest == [] && NoNewline(chunk)
    {
      var k := NewlineAt(rest);
      var pending: bool := *;
      if k < |rest| && k < size {
        chunk, status := rest[..k + 1], Delimited;
      } else if |rest| < size || (|rest| == size && k == |rest| && pending) {
        chunk, status := rest, Ended;
      } else {
        chunk, status := rest[..size], BufferFull;
      }
      rest := rest[|chunk|..];
    }
  }

  // ---------- the line reader

  class BufferedLineReader {
    var reader: BufferedReader
    const limit: int

    constructor (stream: seq<Byte>, failure: Failure, size: nat, limit: int)
      requires size > 0
      ensures reader.rest == stream && reader.failure == failure && reader.size > 0 && this.limit == limit
      ensures fresh(reader)
    {
      reader := new BufferedReader(stream, failure, size);
      this.limit := limit;
    }

    /** The next line with its newline; or `Oversized` for a line over the limit; or the
        failure the stream ends with. */
    method ReadLine() returns (r: LineResult)
      requires reader.size > 0
      modifies this, reader
      ensures reader.size > 0 && reader.failure == old(reader.failure) && (reader == old(reader) || fresh(reader))
      ensures r == NextLine(old(reader.rest), reader.failure, limit)
      ensures reader.rest == AfterLine(old(reader.rest))
    {
      ghost var stream := reader.rest;
      var accumulated: seq<Byte> := [];
      while true
        invariant reader == old(reader) && reader.size > 0
        invariant stream == accumulated + reader.rest && NoNewline(accumulated)
        invariant accumulated == [] || |accumulated| <= limit
        decreases |reader.rest|
      {
        var chunk, status := reader.ReadSlice();
        FirstLine(stream, accumulated + chunk, reader.rest, status, reader.failure, limit);
        if |accumulated| + |chunk| > limit {
          var broken := DiscardLine(status);
          if broken {
            return Failed(reader.failure);
          }
          return Oversized;
        }
        if status.BufferFull? {
          accumulated := accumulated + chunk;
          continue;
        }
        if status.Ended? {
          if |accumulated| + |chunk| == 0 {
            return Failed(reader.failure);
          }
          // Trailing data is handed back now and the failure on the next call.
          accumulated := accumulated + chunk;
          reader := new BufferedReader([], reader.failure, 16);
          return Line(accumulated);
        }
        return Line(accumulated + chunk);
      }
    }

    /** Drops the rest of an over-long line; says whether the stream broke on the way. */
    method DiscardLine(status: Status) returns (broken: bool)
      requires reader.size > 0 && (status.Ended? ==> reader.rest == [])
      modifies reader
      ensures !status.BufferFull? ==> reader.rest == old(reader.rest)
      ensures status.BufferFull? ==> reader.rest == AfterLine(old(reader.rest))
      ensures broken <==>
                !reader.failure.EndOfStream?
                && (status.Ended? || (status.BufferFull? && NewlineAt(old(reader.rest)) == |old(reader.rest)|))
    {
      var err := status;
      ghost var s := reader.rest;
      while err.BufferFull?
        invariant !status.BufferFull? ==> err == status && reader.rest == s
        invariant err.BufferFull? ==>
          AfterLine(s) == AfterLine(reader.rest) && (NewlineAt(s) == |s| <==> NewlineAt(reader.rest) == |reader.rest|)
        invariant status.BufferFull? && !err.BufferFull? ==>
          reader.rest == AfterLine(s) && (err.Ended? <==> NewlineAt(s) == |s|)
        decreases err.BufferFull?, |reader.rest|
      {
        ghost var before := reader.rest;
        var chunk;
        chunk, err := reader.ReadSlice();
        CutAt(before, chunk, reader.rest);
      }
      return err.Ended? && !reader.failure.EndOfStream?;
    }
  }

  /** What is left of a stream after its first line. */
  function AfterLine(s: seq<Byte>): seq<Byte> {
    if NewlineAt(s) == |s| then [] else s[NewlineAt(s) + 1..]
  }

  /** One call. The second test is on a negative limit too, which even an empty rest
      exceeds. */
  function NextLine(s: seq<Byte>, failure: Failure, limit: int): LineResult {
    var k := NewlineAt(s);
    if k < |s| then (if k + 1 <= limit then Line(s[..k + 1]) else Oversized)
    else if |s| > limit then (if failure.EndOfStream? then Oversized else Failed(failure))
    else if s == [] then Failed(failure)
    else Line(s)
  }

  lemma NewlineIs(s: seq<Byte>, k: nat)
    requires k <= |s| && (k < |s| ==> s[k] == NEWLINE) && forall j :: 0 <= j < k ==> s[j] != NEWLINE
    ensures NewlineAt(s) == k
  {
  }

  lemma CutAt(s: seq<Byte>, head: seq<Byte>, tail: seq<Byte>)
    requires s == head + tail
    ensures Terminated(head) ==> NewlineAt(s) == |head| - 1 && AfterLine(s) == tail
    ensures NoNewline(head) ==> NewlineAt(s) == |head| + NewlineAt(tail) && AfterLine(s) == AfterLine(tail)
  {
    if Terminated(head) {
      NewlineIs(s, |head| - 1);
    }
    if NoNewline(head) {
      NewlineIs(s, |head| + NewlineAt(tail));
    }
  }

  /** `head`, which ends as `status` says, is the first line of the stream or the beginning
      of it, and so decides the call if it is complete or already over the limit. */
  lemma FirstLine(s: seq<Byte>, head: seq<Byte>, tail: seq<Byte>, status: Status, failure: Failure, limit: int)
    requires s == head + tail
    requires if status.Delimited? then Terminated(head) else NoNewline(head)
    requires status.Ended? ==> tail == []
    ensures AfterLine(s) == if status.BufferFull? then AfterLine(tail) else tail
    ensures |head| > limit ==>
      NextLine(s, failure, limit) ==
        if !failure.EndOfStream? && (status.Ended? || (status.BufferFull? && NewlineAt(tail) == |tail|))
        then Failed(failure) else Oversized
    ensures |head| <= limit && status.Delimited? ==> NextLine(s, failure, limit) == Line(head)
    ensures |head| <= limit && status.Ended? ==>
      NextLine(s, failure, limit) == if head == [] then Failed(failure) else Line(head)
  {
    CutAt(s, head, tail);
    assert s[..|head|] == head && s[|head|..] == tail;
    assert tail == [] ==> s == head;
  }

  // ---------- repeated calls

  /** The stream after `n` calls. */
  function AfterLines(s: seq<Byte>, n: nat): seq<Byte> {
    if n == 0 then s else AfterLine(AfterLines(s, n - 1))
  }

  /** What call number `i` gives. */
  function Nth(s: seq<Byte>, failure: Failure, limit: int, i: nat): LineResult {
    NextLine(AfterLines(s, i), failure, limit)
  }

  /** For every limit and every buffer size, the calls give the lines of the stream in order,
      each whole or reported once as oversized, and then its failure for ever. */
  method ReadLines(stream: seq<Byte>, failure: Failure, size: nat, limit: int, n: nat) returns (results: seq<LineResult>)
    requires size > 0
    ensures |results| == n && forall i :: 0 <= i < n ==> results[i] == Nth(stream, failure, limit, i)
    ensures limit >= 0 ==> forall i :: 0 <= i < n ==> results[i] == Expected(stream, failure, limit, i)
  {
    var lr := new BufferedLineReader(stream, failure, size, limit);
    results := [];
    while |results| < n
      invariant |results| <= n && lr.reader.size > 0 && lr.reader.failure == failure && lr.limit == limit
      invariant fresh(lr) && fresh(lr.reader)
      invariant forall i :: 0 <= i < |results| ==> results[i] == Nth(stream, failure, limit, i)
      invariant lr.reader.rest == AfterLines(stream, |results|)
    {
      var r := lr.ReadLine();
      results := results + [r];
    }
    if limit >= 0 {
      forall i | 0 <= i < n ensures results[i] == Expected(stream, failure, limit, i) {
        NthIsExpected(stream, failure, limit, i);
      }
    }
  }

  lemma LinesStep(s: seq<Byte>)
    ensures Lines(AfterLine(s)) == if s == [] then [] else Lines(s)[1..]
  {
  }

  lemma {:induction false} LinesLeft(s: seq<Byte>, n: nat)
    ensures Lines(AfterLines(s, n)) == if n <= |Lines(s)| then Lines(s)[n..] else []
    ensures AfterLines(s, n) == [] <==> n >= |Lines(s)|
    decreases n
  {
    if n > 0 {
      LinesLeft(s, n - 1);
      LinesStep(AfterLines(s, n - 1));
    }
  }

  lemma NthIsExpected(s: seq<Byte>, failure: Failure, limit: nat, i: nat)
    ensures Nth(s, failure, limit, i) == Expected(s, failure, limit, i)
  {
    LinesLeft(s, i);
    var left := AfterLines(s, i);
    FirstOfLines(left);
    if left != [] {
      assert Lines(left)[0] == Lines(s)[i];
    }
  }

  lemma FirstOfLines(s: seq<Byte>)
    ensures s != [] ==>
      Lines(s) != [] && Lines(s)[0] == (if NewlineAt(s) == |s| then s else s[..NewlineAt(s) + 1])
      && (Terminated(Lines(s)[0]) <==> NewlineAt(s) < |s|)
  {
  }

  /** The end of the stream is ever reported exactly if the limit is not negative. */
  lemma EndReportedIff(s: seq<Byte>, limit: int)
    ensures (exists i: nat :: Nth(s, EndOfStream, limit, i) == Failed(EndOfStream)) <==> limit >= 0
  {
    if limit >= 0 {
      NthIsExpected(s, EndOfStream, limit, |Lines(s)|);
      assert Nth(s, EndOfStream, limit, |Lines(s)|) == Failed(EndOfStream);
    }
  }
}
