/**
 The client's reader of server-sent events (common/src/sse.rs): lines are put together from the
 chunks of a response, and a blank line completes an event.
 */
module Sse {
  import opened Basics

  type byte = n: nat | n < 256

  const NEWLINE: byte := 10

  /** "data:" and "id:" */
  const DATA: seq<byte> := [100, 97, 116, 97, 58]
  const ID: seq<byte> := [105, 100, 58]

  datatype Event = Event(id: Option<seq<byte>>, data: seq<byte>)

  /** Bytes of the unfinished line, and what the unfinished event has so far. */
  datatype Parser = Parser(buffer: seq<byte>, data: Option<seq<byte>>, id: Option<seq<byte>>)

  const START: Parser := Parser([], None, None)

  /** Which byte strings are UTF-8. */
  type Utf8 = seq<byte> -> bool

  /** A complete line; the buffer has been taken. Several data lines are joined by newlines. */
  function Line(p: Parser, line: seq<byte>, utf8: Utf8): (Parser, Option<Event>) {
    var q := p.(buffer := []);
    if DATA <= line then
      var rest := line[|DATA|..];
      (q.(data := Some(if p.data.Some? then p.data.value + [NEWLINE] + rest else rest)), None)
    else if ID <= line then
      (if utf8(line[|ID|..]) then q.(id := Some(line[|ID|..])) else q, None)
    else if line == [] && p.data.Some? then
      (START, Some(Event(p.id, p.data.value)))
    else (q, None)
  }

  function Emitted(e: Option<Event>): seq<Event> {
    if e.Some? then [e.value] else []
  }

  // ----- Line-by-line reading of a byte stream -----

  /** The parser after the bytes, and the events they complete. */
  function After(p: Parser, bytes: seq<byte>, utf8: Utf8): Parser
    decreases |bytes|
  {
    if bytes == [] then p
    else if bytes[0] == NEWLINE then After(Line(p, p.buffer, utf8).0, bytes[1..], utf8)
    else After(p.(buffer := p.buffer + [bytes[0]]), bytes[1..], utf8)
  }

  function Reading(p: Parser, bytes: seq<byte>, utf8: Utf8): seq<Event>
    decreases |bytes|
  {
    if bytes == [] then []
    else if bytes[0] == NEWLINE then
      var (q, e) := Line(p, p.buffer, utf8);
      Emitted(e) + Reading(q, bytes[1..], utf8)
    else Reading(p.(buffer := p.buffer + [bytes[0]]), bytes[1..], utf8)
  }

  // ----- What the reader does with chunks -----

  function Newline(chunk: seq<byte>): (i: nat)
    ensures i <= |chunk| && forall k :: 0 <= k < i ==> chunk[k] != NEWLINE
    ensures i < |chunk| ==> chunk[i] == NEWLINE
  {
    if chunk == [] || chunk[0] == NEWLINE then 0 else 1 + Newline(chunk[1..])
  }

  /** One chunk, up to the first event it completes; the third part is what is left of it then. */
  function Chunk(p: Parser, chunk: seq<byte>, utf8: Utf8): (Parser, Option<Event>, seq<byte>)
    decreases |chunk|
  {
    var i := Newline(chunk);
    if i == |chunk| then (p.(buffer := p.buffer + chunk), None, [])
    else
      var (q, e) := Line(p, p.buffer + chunk[..i], utf8);
      if e.Some? then (q, e, chunk[i + 1..]) else Chunk(q, chunk[i + 1..], utf8)
  }

  /** The next event, the chunks still unread, and the parser's state. */
  function NextEvent(p: Parser, chunks: seq<seq<byte>>, utf8: Utf8)
    : (Parser, seq<seq<byte>>, Option<Event>)
    decreases |chunks|
  {
    if chunks == [] then (p, [], None)
    else
      var (q, e, _) := Chunk(p, chunks[0], utf8);
      if e.Some? then (q, chunks[1..], e) else NextEvent(q, chunks[1..], utf8)
  }

  class RawSseStream {
    /** Chunks of the response that have not been read yet. */
    var response: seq<seq<byte>>
    var buffer: seq<byte>
    var data: Option<seq<byte>>
    var id: Option<seq<byte>>

    function View(): Parser
      reads this
    {
      Parser(buffer, data, id)
    }

    constructor (chunks: seq<seq<byte>>)
      ensures View() == START && response == chunks
    {
      response, buffer, data, id := chunks, [], None, None;
    }

    /** One complete line; an event if it is the blank line that ends one. */
    method Take(line: seq<byte>, utf8: Utf8) returns (event: Option<Event>)
      modifies this
      ensures (View(), event) == Line(old(View()), line, utf8) && response == old(response)
    {
      buffer := [];
      event := None;
      if DATA <= line {
        data := Some(if data.Some? then data.value + [NEWLINE] + line[|DATA|..] else line[|DATA|..]);
      } else if ID <= line {
        if !utf8(line[|ID|..]) {
          return;
        }
        id := Some(line[|ID|..]);
      } else if line == [] && data.Some? {
        event := Some(Event(id, data.value));
        data, id := None, None;
      }
    }

    method Next(utf8: Utf8) returns (event: Option<Event>)
      modifies this
      ensures (View(), response, event) == NextEvent(old(View()), old(response), utf8)
    {
      while response != []
        invariant NextEvent(old(View()), old(response), utf8) == NextEvent(View(), response, utf8)
        decreases |response|
      {
        ghost var before, first, others := View(), response[0], response[1..];
        var chunk := response[0];
        response := response[1..];
        var at := Newline(chunk);
        while at < |chunk|
          invariant at == Newline(chunk) && response == others
          invariant Chunk(before, first, utf8) == Chunk(View(), chunk, utf8)
          decreases |chunk|
        {
          var line := buffer + chunk[..at];
          chunk := chunk[at + 1..];
          at := Newline(chunk);
          event := Take(line, utf8);
          if event.Some? {
            return;
          }
        }
        buffer := buffer + chunk;
      }
      event := None;
    }
  }

  // ----- All events of a response -----

  function Events(p: Parser, chunks: seq<seq<byte>>, utf8: Utf8): seq<Event>
    decreases |chunks|
  {
    if chunks == [] then []
    else
      var (q, e, _) := Chunk(p, chunks[0], utf8);
      Emitted(e) + Events(q, chunks[1..], utf8)
  }

  function Joined(chunks: seq<seq<byte>>): seq<byte>
    decreases |chunks|
  {
    if chunks == [] then [] else chunks[0] + Joined(chunks[1..])
  }

  /** Calling `next` until it gives nothing yields these events one after the other. */
  lemma {:induction false} NextYieldsEvents(p: Parser, chunks: seq<seq<byte>>, utf8: Utf8)
    ensures var (q, rest, e) := NextEvent(p, chunks, utf8);
            Events(p, chunks, utf8) == Emitted(e) + Events(q, rest, utf8)
    decreases |chunks|
  {
    if chunks != [] {
      var (q, e, _) := Chunk(p, chunks[0], utf8);
      if e.None? {
        NextYieldsEvents(q, chunks[1..], utf8);
      }
    }
  }

  lemma {:induction false} ReadingConcat(p: Parser, a: seq<byte>, b: seq<byte>, utf8: Utf8)
    ensures After(p, a + b, utf8) == After(After(p, a, utf8), b, utf8)
    ensures Reading(p, a + b, utf8) == Reading(p, a, utf8) + Reading(After(p, a, utf8), b, utf8)
    decreases |a|
  {
    if a == [] {
      assert a + b == b;
    } else {
      assert (a + b)[1..] == a[1..] + b;
      if a[0] == NEWLINE {
        ReadingConcat(Line(p, p.buffer, utf8).0, a[1..], b, utf8);
      } else {
        ReadingConcat(p.(buffer := p.buffer + [a[0]]), a[1..], b, utf8);
      }
    }
  }

  lemma {:induction false} ReadingWithoutNewline(p: Parser, bytes: seq<byte>, utf8: Utf8)
    requires NEWLINE !in bytes
    ensures After(p, bytes, utf8) == p.(buffer := p.buffer + bytes)
    ensures Reading(p, bytes, utf8) == []
    decreases |bytes|
  {
    if bytes == [] {
      assert p.buffer + bytes == p.buffer;
    } else {
      ReadingWithoutNewline(p.(buffer := p.buffer + [bytes[0]]), bytes[1..], utf8);
      assert p.buffer + [bytes[0]] + bytes[1..] == p.buffer + bytes;
    }
  }

  /** A byte string that begins with a line is read line first. */
  lemma {:induction false} ReadingLine(p: Parser, bytes: seq<byte>, i: nat, utf8: Utf8)
    requires i < |bytes| && bytes[i] == NEWLINE
    requires forall k :: 0 <= k < i ==> bytes[k] != NEWLINE
    ensures var (q, e) := Line(p, p.buffer + bytes[..i], utf8);
            && After(p, bytes, utf8) == After(q, bytes[i + 1..], utf8)
            && Reading(p, bytes, utf8) == Emitted(e) + Reading(q, bytes[i + 1..], utf8)
    decreases i
  {
    if i == 0 {
      assert p.buffer + bytes[..i] == p.buffer;
    } else {
      var p', rest := p.(buffer := p.buffer + [bytes[0]]), bytes[1..];
      ReadingLine(p', rest, i - 1, utf8);
      assert p'.buffer + rest[..i - 1] == p.buffer + bytes[..i] by {
        assert bytes[..i] == [bytes[0]] + rest[..i - 1];
      }
      assert rest[i - 1 + 1..] == bytes[i + 1..];
      SameLine(p', p, p.buffer + bytes[..i], utf8);
      assert After(p, bytes, utf8) == After(p', rest, utf8) && Reading(p, bytes, utf8) == Reading(p', rest, utf8);
    }
  }

  lemma SameLine(p: Parser, q: Parser, line: seq<byte>, utf8: Utf8)
    requires p.(buffer := []) == q.(buffer := [])
    ensures Line(p, line, utf8) == Line(q, line, utf8)
  {
  }

  /** A chunk with a newline: the line ends an event, or reading goes on behind it. */
  lemma ChunkEmits(p: Parser, chunk: seq<byte>, i: nat, utf8: Utf8)
    requires i == Newline(chunk) < |chunk| && Line(p, p.buffer + chunk[..i], utf8).1.Some?
    ensures Chunk(p, chunk, utf8) == (START, Line(p, p.buffer + chunk[..i], utf8).1, chunk[i + 1..])
  {
  }

  lemma ChunkGoesOn(p: Parser, chunk: seq<byte>, i: nat, utf8: Utf8)
    requires i == Newline(chunk) < |chunk| && Line(p, p.buffer + chunk[..i], utf8).1.None?
    ensures Chunk(p, chunk, utf8) == Chunk(Line(p, p.buffer + chunk[..i], utf8).0, chunk[i + 1..], utf8)
  {
  }

  /** What reading `bytes` from `p` gives is what emitting `e` and reading `rest` from `q` gives. */
  ghost predicate SameReading(p: Parser, bytes: seq<byte>, q: Parser, e: Option<Event>, rest: seq<byte>,
                              utf8: Utf8)
  {
    && After(p, bytes, utf8) == After(q, rest, utf8)
    && Reading(p, bytes, utf8) == Emitted(e) + Reading(q, rest, utf8)
  }

  lemma LineReads(p: Parser, chunk: seq<byte>, i: nat, utf8: Utf8)
    requires i == Newline(chunk) < |chunk|
    ensures var (q, e) := Line(p, p.buffer + chunk[..i], utf8);
            SameReading(p, chunk, q, e, chunk[i + 1..], utf8)
  {
    ReadingLine(p, chunk, i, utf8);
  }

  lemma SameReadingAgain(p: Parser, a: seq<byte>, q: Parser, b: seq<byte>, r: Parser, e: Option<Event>,
                         rest: seq<byte>, utf8: Utf8)
    requires SameReading(p, a, q, None, b, utf8) && SameReading(q, b, r, e, rest, utf8)
    ensures SameReading(p, a, r, e, rest, utf8)
  {
    assert Emitted(None) + Reading(q, b, utf8) == Reading(q, b, utf8);
  }

  /** Reading a chunk is reading its bytes, as far as it is read. */
  lemma {:induction false} ChunkReads(p: Parser, chunk: seq<byte>, utf8: Utf8)
    ensures var (q, e, rest) := Chunk(p, chunk, utf8);
            && SameReading(p, chunk, q, e, rest, utf8)
            && (e.Some? ==> q == START)
            && (e.None? ==> rest == [])
    decreases |chunk|
  {
    var i := Newline(chunk);
    if i == |chunk| {
      ReadingWithoutNewline(p, chunk, utf8);
    } else {
      LineReads(p, chunk, i, utf8);
      var (q, e) := Line(p, p.buffer + chunk[..i], utf8);
      if e.None? {
        ChunkGoesOn(p, chunk, i, utf8);
        ChunkReads(q, chunk[i + 1..], utf8);
        var (r, f, rest) := Chunk(q, chunk[i + 1..], utf8);
        SameReadingAgain(p, chunk, q, chunk[i + 1..], r, f, rest, utf8);
      } else {
        ChunkEmits(p, chunk, i, utf8);
      }
    }
  }

  // ----- When chunking does not matter -----

  /** Complete lines, none of which carries data or an id: comments, other fields, blank lines. */
  predicate Idle(bytes: seq<byte>, utf8: Utf8)
    decreases |bytes|
  {
    bytes == [] ||
    var i := Newline(bytes);
    && i < |bytes|
    && IdleLine(bytes[..i], utf8)
    && Idle(bytes[i + 1..], utf8)
  }

  predicate IdleLine(line: seq<byte>, utf8: Utf8) {
    !(DATA <= line) && !(ID <= line && utf8(line[|ID|..]))
  }

  /** Whatever a chunk still holds after the event it completes is idle. */
  predicate DropsNothing(p: Parser, chunks: seq<seq<byte>>, utf8: Utf8)
    decreases |chunks|
  {
    chunks == [] ||
    var (q, _, rest) := Chunk(p, chunks[0], utf8);
    Idle(rest, utf8) && DropsNothing(q, chunks[1..], utf8)
  }

  lemma {:induction false} IdleChangesNothing(bytes: seq<byte>, utf8: Utf8)
    requires Idle(bytes, utf8)
    ensures After(START, bytes, utf8) == START && Reading(START, bytes, utf8) == []
    decreases |bytes|
  {
    if bytes != [] {
      var i := Newline(bytes);
      ReadingLine(START, bytes, i, utf8);
      assert START.buffer + bytes[..i] == bytes[..i];
      IdleChangesNothing(bytes[i + 1..], utf8);
    }
  }

  /** A chunk that drops only idle lines reads like its bytes, whatever follows. */
  lemma HarmlessChunk(p: Parser, chunk: seq<byte>, t: seq<byte>, utf8: Utf8)
    requires Idle(Chunk(p, chunk, utf8).2, utf8)
    ensures var (q, e, _) := Chunk(p, chunk, utf8);
            Reading(p, chunk + t, utf8) == Emitted(e) + Reading(q, t, utf8)
  {
    var (q, e, rest) := Chunk(p, chunk, utf8);
    ChunkReads(p, chunk, utf8);
    ReadingConcat(p, chunk, t, utf8);
    if e.Some? {
      IdleChangesNothing(rest, utf8);
    }
  }

  /**
   For every byte stream and every way of cutting it into chunks that leaves nothing but idle
   lines after the first event a chunk completes, the events are those of a line-by-line reading
   of the whole stream.
   */
  lemma {:induction false} ChunkingDoesNotMatter(p: Parser, chunks: seq<seq<byte>>, utf8: Utf8)
    requires DropsNothing(p, chunks, utf8)
    ensures Events(p, chunks, utf8) == Reading(p, Joined(chunks), utf8)
    decreases |chunks|
  {
    if chunks != [] {
      HarmlessChunk(p, chunks[0], Joined(chunks[1..]), utf8);
      ChunkingDoesNotMatter(Chunk(p, chunks[0], utf8).0, chunks[1..], utf8);
    }
  }

  // ----- And when it does -----

  /** The same bytes, one per chunk. */
  function Singly(bytes: seq<byte>): seq<seq<byte>> {
    seq(|bytes|, i requires 0 <= i < |bytes| => [bytes[i]])
  }

  lemma {:induction false} SinglyDropsNothing(p: Parser, bytes: seq<byte>, utf8: Utf8)
    ensures DropsNothing(p, Singly(bytes), utf8) && Joined(Singly(bytes)) == bytes
    decreases |bytes|
  {
    if bytes != [] {
      assert Singly(bytes)[1..] == Singly(bytes[1..]);
      ChunkReads(p, [bytes[0]], utf8);
      assert bytes[0] == NEWLINE ==> Newline([bytes[0]]) == 0;
      SinglyDropsNothing(Chunk(p, [bytes[0]], utf8).0, bytes[1..], utf8);
      assert [bytes[0]] + bytes[1..] == bytes;
    }
  }

  /** Data or an id once noted only goes away with an event. */
  lemma {:induction false} KeepsPending(q: Parser, bytes: seq<byte>, utf8: Utf8)
    requires Reading(q, bytes, utf8) == []
    ensures q.data.Some? ==> After(q, bytes, utf8).data.Some?
    ensures q.id.Some? ==> After(q, bytes, utf8).id.Some?
    decreases |bytes|
  {
    if bytes != [] {
      if bytes[0] == NEWLINE {
        KeepsPending(Line(q, q.buffer, utf8).0, bytes[1..], utf8);
      } else {
        KeepsPending(q.(buffer := q.buffer + [bytes[0]]), bytes[1..], utf8);
      }
    }
  }

  lemma NothingNotedMeansIdle(line: seq<byte>, utf8: Utf8)
    requires var q := Line(START, line, utf8).0; q.data.None? && q.id.None?
    ensures IdleLine(line, utf8) && Line(START, line, utf8) == (START, None)
  {
  }

  lemma IdleAgain(bytes: seq<byte>, i: nat, utf8: Utf8)
    requires i == Newline(bytes) < |bytes| && IdleLine(bytes[..i], utf8) && Idle(bytes[i + 1..], utf8)
    ensures Idle(bytes, utf8)
  {
  }

  lemma {:induction false} UnchangedMeansIdle(bytes: seq<byte>, utf8: Utf8)
    requires After(START, bytes, utf8) == START && Reading(START, bytes, utf8) == []
    ensures Idle(bytes, utf8)
    decreases |bytes|
  {
    var i := Newline(bytes);
    if i == |bytes| {
      ReadingWithoutNewline(START, bytes, utf8);
      assert START.buffer + bytes == bytes;
    } else {
      var line, rest := bytes[..i], bytes[i + 1..];
      ReadingLine(START, bytes, i, utf8);
      assert START.buffer + line == line;
      KeepsPending(Line(START, line, utf8).0, rest, utf8);
      NothingNotedMeansIdle(line, utf8);
      UnchangedMeansIdle(rest, utf8);
      IdleAgain(bytes, i, utf8);
    }
  }

  /** A blank line, and a whole event whose data is empty. */
  const BLANK: seq<byte> := [NEWLINE]
  const PROBE: seq<byte> := DATA + [NEWLINE, NEWLINE]

  lemma ReadingProbe(p: Parser, utf8: Utf8)
    ensures var q := Line(p, p.buffer + DATA, utf8).0;
            Reading(p, PROBE, utf8) == if q.data.Some? then [Event(q.id, q.data.value)] else []
  {
    ReadingFieldAndBlank(p, DATA, utf8);
  }

  lemma FieldEmitsNothing(p: Parser, field: seq<byte>, utf8: Utf8)
    requires field != []
    ensures Line(p, field, utf8).1 == None && Line(p, field, utf8).0.buffer == []
  {
  }

  lemma BlankEmits(q: Parser, utf8: Utf8)
    requires q.buffer == []
    ensures Emitted(Line(q, q.buffer, utf8).1) == if q.data.Some? then [Event(q.id, q.data.value)] else []
  {
  }

  lemma ReadingFieldAndBlank(p: Parser, field: seq<byte>, utf8: Utf8)
    requires NEWLINE !in field && p.buffer + field != []
    ensures var q := Line(p, p.buffer + field, utf8).0;
            Reading(p, field + [NEWLINE, NEWLINE], utf8)
              == if q.data.Some? then [Event(q.id, q.data.value)] else []
  {
    var bytes := field + [NEWLINE, NEWLINE];
    assert bytes[..|field|] == field && bytes[|field| + 1..] == BLANK;
    ReadingLine(p, bytes, |field|, utf8);
    FieldEmitsNothing(p, p.buffer + field, utf8);
    var q := Line(p, p.buffer + field, utf8).0;
    ReadingBlank(q, utf8);
    BlankEmits(q, utf8);
  }

  lemma ReadingBlank(p: Parser, utf8: Utf8)
    ensures After(p, BLANK, utf8) == Line(p, p.buffer, utf8).0
    ensures Reading(p, BLANK, utf8) == Emitted(Line(p, p.buffer, utf8).1)
  {
    assert BLANK[1..] == [];
  }

  /** A parser state that is not the starting one behaves differently on some bytes. */
  lemma StateShows(q: Parser, utf8: Utf8) returns (t: seq<byte>)
    requires q != START
    ensures Reading(q, t, utf8) != Reading(START, t, utf8)
  {
    var r := Line(q, q.buffer, utf8).0;
    if q.data.Some? {
      t := BLANK + BLANK;
      ReadingBlank(q, utf8);
      ReadingBlank(r, utf8);
      ReadingBlank(START, utf8);
      ReadingConcat(q, BLANK, BLANK, utf8);
      ReadingConcat(START, BLANK, BLANK, utf8);
      assert |Reading(q, t, utf8)| > 0;
    } else {
      ProbeFromStart(utf8);
      if q.id.Some? {
        t := BLANK + PROBE;
        ReadingBlank(q, utf8);
        ReadingProbe(r, utf8);
        ReadingBlank(START, utf8);
        ReadingConcat(q, BLANK, PROBE, utf8);
        ReadingConcat(START, BLANK, PROBE, utf8);
        assert r.buffer + DATA == DATA;
        assert Reading(q, t, utf8)[0].id.Some?;
      } else {
        t := PROBE;
        ReadingProbe(q, utf8);
        var line := q.buffer + DATA;
        assert DATA <= line ==> |line[|DATA|..]| > 0;
      }
    }
  }

  lemma ProbeFromStart(utf8: Utf8)
    ensures Reading(START, PROBE, utf8) == [Event(None, [])]
  {
    ReadingProbe(START, utf8);
    assert START.buffer + DATA == DATA;
  }

  /** Dropped bytes that are not idle are missed under some continuation. */
  lemma LossShows(p: Parser, chunk: seq<byte>, utf8: Utf8) returns (t: seq<byte>)
    requires !Idle(Chunk(p, chunk, utf8).2, utf8)
    ensures var (q, e, _) := Chunk(p, chunk, utf8);
            Reading(p, chunk + t, utf8) != Emitted(e) + Reading(q, t, utf8)
  {
    var (q, e, rest) := Chunk(p, chunk, utf8);
    ChunkReads(p, chunk, utf8);
    var r := After(START, rest, utf8);
    if Reading(START, rest, utf8) != [] {
      t := [];
      assert chunk + t == chunk;
    } else {
      if r == START {
        UnchangedMeansIdle(rest, utf8);
      }
      t := StateShows(r, utf8);
      ReadingConcat(p, chunk, t, utf8);
      SamePrefix(Emitted(e), Reading(r, t, utf8), Reading(START, t, utf8));
    }
  }

  lemma SamePrefix(a: seq<Event>, b: seq<Event>, c: seq<Event>)
    requires b != c
    ensures a + b != a + c
  {
    assert (a + b)[|a|..] == b && (a + c)[|a|..] == c;
  }

  lemma ChunkThenSingly(p: Parser, chunk: seq<byte>, t: seq<byte>, utf8: Utf8)
    ensures var (q, e, _) := Chunk(p, chunk, utf8);
            Events(p, [chunk] + Singly(t), utf8) == Emitted(e) + Reading(q, t, utf8)
  {
    var q := Chunk(p, chunk, utf8).0;
    assert ([chunk] + Singly(t))[1..] == Singly(t);
    SinglyDropsNothing(q, t, utf8);
    ChunkingDoesNotMatter(q, Singly(t), utf8);
  }

  /**
   What is left of a chunk after the event it completes is dropped. That loses nothing, whatever
   follows, exactly when what is left is idle.
   */
  lemma DroppedBytesMatterIff(p: Parser, chunk: seq<byte>, utf8: Utf8)
    ensures (forall t :: Events(p, [chunk] + Singly(t), utf8) == Reading(p, chunk + t, utf8))
            <==> Idle(Chunk(p, chunk, utf8).2, utf8)
  {
    if Idle(Chunk(p, chunk, utf8).2, utf8) {
      forall t ensures Events(p, [chunk] + Singly(t), utf8) == Reading(p, chunk + t, utf8) {
        ChunkThenSingly(p, chunk, t, utf8);
        HarmlessChunk(p, chunk, t, utf8);
      }
    } else {
      var t := LossShows(p, chunk, utf8);
      ChunkThenSingly(p, chunk, t, utf8);
    }
  }

  /** Two events in one chunk: the second is lost, though two chunks deliver both. */
  lemma SecondEventCanBeLost(utf8: Utf8)
    ensures Events(START, [PROBE + PROBE], utf8) == [Event(None, [])]
    ensures Events(START, [PROBE, PROBE], utf8) == [Event(None, []), Event(None, [])]
  {
    ProbeChunk([], utf8);
    ProbeChunk(PROBE, utf8);
    assert PROBE + [] == PROBE;
    assert [PROBE + PROBE][1..] == [] && [PROBE, PROBE][1..] == [PROBE] && [PROBE][1..] == [];
    assert Events(START, [PROBE], utf8) == [Event(None, [])];
  }

  lemma ProbeChunk(rest: seq<byte>, utf8: Utf8)
    ensures Chunk(START, PROBE + rest, utf8) == (START, Some(Event(None, [])), rest)
  {
    var chunk, blank := PROBE + rest, BLANK + rest;
    assert chunk[|DATA|] == NEWLINE && forall k :: 0 <= k < |DATA| ==> chunk[k] == DATA[k] != NEWLINE;
    assert Newline(chunk) == |DATA|;
    assert chunk[..|DATA|] == DATA && [] + DATA == DATA && chunk[|DATA| + 1..] == blank;
    assert Newline(blank) == 0 && [] + blank[..0] == [] && blank[1..] == rest;
  }

  // ----- Writing events -----

  /** A line for each line of the data. */
  function DataLines(data: seq<byte>): seq<byte>
    decreases |data|
  {
    var i := Newline(data);
    if i == |data| then DATA + data + [NEWLINE]
    else DATA + data[..i] + [NEWLINE] + DataLines(data[i + 1..])
  }

  function IdLine(id: Option<seq<byte>>): seq<byte> {
    if id.Some? then ID + id.value + [NEWLINE] else []
  }

  /** An event as it is sent: its id if it has one, its data line by line, and a blank line. */
  function Encoded(e: Event): seq<byte> {
    IdLine(e.id) + DataLines(e.data) + BLANK
  }

  /** An id can be sent if it is a line of UTF-8; data can be any bytes. */
  predicate Sendable(e: Event, utf8: Utf8) {
    e.id.Some? ==> NEWLINE !in e.id.value && utf8(e.id.value)
  }

  lemma PrefixesSpell()
    ensures |DATA| == |"data:"| && forall i :: 0 <= i < |DATA| ==> DATA[i] == "data:"[i] as int
    ensures |ID| == |"id:"| && forall i :: 0 <= i < |ID| ==> ID[i] == "id:"[i] as int
    ensures NEWLINE == '\n' as int
  {
  }

  /** Data that is added to what there is, on a new line. */
  function Joint(data: Option<seq<byte>>, more: seq<byte>): seq<byte> {
    if data.Some? then data.value + [NEWLINE] + more else more
  }

  lemma DataLineReads(p: Parser, line: seq<byte>, rest: seq<byte>, utf8: Utf8)
    requires p.buffer == [] && NEWLINE !in line
    ensures var q := p.(data := Some(Joint(p.data, line)));
            && After(p, DATA + line + [NEWLINE] + rest, utf8) == After(q, rest, utf8)
            && Reading(p, DATA + line + [NEWLINE] + rest, utf8) == Reading(q, rest, utf8)
  {
    var bytes := DATA + line + [NEWLINE] + rest;
    var n := |DATA| + |line|;
    assert bytes[..n] == DATA + line && bytes[n + 1..] == rest;
    forall k | 0 <= k < n ensures bytes[k] != NEWLINE {
      assert bytes[k] == if k < |DATA| then DATA[k] else line[k - |DATA|];
    }
    ReadingLine(p, bytes, n, utf8);
    assert p.buffer + (DATA + line) == DATA + line;
    DataLine(p, line, utf8);
  }

  lemma DataLine(p: Parser, line: seq<byte>, utf8: Utf8)
    requires p.buffer == []
    ensures Line(p, DATA + line, utf8) == (p.(data := Some(Joint(p.data, line))), None)
  {
    assert (DATA + line)[|DATA|..] == line;
  }

  lemma {:induction false} DataLinesRead(p: Parser, data: seq<byte>, utf8: Utf8)
    requires p.buffer == []
    ensures After(p, DataLines(data), utf8) == p.(data := Some(Joint(p.data, data)))
    ensures Reading(p, DataLines(data), utf8) == []
    decreases |data|
  {
    var i := Newline(data);
    if i == |data| {
      DataLineReads(p, data, [], utf8);
      assert DATA + data + [NEWLINE] + [] == DataLines(data);
    } else {
      var line, rest := data[..i], data[i + 1..];
      DataLineReads(p, line, DataLines(rest), utf8);
      var q := p.(data := Some(Joint(p.data, line)));
      DataLinesRead(q, rest, utf8);
      assert data == line + [NEWLINE] + rest;
      JointJoins(p.data, line, rest);
    }
  }

  lemma JointJoins(data: Option<seq<byte>>, line: seq<byte>, rest: seq<byte>)
    ensures Joint(Some(Joint(data, line)), rest) == Joint(data, line + [NEWLINE] + rest)
  {
    if data.Some? {
      assert data.value + [NEWLINE] + line + [NEWLINE] + rest
          == data.value + [NEWLINE] + (line + [NEWLINE] + rest);
    }
  }

  lemma IdLineReads(id: seq<byte>, utf8: Utf8)
    requires NEWLINE !in id && utf8(id)
    ensures After(START, IdLine(Some(id)), utf8) == START.(id := Some(id))
    ensures Reading(START, IdLine(Some(id)), utf8) == []
  {
    var bytes := ID + id + [NEWLINE];
    var n := |ID| + |id|;
    assert bytes[..n] == ID + id && bytes[n + 1..] == [];
    forall k | 0 <= k < n ensures bytes[k] != NEWLINE {
      assert bytes[k] == if k < |ID| then ID[k] else id[k - |ID|];
    }
    ReadingLine(START, bytes, n, utf8);
    assert START.buffer + (ID + id) == ID + id && (ID + id)[|ID|..] == id;
    assert !(DATA <= ID + id) by {
      assert (ID + id)[0] == ID[0];
    }
  }

  /** Every event that can be sent is read back as it was, data of several lines included. */
  lemma EventRoundTrip(e: Event, utf8: Utf8)
    requires Sendable(e, utf8)
    ensures Reading(START, Encoded(e), utf8) == [e] && After(START, Encoded(e), utf8) == START
  {
    var p := START.(id := e.id);
    if e.id.Some? {
      IdLineReads(e.id.value, utf8);
    }
    assert After(START, IdLine(e.id), utf8) == p && Reading(START, IdLine(e.id), utf8) == [];
    DataLinesRead(p, e.data, utf8);
    var q := p.(data := Some(e.data));
    ReadingConcat(START, IdLine(e.id), DataLines(e.data), utf8);
    ReadingBlank(q, utf8);
    ReadingConcat(START, IdLine(e.id) + DataLines(e.data), BLANK, utf8);
  }

  function EncodedAll(es: seq<Event>): seq<byte>
    decreases |es|
  {
    if es == [] then [] else Encoded(es[0]) + EncodedAll(es[1..])
  }

  lemma {:induction false} StreamRoundTrip(es: seq<Event>, utf8: Utf8)
    requires forall i :: 0 <= i < |es| ==> Sendable(es[i], utf8)
    ensures Reading(START, EncodedAll(es), utf8) == es && After(START, EncodedAll(es), utf8) == START
    decreases |es|
  {
    if es != [] {
      EventRoundTrip(es[0], utf8);
      StreamRoundTrip(es[1..], utf8);
      ReadingConcat(START, Encoded(es[0]), EncodedAll(es[1..]), utf8);
    }
  }

  /** Events that are sent are received, in order, in whatever chunks that drop nothing. */
  lemma SentIsReceived(es: seq<Event>, chunks: seq<seq<byte>>, utf8: Utf8)
    requires forall i :: 0 <= i < |es| ==> Sendable(es[i], utf8)
    requires Joined(chunks) == EncodedAll(es) && DropsNothing(START, chunks, utf8)
    ensures Events(START, chunks, utf8) == es
  {
    StreamRoundTrip(es, utf8);
    ChunkingDoesNotMatter(START, chunks, utf8);
  }
}
