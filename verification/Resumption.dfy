/**
 A client that follows a backend's status over server-sent events and reconnects with the id of the
 last event it got (common/src/sse.rs, plane/src/controller/backend_state.rs): what the reader drops
 of a chunk, and what the server sends again.
 */
module Resumption {
  import opened Basics
  import opened BackendStates
  import opened Tables
  import opened StatusStream
  import Sse

  /** How the server writes an entry: the status is the event's id. */
  type Encoding = StreamEntry -> Sse.Event

  function Written(rows: seq<HistoryRow>, encode: Encoding): seq<Sse.Event> {
    seq(|rows|, i requires 0 <= i < |rows| => encode(Entry(rows[i])))
  }

  function Flat(groups: seq<seq<HistoryRow>>): seq<HistoryRow>
    decreases |groups|
  {
    if groups == [] then [] else groups[0] + Flat(groups[1..])
  }

  /** The first row of each group. */
  function Heads(groups: seq<seq<HistoryRow>>): seq<HistoryRow>
    requires forall i :: 0 <= i < |groups| ==> groups[i] != []
  {
    seq(|groups|, i requires 0 <= i < |groups| => groups[i][0])
  }

  // ----- What a chunk yields -----

  /** Of a chunk that carries events from the start, the reader gets the first. */
  lemma FirstOfChunk(chunk: seq<Sse.byte>, utf8: Sse.Utf8)
    requires Sse.Reading(Sse.START, chunk, utf8) != []
    ensures var (q, e, _) := Sse.Chunk(Sse.START, chunk, utf8);
            q == Sse.START && e == Some(Sse.Reading(Sse.START, chunk, utf8)[0])
  {
    var (q, e, rest) := Sse.Chunk(Sse.START, chunk, utf8);
    Sse.ChunkReads(Sse.START, chunk, utf8);
    assert Sse.SameReading(Sse.START, chunk, q, e, rest, utf8);
    assert Sse.Reading(q, [], utf8) == [];
  }

  /** Chunks that carry a group of entries each yield the first entry of each group. */
  lemma {:induction false} ClientReceives(chunks: seq<seq<Sse.byte>>, groups: seq<seq<HistoryRow>>,
                                          encode: Encoding, utf8: Sse.Utf8)
    requires |chunks| == |groups| && forall i :: 0 <= i < |groups| ==> groups[i] != []
    requires forall i :: 0 <= i < |chunks| ==>
               Sse.Reading(Sse.START, chunks[i], utf8) == Written(groups[i], encode)
    ensures Sse.Events(Sse.START, chunks, utf8) == Written(Heads(groups), encode)
    decreases |chunks|
  {
    if chunks != [] {
      FirstOfChunk(chunks[0], utf8);
      ClientReceives(chunks[1..], groups[1..], encode, utf8);
      assert Heads(groups) == [groups[0][0]] + Heads(groups[1..]);
      assert Written(Heads(groups), encode)
          == [encode(Entry(groups[0][0]))] + Written(Heads(groups[1..]), encode);
    }
  }

  // ----- What the server sends again -----

  lemma {:induction false} FlatConcat(a: seq<seq<HistoryRow>>, b: seq<seq<HistoryRow>>)
    ensures Flat(a + b) == Flat(a) + Flat(b)
    decreases |a|
  {
    if a == [] {
      assert a + b == b;
    } else {
      FlatConcat(a[1..], b);
      assert (a + b)[1..] == a[1..] + b;
    }
  }

  /** Groups take at least one row each, and exactly one each if they are as many as rows. */
  lemma {:induction false} FlatLength(groups: seq<seq<HistoryRow>>)
    requires forall i :: 0 <= i < |groups| ==> groups[i] != []
    ensures |Flat(groups)| >= |groups|
    ensures |Flat(groups)| == |groups| <==> forall i :: 0 <= i < |groups| ==> |groups[i]| == 1
    ensures |Flat(groups)| == |groups| ==> Flat(groups) == Heads(groups)
    decreases |groups|
  {
    if groups != [] {
      var rest := groups[1..];
      FlatLength(rest);
      assert forall i :: 0 <= i < |rest| ==> rest[i] == groups[i + 1];
      assert Heads(groups) == [groups[0][0]] + Heads(rest);
      if |Flat(groups)| == |groups| {
        assert |groups[0]| == 1;
        forall i | 0 <= i < |groups| ensures |groups[i]| == 1 {
          assert i > 0 ==> groups[i] == rest[i - 1];
        }
      }
    }
  }

  /** Where the last row received lies in the history. */
  lemma LastHead(h: seq<HistoryRow>, groups: seq<seq<HistoryRow>>)
    requires groups != [] && forall i :: 0 <= i < |groups| ==> groups[i] != []
    requires Flat(groups) <= h
    ensures var k := |Flat(groups[..|groups| - 1])|;
            k < |h| && Flat(groups[..|groups| - 1]) == h[..k] && groups[|groups| - 1][0] == h[k]
  {
    var n := |groups| - 1;
    var before, last := groups[..n], groups[n];
    assert groups == before + [last];
    FlatConcat(before, [last]);
    assert Flat([last]) == last + Flat([last][1..]) == last;
    var k := |Flat(before)|;
    assert Flat(groups)[k] == last[0];
  }

  /** As many rows were received as lie up to the last one exactly if none was dropped before it. */
  lemma HeadsUpToLast(h: seq<HistoryRow>, groups: seq<seq<HistoryRow>>) returns (k: nat)
    requires groups != [] && forall i :: 0 <= i < |groups| ==> groups[i] != []
    requires Flat(groups) <= h
    ensures k < |h| && groups[|groups| - 1][0] == h[k]
    ensures |groups| == k + 1 <==> forall i :: 0 <= i < |groups| - 1 ==> |groups[i]| == 1
    ensures |groups| == k + 1 ==> Heads(groups) == h[..k + 1]
  {
    var n := |groups| - 1;
    var before := groups[..n];
    k := |Flat(before)|;
    LastHead(h, groups);
    FlatLength(before);
    assert forall i :: 0 <= i < n ==> before[i] == groups[i];
    if k == n {
      assert Heads(groups) == Heads(before) + [h[k]];
      assert h[..k + 1] == h[..k] + [h[k]];
    }
  }

  /**
   For every history and every way its entries were cut into chunks before the connection broke:
   what the client got and what it is sent after reconnecting make up the whole history, exactly if
   every chunk but the last carried a single entry. What is dropped from the last one comes again;
   what is dropped from an earlier one is lost for good.
   */
  lemma ResumedClientIff(h: seq<HistoryRow>, groups: seq<seq<HistoryRow>>)
    requires Increasing(h) && groups != [] && Flat(groups) <= h
    requires forall i :: 0 <= i < |groups| ==> groups[i] != []
    ensures Entries(Heads(groups)) + After(Entries(h), LastStatus(Heads(groups))) == Entries(h)
            <==> forall i :: 0 <= i < |groups| - 1 ==> |groups[i]| == 1
  {
    var k := HeadsUpToLast(h, groups);
    ResumedAfter(h, Heads(groups), k);
  }

  /** With `k` rows before the last one received: complete exactly if they were all received. */
  lemma ResumedAfter(h: seq<HistoryRow>, got: seq<HistoryRow>, k: nat)
    requires Increasing(h) && k < |h| && got != [] && got[|got| - 1] == h[k]
    ensures Entries(got) + After(Entries(h), LastStatus(got)) == Entries(h) ==> |got| == k + 1
    ensures got == h[..k + 1] ==> Entries(got) + After(Entries(h), LastStatus(got)) == Entries(h)
  {
    assert h[..k + 1][k] == h[k];
    assert LastStatus(got) == LastStatus(h[..k + 1]);
    ResumedStreamIsTheRest(h, k + 1);
    if got == h[..k + 1] {
      ResumedStreamIsComplete(h, k + 1);
    } else {
      assert |Entries(got) + Entries(h[k + 1..])| == |got| + |h| - k - 1;
    }
  }
}
