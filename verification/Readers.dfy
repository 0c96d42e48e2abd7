/** The two bounded readers of child-process output. Both accept exactly the
    streams of at most 65536 bytes, verbatim, however the pipe splits them. */
module Readers {
  import opened Common
  import opened Revisions

  const LIMIT: nat := 65536
  const READ_SIZE: nat := 16384

  /** The read end of a pipe whose writer will send `rest`. */
  class Pipe {
    var rest: seq<Byte>

    constructor (sent: seq<Byte>)
      ensures rest == sent
    {
      rest := sent;
    }

    /** readpartial: some bytes, at most `max`, and an end-of-file error after the last one. */
    method ReadPartial(max: nat) returns (chunk: Option<seq<Byte>>)
      requires max >= 1
      modifies this
      ensures chunk.None? <==> old(rest) == []
      ensures chunk.None? ==> rest == []
      ensures chunk.Some? ==> 1 <= |chunk.value| <= max && chunk.value + rest == old(rest)
    {
      if rest == [] {
        return None;
      }
      var n: nat :| 1 <= n <= max && n <= |rest|;
      chunk := Some(rest[..n]);
      rest := rest[n..];
    }
  }

  /** What both readers promise about a stream. */
  function Accepted(stream: seq<Byte>): Option<seq<Byte>> {
    if |stream| <= 65536 then Some(stream) else None
  }

  function Capped(stream: seq<Byte>): (r: seq<Byte>)
    ensures |r| <= LIMIT + 1 && r <= stream
  {
    if |stream| <= LIMIT + 1 then stream else stream[..LIMIT + 1]
  }

  /** A chunk is kept as far as it fits under the cap. */
  lemma CapGrows(sofar: seq<Byte>, chunk: seq<Byte>)
    ensures var remaining := LIMIT + 1 - |Capped(sofar)|;
            Capped(sofar + chunk) == Capped(sofar) + (if remaining < |chunk| then chunk[..remaining] else chunk)
  {
    var remaining := LIMIT + 1 - |Capped(sofar)|;
    var kept := if remaining < |chunk| then chunk[..remaining] else chunk;
    assert |Capped(sofar + chunk)| == |Capped(sofar) + kept|;
    forall i | 0 <= i < |Capped(sofar + chunk)| ensures Capped(sofar + chunk)[i] == (Capped(sofar) + kept)[i] {
    }
  }

  /** drain_output: reads to the end so that the writer never blocks, keeps at most LIMIT + 1 bytes. */
  method DrainOutput(reader: Pipe) returns (output: seq<Byte>)
    modifies reader
    ensures output == Capped(old(reader.rest)) && reader.rest == []
  {
    ghost var stream, sofar := reader.rest, [];
    output := [];
    while true
      invariant sofar + reader.rest == stream && output == Capped(sofar)
      decreases |reader.rest|
    {
      var chunk := reader.ReadPartial(READ_SIZE);
      if chunk.None? {
        assert sofar == stream;
        return;
      }
      CapGrows(sofar, chunk.value);
      var remaining := LIMIT + 1 - |output|;
      if remaining > 0 {
        output := output + (if remaining < |chunk.value| then chunk.value[..remaining] else chunk.value);
      }
      sofar := sofar + chunk.value;
    }
  }

  /** run_command's use of it. */
  method CommandOutput(reader: Pipe) returns (output: Option<seq<Byte>>)
    modifies reader
    ensures output == Accepted(old(reader.rest)) && reader.rest == []
  {
    var drained := DrainOutput(reader);
    output := if |drained| > LIMIT then None else Some(drained);
  }

  /** read_output: asks for no more than the cap leaves room for, gives up one byte past
      the limit. `held` is the buffer at the end, which only ever grew. */
  method ReadOutput(reader: Pipe) returns (output: Option<seq<Byte>>, held: seq<Byte>)
    modifies reader
    ensures output == Accepted(old(reader.rest))
    ensures held == Capped(old(reader.rest)) && held + reader.rest == old(reader.rest)
  {
    ghost var stream := reader.rest;
    held := [];
    while true
      invariant held + reader.rest == stream && |held| <= LIMIT
      decreases |reader.rest|
    {
      var room := LIMIT + 1 - |held|;
      var chunk := reader.ReadPartial(if READ_SIZE < room then READ_SIZE else room);
      if chunk.None? {
        assert held == stream;
        return Some(held), held;
      }
      held := held + chunk.value;
      if |held| > LIMIT {
        assert held == stream[..LIMIT + 1];
        return None, held;
      }
    }
  }
}
