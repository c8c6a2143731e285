/** The server-sent-event framing that `CompletionStream` decodes: a
    `bufio.Reader` handing out '\n'-terminated lines, and the meaning of a
    body as the responses it dispatches and the way it stops. */
module Gpt3Stream {
  import opened Common
  import opened Gpt3Http

  const Newline: byte := 10

  /** `dataPrefix`: the bytes of "data: ". */
  const DataPrefix: seq<byte> := Ascii("data: ")

  /** `doneSequence`: the bytes of "[DONE]". */
  const DoneSequence: seq<byte> := Ascii("[DONE]")

  /** The ASCII white space `bytes.TrimSpace` removes: '\t', '\n', '\v',
      '\f', '\r' and ' '. */
  const AsciiSpace: set<byte> := {9, 10, 11, 12, 13, 32}

  /** `bytes.TrimSpace` on ASCII white space. */
  function TrimSpace(line: seq<byte>): (r: seq<byte>)
    ensures r == [] || (r[0] !in AsciiSpace && r[|r| - 1] !in AsciiSpace)
  {
    TrimRightSet(TrimLeftSet(line, AsciiSpace), AsciiSpace)
  }

  /** `r` is what is left of `line` when white space only is cut before
      position `i` and after position `i + |r|`. */
  predicate SpaceCut(line: seq<byte>, i: nat, r: seq<byte>)
  {
    && i + |r| <= |line| && line[i..][..|r|] == r
    && (forall k :: 0 <= k < i ==> line[k] in AsciiSpace)
    && (forall k :: i + |r| <= k < |line| ==> line[k] in AsciiSpace)
  }

  /** `TrimSpace` cuts white space only, from both ends. */
  lemma TrimSpaceCuts(line: seq<byte>)
    ensures exists i :: SpaceCut(line, i, TrimSpace(line))
  {
    var left := TrimLeftSet(line, AsciiSpace);
    var r := TrimRightSet(left, AsciiSpace);
    assert r == TrimSpace(line);
    var i := |line| - |left|;
    assert line[i..] == left;
    assert left[..|r|] == r;
    assert forall k :: 0 <= k < i ==> line[k] in AsciiSpace;
    assert forall k :: |r| <= k < |left| ==> left[k] in AsciiSpace;
    forall k | i + |r| <= k < |line|
      ensures line[k] in AsciiSpace
    {
      assert line[k] == left[k - i];
    }
    assert SpaceCut(line, i, r);
  }

  /** Where the first newline of `s` is. */
  function IndexOfNewline(s: seq<byte>): (k: nat)
    requires Newline in s
    ensures k < |s| && s[k] == Newline && Newline !in s[..k]
  {
    if s[0] == Newline then 0
    else
      var k := IndexOfNewline(s[1..]);
      assert s[..k + 1] == [s[0]] + s[1..][..k];
      k + 1
  }

  /** The complete lines of `s`, each with its terminating '\n'; bytes after
      the last '\n' belong to no line. */
  function Lines(s: seq<byte>): (lines: seq<seq<byte>>)
    decreases |s|
  {
    if Newline !in s then []
    else
      var k := IndexOfNewline(s);
      [s[..k + 1]] + Lines(s[k + 1..])
  }

  /** A line as `ReadBytes('\n')` returns it without error: its only '\n'
      is its last byte. */
  predicate CompleteLine(line: seq<byte>)
  {
    |line| > 0 && line[|line| - 1] == Newline && Newline !in line[..|line| - 1]
  }

  /** The lines one after the other. */
  function Concat(lines: seq<seq<byte>>): seq<byte>
    decreases |lines|
  {
    if lines == [] then [] else lines[0] + Concat(lines[1..])
  }

  /** Every element of `Lines(s)` is a complete line, as `ReadBytes('\n')`
      returns it without error. */
  lemma {:induction false} LinesComplete(s: seq<byte>)
    ensures forall i :: 0 <= i < |Lines(s)| ==> CompleteLine(Lines(s)[i])
    decreases |s|
  {
    if Newline in s {
      var k := IndexOfNewline(s);
      var head := s[..k + 1];
      LinesComplete(s[k + 1..]);
      var ls := Lines(s);
      assert ls[0] == head && ls[1..] == Lines(s[k + 1..]);
      assert head[..k] == s[..k];
      forall i | 1 <= i < |ls|
        ensures CompleteLine(ls[i])
      {
        assert ls[i] == ls[1..][i - 1];
      }
    }
  }

  /** The elements of `Lines(s)` put together are `s` up to its last '\n',
      after which no '\n' is left. */
  lemma {:induction false} LinesConcat(s: seq<byte>)
    ensures var c := Concat(Lines(s)); |c| <= |s| && s[..|c|] == c && Newline !in s[|c|..]
    decreases |s|
  {
    if Newline in s {
      var k := IndexOfNewline(s);
      var head := s[..k + 1];
      var tail := s[k + 1..];
      LinesConcat(tail);
      var ls := Lines(s);
      assert ls == [head] + Lines(tail);
      var c := Concat(Lines(tail));
      assert Concat(ls) == head + c by {
        assert ls[0] == head && ls[1..] == Lines(tail);
      }
      assert s == head + tail;
      SliceAround(head, tail, |c|);
    } else {
      assert s[..0] == [] && s[0..] == s;
    }
  }

  /** Cutting `head + tail` inside `tail`. */
  lemma SliceAround<T>(head: seq<T>, tail: seq<T>, n: nat)
    requires n <= |tail|
    ensures (head + tail)[..|head| + n] == head + tail[..n]
    ensures (head + tail)[|head| + n..] == tail[n..]
  {
  }

  /** Appending bytes after a newline does not move the first newline. */
  lemma {:induction false} IndexOfNewlineAppend(s: seq<byte>, tail: seq<byte>)
    requires Newline in s
    ensures Newline in s + tail && IndexOfNewline(s + tail) == IndexOfNewline(s)
    decreases |s|
  {
    var st := s + tail;
    assert st[0] == s[0];
    if s[0] != Newline {
      assert s[0] != Newline ==> Newline in s[1..];
      assert st[1..] == s[1..] + tail;
      IndexOfNewlineAppend(s[1..], tail);
    }
  }

  /** Bytes that follow the last newline never form a line. */
  lemma {:induction false} LinesIgnoreUnterminatedTail(s: seq<byte>, tail: seq<byte>)
    requires s == [] || s[|s| - 1] == Newline
    requires Newline !in tail
    ensures Lines(s + tail) == Lines(s)
    decreases |s|
  {
    if s == [] {
      assert s + tail == tail;
    } else {
      assert s[|s| - 1] in s;
      IndexOfNewlineAppend(s, tail);
      var k := IndexOfNewline(s);
      var st := s + tail;
      assert st[..k + 1] == s[..k + 1];
      assert st[k + 1..] == s[k + 1..] + tail;
      LinesIgnoreUnterminatedTail(s[k + 1..], tail);
    }
  }

  /** How a stream stops: at "[DONE]", at a read error (returned as it is,
      `io.EOF` included), or at a payload that is not JSON. */
  datatype Stop = Finished | ReadFailed(failure: ReadFailure) | InvalidJson(payload: seq<byte>)

  /** The responses handed to `onData`, in order, and how the stream
      stopped. */
  datatype Outcome<R> = Outcome(stop: Stop, delivered: seq<R>)

  /** The payload of a line: what follows "data: " once the line is
      trimmed, or nothing when the trimmed line lacks that prefix. */
  function DataPayload(line: seq<byte>): Option<seq<byte>>
  {
    var trimmed := TrimSpace(line);
    if HasPrefix(trimmed, DataPrefix) then Some(trimmed[|DataPrefix|..]) else None
  }

  /** What one line does to the stream. */
  datatype Event<R> = Skip | Finish | Unparsable(payload: seq<byte>) | Item(value: R)

  /** A payload starting with "[DONE]" finishes; any other is parsed. */
  function PayloadEvent<R>(payload: seq<byte>, parse: seq<byte> -> Option<R>): Event<R>
  {
    if HasPrefix(payload, DoneSequence) then Finish
    else
      match parse(payload)
      case None => Unparsable(payload)
      case Some(r) => Item(r)
  }

  /** A line without a payload is skipped. */
  function LineEvent<R>(line: seq<byte>, parse: seq<byte> -> Option<R>): Event<R>
  {
    match DataPayload(line)
    case None => Skip
    case Some(p) => PayloadEvent(p, parse)
  }

  /** The decoding loop, line by line: a trimmed line without "data: " is
      skipped; a payload starting with "[DONE]" finishes; any other payload
      is parsed and dispatched, or stops the stream when it does not parse;
      running out of complete lines stops with the read error `end`. */
  function Run<R>(lines: seq<seq<byte>>, end: ReadFailure, parse: seq<byte> -> Option<R>): Outcome<R>
    decreases |lines|
  {
    if lines == [] then Outcome(ReadFailed(end), [])
    else
      match LineEvent(lines[0], parse)
      case Skip => Run(lines[1..], end, parse)
      case Finish => Outcome(Finished, [])
      case Unparsable(p) => Outcome(InvalidJson(p), [])
      case Item(r) =>
        var rest := Run(lines[1..], end, parse);
        Outcome(rest.stop, [r] + rest.delivered)
  }

  /** The payloads of the lines that carry the data prefix, in order. */
  function Payloads(lines: seq<seq<byte>>): (ps: seq<seq<byte>>)
    ensures |ps| <= |lines|
    decreases |lines|
  {
    if lines == [] then []
    else
      match DataPayload(lines[0])
      case None => Payloads(lines[1..])
      case Some(p) => [p] + Payloads(lines[1..])
  }

  /** What a sequence of payloads comes to: `delivered` is the parse of the
      payloads before the stopping one, none of which is "[DONE]"; the
      stream finishes at the first "[DONE]", fails at the first payload that
      does not parse, and otherwise runs out with the read error `end`. */
  ghost predicate Explains<R>(ps: seq<seq<byte>>, end: ReadFailure, parse: seq<byte> -> Option<R>, o: Outcome<R>)
  {
    var n := |o.delivered|;
    && n <= |ps|
    && (forall i :: 0 <= i < n ==> !HasPrefix(ps[i], DoneSequence) && parse(ps[i]) == Some(o.delivered[i]))
    && (o.stop.Finished? ==> n < |ps| && HasPrefix(ps[n], DoneSequence))
    && (o.stop.InvalidJson? ==>
          n < |ps| && !HasPrefix(ps[n], DoneSequence) && parse(ps[n]).None? && o.stop.payload == ps[n])
    && (o.stop.ReadFailed? ==> n == |ps| && o.stop.failure == end)
  }

  /** The decoding loop over payloads alone. */
  function RunPayloads<R>(ps: seq<seq<byte>>, end: ReadFailure, parse: seq<byte> -> Option<R>): Outcome<R>
    decreases |ps|
  {
    if ps == [] then Outcome(ReadFailed(end), [])
    else if HasPrefix(ps[0], DoneSequence) then Outcome(Finished, [])
    else
      match parse(ps[0])
      case None => Outcome(InvalidJson(ps[0]), [])
      case Some(r) =>
        var rest := RunPayloads(ps[1..], end, parse);
        Outcome(rest.stop, [r] + rest.delivered)
  }

  /** `RunPayloads` does what `Explains` describes. */
  lemma {:induction false} RunPayloadsExplained<R>(ps: seq<seq<byte>>, end: ReadFailure, parse: seq<byte> -> Option<R>)
    ensures Explains(ps, end, parse, RunPayloads(ps, end, parse))
    decreases |ps|
  {
    if ps != [] && !HasPrefix(ps[0], DoneSequence) && parse(ps[0]).Some? {
      var rest := RunPayloads(ps[1..], end, parse);
      RunPayloadsExplained(ps[1..], end, parse);
      assert forall i :: 1 <= i < |rest.delivered| + 1 ==> ps[i] == ps[1..][i - 1];
    }
  }

  /** `Explains` admits one outcome only, so it is a complete reference for
      `RunPayloads`. */
  lemma {:induction false} ExplainsUnique<R>(ps: seq<seq<byte>>, end: ReadFailure, parse: seq<byte> -> Option<R>, o: Outcome<R>)
    requires Explains(ps, end, parse, o)
    ensures o == RunPayloads(ps, end, parse)
    decreases |ps|
  {
    if ps != [] && !HasPrefix(ps[0], DoneSequence) && parse(ps[0]).Some? && o.delivered != [] {
      var tail := Outcome(o.stop, o.delivered[1..]);
      assert forall i :: 0 <= i < |tail.delivered| ==> ps[1..][i] == ps[i + 1] && tail.delivered[i] == o.delivered[i + 1];
      ExplainsUnique(ps[1..], end, parse, tail);
      assert o.delivered == [o.delivered[0]] + tail.delivered;
    }
  }

  /** Lines without the data prefix play no part: decoding the lines is
      decoding their payloads. */
  lemma {:induction false} RunSeesOnlyPayloads<R>(lines: seq<seq<byte>>, end: ReadFailure, parse: seq<byte> -> Option<R>)
    ensures Run(lines, end, parse) == RunPayloads(Payloads(lines), end, parse)
    decreases |lines|
  {
    if lines != [] {
      RunSeesOnlyPayloads(lines[1..], end, parse);
      var ps := Payloads(lines);
      match DataPayload(lines[0])
      case None =>
      case Some(p) =>
        assert ps == [p] + Payloads(lines[1..]);
        assert ps[0] == p && ps[1..] == Payloads(lines[1..]);
    }
  }

  /** The meaning of a body: what the client loop makes of its complete
      lines. */
  function DecodeBody<R>(body: Body, parse: seq<byte> -> Option<R>): Outcome<R>
  {
    Run(Lines(body.data), body.end, parse)
  }

  /** A body decodes as its data-line payloads do: each payload before the
      stopping one is dispatched exactly once, in order. */
  lemma DecodeBodyExplained<R>(body: Body, parse: seq<byte> -> Option<R>)
    ensures Explains(Payloads(Lines(body.data)), body.end, parse, DecodeBody(body, parse))
  {
    RunSeesOnlyPayloads(Lines(body.data), body.end, parse);
    RunPayloadsExplained(Payloads(Lines(body.data)), body.end, parse);
  }

  /** A final line without '\n' is never dispatched: the body decodes as if
      it were not there. */
  lemma UnterminatedLineNeverDispatched<R>(data: seq<byte>, tail: seq<byte>, end: ReadFailure, parse: seq<byte> -> Option<R>)
    requires data == [] || data[|data| - 1] == Newline
    requires Newline !in tail
    ensures DecodeBody(Body(data + tail, end), parse) == DecodeBody(Body(data, end), parse)
  {
    LinesIgnoreUnterminatedTail(data, tail);
  }

  /** A body whose payloads all parse and none is "[DONE]" dispatches every
      one of them and then returns the read error that ends it, `io.EOF`
      included. */
  lemma EndBeforeDoneIsReadError<R>(body: Body, parse: seq<byte> -> Option<R>)
    requires forall p :: p in Payloads(Lines(body.data)) ==> !HasPrefix(p, DoneSequence) && parse(p).Some?
    ensures var o := DecodeBody(body, parse);
      o.stop == ReadFailed(body.end) && |o.delivered| == |Payloads(Lines(body.data))|
  {
    DecodeBodyExplained(body, parse);
    var ps := Payloads(Lines(body.data));
    var o := DecodeBody(body, parse);
    if !o.stop.ReadFailed? {
      assert ps[|o.delivered|] in ps;
    }
  }

  /** Payloads that all parse, followed by "[DONE]", are all dispatched in
      order and the stream finishes; nothing after "[DONE]" is looked at. */
  lemma DoneAfterPayloads<R>(ps: seq<seq<byte>>, done: seq<byte>, rest: seq<seq<byte>>, end: ReadFailure, parse: seq<byte> -> Option<R>)
    requires forall i :: 0 <= i < |ps| ==> !HasPrefix(ps[i], DoneSequence) && parse(ps[i]).Some?
    requires HasPrefix(done, DoneSequence)
    ensures var o := RunPayloads(ps + [done] + rest, end, parse);
      o.stop == Finished && |o.delivered| == |ps|
      && forall i :: 0 <= i < |ps| ==> Some(o.delivered[i]) == parse(ps[i])
  {
    var all := ps + [done] + rest;
    var o := RunPayloads(all, end, parse);
    RunPayloadsExplained(all, end, parse);
    assert forall i :: 0 <= i < |ps| ==> all[i] == ps[i];
    assert all[|ps|] == done;
  }

  /** `bufio.Reader` over a body, read with `ReadBytes('\n')`. */
  class LineReader {
    const data: seq<byte>
    const end: ReadFailure
    var pos: nat

    /** The complete lines not yet read. */
    ghost var remaining: seq<seq<byte>>

    ghost predicate Valid()
      reads this
    {
      pos <= |data| && remaining == Lines(data[pos..])
    }

    constructor (body: Body)
      ensures Valid() && data == body.data && end == body.end && pos == 0
      ensures remaining == Lines(body.data)
    {
      data := body.data;
      end := body.end;
      pos := 0;
      remaining := Lines(body.data);
      assert body.data[0..] == body.data;
    }

    /** `ReadBytes('\n')`: the next line with its '\n' and no error, or, when
        no '\n' is left, the remaining bytes with the error that ends the
        body. */
    method ReadBytes() returns (line: seq<byte>, err: Option<ReadFailure>)
      requires Valid()
      modifies this
      ensures Valid()
      ensures old(remaining) != [] ==> err == None && line == old(remaining)[0] && remaining == old(remaining)[1..]
      ensures old(remaining) == [] ==> err == Some(end) && line == old(data[pos..]) && pos == |data|
      ensures err == None ==> old(pos) < pos
    {
      var rest := data[pos..];
      if Newline in rest {
        var k := IndexOfNewline(rest);
        line := rest[..k + 1];
        err := None;
        pos := pos + k + 1;
        assert data[pos..] == rest[k + 1..];
        remaining := remaining[1..];
      } else {
        line := rest;
        err := Some(end);
        pos := |data|;
        assert data[pos..] == [];
      }
    }
  }
}
