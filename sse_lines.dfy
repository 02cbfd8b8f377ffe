/**
 * The line handling of the fetch transport's reader loop in
 * src/features/chat/hooks/useSSEChat.ts: a carry-over buffer, `split('\n')`,
 * and the `data:` rule. It is a simplified form of the event-stream
 * interpretation of the HTML Living Standard (section 9.2.6): the space after
 * `data:` is kept, `\r` is not a line end, a blank line dispatches nothing,
 * and whitespace-only payloads are dropped.
 */
module SseLines {
  import opened Text

  const Marker: string := "data:"

  /**
   * What one complete line adds to the reply: everything after `data:`,
   * unstripped, unless that is blank; nothing for any other line.
   */
  function Payload(line: string): (r: string)
    ensures r != "" ==> line == Marker + r && !IsBlank(r)
    ensures StartsWith(line, Marker) && !IsBlank(line[|Marker|..]) ==> r != ""
  {
    if StartsWith(line, Marker) && !IsBlank(line[|Marker|..]) then line[|Marker|..] else ""
  }

  /** The payloads of `lines`, concatenated in order. */
  function Payloads(lines: seq<string>): string {
    if lines == [] then "" else Payloads(Init(lines)) + Payload(Last(lines))
  }

  /** The result of feeding one chunk: the new carry-over buffer and what the complete lines add. */
  datatype Fed = Fed(buffer: string, delta: string)

  /** `buffer += chunk; lines = buffer.split('\n'); buffer = lines.pop()`, then each line's payload. */
  function Feed(buffer: string, chunk: string): Fed {
    var lines := Split(buffer + chunk);
    Fed(Last(lines), Payloads(Init(lines)))
  }

  /** At end of stream a non-blank leftover buffer is split and handled by the same rule. */
  function Leftover(buffer: string): string {
    if IsBlank(buffer) then "" else Payloads(Split(buffer))
  }

  /** The reader loop's state between reads: carry-over buffer and accumulated reply. */
  datatype Reader = Reader(buffer: string, reply: string)

  const Start: Reader := Reader("", "")

  /** The loop state after the chunks, in arrival order. */
  function FeedAll(r: Reader, chunks: seq<string>): Reader {
    if chunks == [] then r
    else
      var prev := FeedAll(r, Init(chunks));
      var fed := Feed(prev.buffer, Last(chunks));
      Reader(fed.buffer, prev.reply + fed.delta)
  }

  /** The reply the loop finalises once the stream is done. */
  function Finish(r: Reader): string {
    r.reply + Leftover(r.buffer)
  }

  function Concat(chunks: seq<string>): string {
    if chunks == [] then "" else Concat(Init(chunks)) + Last(chunks)
  }

  /** The reply a whole body yields read as one text: every line's payload, in order. */
  function Reply(body: string): string {
    Payloads(Split(body))
  }

  lemma {:induction false} PayloadsAppend(a: seq<string>, b: seq<string>)
    ensures Payloads(a + b) == Payloads(a) + Payloads(b)
  {
    if b == [] {
      assert a + b == a;
    } else {
      var ab := a + b;
      assert Init(ab) == a + Init(b);
      assert Last(ab) == Last(b);
      var p := Payload(Last(b));
      calc {
        Payloads(ab);
        Payloads(a + Init(b)) + p;
        { PayloadsAppend(a, Init(b)); }
        (Payloads(a) + Payloads(Init(b))) + p;
        Payloads(a) + (Payloads(Init(b)) + p);
      }
    }
  }

  /** A blank buffer carries no payload, so the `buffer.trim()` guard at end of stream changes nothing. */
  lemma BlankContributesNothing(line: string)
    requires IsBlank(line)
    ensures Payload(line) == ""
  {
    if |line| > 0 {
      assert IsSpace(line[0]);
      assert Marker[0] == 'd';
      assert !StartsWith(line, Marker);
    }
  }

  /**
   * After any sequence of chunks the buffer holds exactly the text after the
   * last newline received, and the reply holds the payloads of every complete
   * line before it, each once and in order.
   */
  lemma {:induction false} FeedAllInvariant(chunks: seq<string>)
    ensures FeedAll(Start, chunks).buffer == Last(Split(Concat(chunks)))
    ensures FeedAll(Start, chunks).reply == Payloads(Init(Split(Concat(chunks))))
  {
    if chunks == [] {
      assert Split("") == [""];
      assert Init(Split("")) == [];
    } else {
      FeedAllInvariant(Init(chunks));
      var before := Split(Concat(Init(chunks)));
      var lines := Split(Last(before) + Last(chunks));
      SplitAppend(Concat(Init(chunks)), Last(chunks));
      assert Split(Concat(chunks)) == Init(before) + lines;
      assert Init(Init(before) + lines) == Init(before) + Init(lines);
      PayloadsAppend(Init(before), Init(lines));
    }
  }

  /** The finalised reply is the reply of the whole body. */
  lemma FinishIsReply(chunks: seq<string>)
    ensures Finish(FeedAll(Start, chunks)) == Reply(Concat(chunks))
  {
    FeedAllInvariant(chunks);
    var lines := Split(Concat(chunks));
    var b := Last(lines);
    SplitPieces(Concat(chunks));
    SplitNoNewline(b);
    if IsBlank(b) {
      BlankContributesNothing(b);
    }
    assert Payloads([b]) == Payload(b) by {
      assert Init([b]) == [];
    }
  }

  /**
   * Splitting the same body at different chunk boundaries (even inside the
   * `data:` marker) yields the same finalised reply.
   */
  lemma ChunkBoundaryIndependence(c1: seq<string>, c2: seq<string>)
    requires Concat(c1) == Concat(c2)
    ensures Finish(FeedAll(Start, c1)) == Finish(FeedAll(Start, c2))
  {
    FinishIsReply(c1);
    FinishIsReply(c2);
  }

  /** A `data:` line whose rest is not blank contributes that rest verbatim. */
  lemma DataLine(rest: string)
    requires !IsBlank(rest)
    ensures Payload(Marker + rest) == rest
  {
    var line := Marker + rest;
    assert line[..|Marker|] == Marker;
    assert line[|Marker|..] == rest;
  }

  /** Deltas `He` and `llo` on two data lines make the reply `Hello`. */
  lemma TwoDeltasMakeHello()
    ensures Reply("data:He\ndata:llo\n") == "Hello"
  {
    HelloLines();
    HelloPayloads();
  }

  /** The example body splits into its two data lines and an empty last piece. */
  lemma HelloLines()
    ensures Split("data:He\ndata:llo\n") == [Marker + "He", Marker + "llo", ""]
  {
    var lines := [Marker + "He", Marker + "llo", ""];
    SplitJoin(lines);
    assert lines[1..] == [Marker + "llo", ""];
    assert lines[1..][1..] == [""];
    assert Join([""]) == "";
    assert Join(lines[1..]) == (Marker + "llo") + "\n" + "";
    assert Join(lines) == (Marker + "He") + "\n" + Join(lines[1..]);
    assert (Marker + "He") + "\n" + ((Marker + "llo") + "\n" + "") == "data:He\ndata:llo\n";
  }

  lemma PayloadsOfThree(a: string, b: string, c: string)
    ensures Payloads([a, b, c]) == Payload(a) + Payload(b) + Payload(c)
  {
    assert Init([a]) == [] && Last([a]) == a;
    assert Payloads([a]) == Payload(a);
    assert Init([a, b]) == [a] && Last([a, b]) == b;
    assert Payloads([a, b]) == Payload(a) + Payload(b);
    assert Init([a, b, c]) == [a, b] && Last([a, b, c]) == c;
  }

  /** The example's lines contribute "He", "llo" and nothing. */
  lemma HelloPayloads()
    ensures Payloads([Marker + "He", Marker + "llo", ""]) == "Hello"
  {
    assert !IsSpace("He"[0]) && !IsSpace("llo"[0]);
    DataLine("He");
    DataLine("llo");
    assert Payload("") == "";
    PayloadsOfThree(Marker + "He", Marker + "llo", "");
  }
}
