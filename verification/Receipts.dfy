/**
 The reader of the session worker's receipts.  Its input is an arbitrary byte stream cut into lines by
 a 1024-byte buffer; a line that does not fit, a line cut off by the end of the stream and a read
 error are all errors of the read.
 */
module Receipts {
  import opened Common

  /** One decoded receipt: the JSON object's fields, or nothing where decoding failed. */
  datatype Receipt = Receipt(version: int, event: string, width: int, height: int, reason: string, code: nat)

  /** `parseReceipt` behind the JSON decoder, which is given as `decoded`. */
  predicate Sound(raw: seq<Byte>, decoded: Option<Receipt>) {
    && 0 < |raw| <= 1024 && decoded.Some? && decoded.value.version == 1
    && var r := decoded.value;
       if r.event == "connected" then r.width == 0 && r.height == 0 && r.reason == "" && r.code == 0
       else if r.event == "frame"
       then 320 <= r.width <= 4096 && 240 <= r.height <= 2160 && r.reason == "" && r.code == 0
       else if r.event == "failed" then
         && r.width == 0 && r.height == 0
         && (r.reason == "certificate" || r.reason == "redirect" || r.reason == "connect" || r.reason == "setup")
         && (r.reason == "setup" ==> 1 <= r.code <= 4)
       else false
  }

  /** What one call of the line reader returns: bytes, and how the read ended. */
  datatype ReadEnd = Whole | AtEnd | Faulty
  datatype Line = Line(raw: seq<Byte>, end: ReadEnd, decoded: Option<Receipt>)

  datatype Failure = NoFailure | Closed | Protocol | WorkerFailed(reason: string, code: nat)

  /** The receipt a line carries, if it is a whole and sound one. */
  function Carried(l: Line): Option<Receipt> { if l.end == Whole && Sound(l.raw, l.decoded) then l.decoded else None }

  predicate Brings(l: Line, event: string) { Carried(l).Some? && Carried(l).value.event == event }

  /** How often a receipt of this kind came in. */
  function Count(lines: seq<Line>, event: string): nat {
    if lines == [] then 0 else Count(lines[..|lines| - 1], event) + if Brings(lines[|lines| - 1], event) then 1 else 0
  }

  /** The lines read so far are all new good news: each kind at most once, nothing else. */
  predicate Progress(lines: seq<Line>) {
    && (forall i :: 0 <= i < |lines| ==> Brings(lines[i], "connected") || Brings(lines[i], "frame"))
    && Count(lines, "connected") <= 1 && Count(lines, "frame") <= 1
  }

  /** Exactly one connected and one frame receipt, and nothing else. */
  predicate BothCame(lines: seq<Line>) {
    Progress(lines) && Count(lines, "connected") == 1 && Count(lines, "frame") == 1
  }

  /** The one way a stream ends well: closed by the worker after both receipts. */
  predicate CleanEnd(l: Line, before: seq<Line>) {
    l.end == AtEnd && l.raw == [] && Count(before, "connected") == 1 && Count(before, "frame") == 1
  }

  /** Why the reader stopped at `l`, having read `before`. */
  function Verdict(before: seq<Line>, l: Line): Failure {
    if CleanEnd(l, before) then Closed
    else if Brings(l, "failed") then WorkerFailed(Carried(l).value.reason, Carried(l).value.code)
    else Protocol
  }

  lemma {:induction false} CountBound(lines: seq<Line>)
    ensures (forall i :: 0 <= i < |lines| ==> Brings(lines[i], "connected") || Brings(lines[i], "frame")) ==>
              Count(lines, "connected") + Count(lines, "frame") == |lines|
  {
    if lines != [] {
      CountBound(lines[..|lines| - 1]);
    }
  }

  class Session {
    var failure: Failure
    var size: Option<(int, int)>
    var readyCloses: nat   // how often the ready channel was closed; a second time would panic
    var inputClosed: bool
    var stopping: bool

    /**
     `readReceipts` over the lines of a stream.  No stream keeps the reader going: see `StreamStops`.
     */
    method ReadReceipts(lines: seq<Line>) returns (used: nat)
      requires failure == NoFailure && readyCloses == 0 && size.None? && !stopping && !inputClosed
      requires !Progress(lines)
      modifies this
      ensures used < |lines| && Progress(lines[..used]) && !Progress(lines[..used + 1])
      ensures failure == Verdict(lines[..used], lines[used]) && failure != NoFailure && stopping
      ensures readyCloses == if BothCame(lines[..used]) then 1 else 0
      ensures inputClosed <==> failure == Protocol
      ensures size.Some? <==> Count(lines[..used], "frame") == 1
    {
      hide Sound;
      var connected, frame := false, false;
      used := 0;
      CountBound(lines[..0]);
      assert lines[..0] == [];
      while true
        invariant used <= |lines| && Progress(lines[..used]) && failure == NoFailure && !stopping && !inputClosed
        invariant connected == (Count(lines[..used], "connected") == 1) && frame == (Count(lines[..used], "frame") == 1)
        invariant readyCloses == (if connected && frame then 1 else 0) && size.Some? == frame
        decreases |lines| - used
      {
        assert used < |lines| by { assert lines[..|lines|] == lines; }
        var l := lines[used];
        assert lines[..used + 1][..used] == lines[..used] && lines[..used + 1][used] == l;
        assert Count(lines[..used + 1], "connected") ==
               Count(lines[..used], "connected") + if Brings(l, "connected") then 1 else 0;
        assert Count(lines[..used + 1], "frame") == Count(lines[..used], "frame") + if Brings(l, "frame") then 1 else 0;
        if l.end == AtEnd && l.raw == [] && connected && frame {
          failure, stopping := Closed, true;
          return;
        }
        var r := Carried(l);
        if r.Some? && r.value.event == "failed" {
          failure, stopping := WorkerFailed(r.value.reason, r.value.code), true;
          return;
        }
        if r.None? || (r.value.event == "connected" && connected) || (r.value.event == "frame" && frame) {
          failure, inputClosed, stopping := Protocol, true, true;
          return;
        }
        SoundEvents(l);
        if r.value.event == "connected" {
          connected := true;
        } else {
          frame := true;
          size := Some((r.value.width, r.value.height));
        }
        if connected && frame {
          readyCloses := readyCloses + 1;
        }
        used := used + 1;
        Continues(lines, used);
      }
    }

    /** The reader over a byte stream: it always ends, with a failure recorded, and closes `ready` at most once. */
    method ReadStream(stream: seq<Byte>, decode: seq<Byte> -> Option<Receipt>)
      requires failure == NoFailure && readyCloses == 0 && size.None? && !stopping && !inputClosed
      modifies this
      ensures failure != NoFailure && stopping && readyCloses <= 1
      ensures exists n ::
                && 0 <= n < |Lines(stream, decode)|
                && failure == Verdict(Lines(stream, decode)[..n], Lines(stream, decode)[n])
                && Progress(Lines(stream, decode)[..n])
      ensures readyCloses == 1 ==> |Lines(stream, decode)| > 2 && BothCame(Lines(stream, decode)[..2])
    {
      hide Progress, Verdict, Count, Lines;
      var lines := Lines(stream, decode);
      StreamStops(stream, decode);
      var used := ReadReceipts(lines);
      if readyCloses == 1 {
        ReadyMeansBoth(lines[..used]);
        assert BothCame(lines[..2]);
      }
    }
  }

  lemma SoundEvents(l: Line)
    requires Carried(l).Some?
    ensures Carried(l).value.event in {"connected", "frame", "failed"}
  {
  }

  lemma Continues(lines: seq<Line>, n: nat)
    requires 0 < n <= |lines| && Progress(lines[..n - 1])
    requires (Brings(lines[n - 1], "connected") || Brings(lines[n - 1], "frame"))
    requires Count(lines[..n], "connected") <= 1 && Count(lines[..n], "frame") <= 1
    ensures Progress(lines[..n])
  {
  }

  // Cutting a byte stream into lines ---------------------------------------------------------------

  const BUFFER := 1024
  const NEWLINE: Byte := 10

  /** The length of the first line with its newline, or the whole length if there is none. */
  function LineLength(s: seq<Byte>): (n: nat)
    ensures n <= |s| && (s != [] ==> n > 0)
  {
    if s == [] then 0 else if s[0] == NEWLINE then 1 else 1 + LineLength(s[1..])
  }

  predicate Ended(s: seq<Byte>) { LineLength(s) == 0 || s[LineLength(s) - 1] != NEWLINE }

  /** Successive reads through the buffer, up to the first that does not return a whole line. */
  function Lines(s: seq<Byte>, decode: seq<Byte> -> Option<Receipt>): seq<Line>
    decreases |s|
  {
    var n := LineLength(s);
    if n > BUFFER || (n == BUFFER && Ended(s)) then [Line(s[..BUFFER], Faulty, decode(s[..BUFFER]))]
    else if Ended(s) then [Line(s, AtEnd, decode(s))]
    else [Line(s[..n], Whole, decode(s[..n]))] + Lines(s[n..], decode)
  }

  lemma {:induction false} LastIsNotWhole(s: seq<Byte>, decode: seq<Byte> -> Option<Receipt>)
    ensures var l := Lines(s, decode); |l| > 0 && l[|l| - 1].end != Whole
    decreases |s|
  {
    var n := LineLength(s);
    if !(n > BUFFER || Ended(s)) {
      LastIsNotWhole(s[n..], decode);
    }
  }

  /** Every byte stream brings the reader to an end. */
  lemma StreamStops(s: seq<Byte>, decode: seq<Byte> -> Option<Receipt>)
    ensures !Progress(Lines(s, decode))
  {
    LastIsNotWhole(s, decode);
  }

  /**
   The session is announced ready only by exactly one connected and one frame receipt, in either order,
   and nothing else before.
   */
  lemma ReadyMeansBoth(lines: seq<Line>)
    requires BothCame(lines)
    ensures |lines| == 2
    ensures || (Brings(lines[0], "connected") && Brings(lines[1], "frame"))
            || (Brings(lines[0], "frame") && Brings(lines[1], "connected"))
  {
    CountBound(lines);
    assert lines[..1][..0] == [];
    assert Count(lines[..1], "connected") == if Brings(lines[0], "connected") then 1 else 0;
    assert Count(lines[..1], "frame") == if Brings(lines[0], "frame") then 1 else 0;
  }
}
