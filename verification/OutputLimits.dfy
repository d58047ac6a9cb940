/**
 Line and size limits of command output: counted while the output streams in, and checked on the whole text
 (src/aruba_session_tracker/collectors/ssh.py:665-739 and 2095-2103,
 src/aruba_session_tracker/offline/parser.py:236-245).

 The only line breaks are CR, LF and CR LF.
 */
module OutputLimits {

  const MAX_OUTPUT_BYTES: nat := 4 * 1024 * 1024
  const MAX_OUTPUT_LINES: nat := 50_000

  // ----- what a line is -----

  /** `str.splitlines`: the lines of `s`, of which `current` was read before; no empty line at the end. */
  function LinesFrom(current: string, s: string): seq<string>
    decreases |s|
  {
    if s == "" then if current == "" then [] else [current]
    else if s[0] == '\r' && |s| > 1 && s[1] == '\n' then [current] + LinesFrom("", s[2..])
    else if s[0] == '\r' || s[0] == '\n' then [current] + LinesFrom("", s[1..])
    else LinesFrom(current + [s[0]], s[1..])
  }

  function SplitLines(s: string): seq<string> {
    LinesFrom("", s)
  }

  /** Splitting at every line break: what follows the last break is a piece, even when it is empty. */
  function PiecesFrom(current: string, s: string): seq<string>
    decreases |s|
  {
    if s == "" then [current]
    else if s[0] == '\r' && |s| > 1 && s[1] == '\n' then [current] + PiecesFrom("", s[2..])
    else if s[0] == '\r' || s[0] == '\n' then [current] + PiecesFrom("", s[1..])
    else PiecesFrom(current + [s[0]], s[1..])
  }

  function Pieces(s: string): seq<string> {
    PiecesFrom("", s)
  }

  /** The size of a character in UTF-8. */
  function Width(c: char): nat {
    if c as int < 0x80 then 1 else if c as int < 0x800 then 2 else if c as int < 0x10000 then 3 else 4
  }

  function Bytes(s: string): nat {
    if s == "" then 0 else Width(s[0]) + Bytes(s[1..])
  }

  lemma {:induction false} BytesConcat(a: string, b: string)
    ensures Bytes(a + b) == Bytes(a) + Bytes(b)
  {
    if a == "" {
      assert a + b == b;
    } else {
      assert (a + b)[1..] == a[1..] + b;
      BytesConcat(a[1..], b);
    }
  }

  /** `_check_output_limits` accepts the whole text. */
  predicate WithinLimits(text: string, maxBytes: nat, maxLines: nat) {
    Bytes(text) <= maxBytes && |SplitLines(text)| <= maxLines
  }

  // ----- the streaming counter -----

  datatype Counter = Counter(bytes: nat, breaks: nat, hasData: bool, endsWithBreak: bool, previousWasCr: bool)

  const ZERO := Counter(0, 0, false, false, false)

  function LineCount(c: Counter): nat {
    c.breaks + if c.hasData && !c.endsWithBreak then 1 else 0
  }

  /** One character in the loop of `write`. */
  function Step(c: Counter, x: char): Counter {
    if x == '\r' then c.(breaks := c.breaks + 1, hasData := true, endsWithBreak := true, previousWasCr := true)
    else if x == '\n' then
      c.(breaks := if c.previousWasCr then c.breaks else c.breaks + 1, hasData := true, endsWithBreak := true,
         previousWasCr := false)
    else c.(hasData := true, endsWithBreak := false, previousWasCr := false)
  }

  function Fed(c: Counter, s: string): Counter {
    if s == "" then c else Step(Fed(c, s[..|s| - 1]), s[|s| - 1])
  }

  lemma {:induction false} FedConcat(c: Counter, a: string, b: string)
    ensures Fed(c, a + b) == Fed(Fed(c, a), b)
  {
    if b == "" {
      assert a + b == a;
    } else {
      assert (a + b)[..|a + b| - 1] == a + b[..|b| - 1];
      FedConcat(c, a, b[..|b| - 1]);
    }
  }

  lemma FedFirst(c: Counter, s: string)
    requires s != ""
    ensures Fed(c, s) == Fed(Step(c, s[0]), s[1..])
  {
    assert s == [s[0]] + s[1..];
    FedConcat(c, [s[0]], s[1..]);
    assert Fed(c, [s[0]]) == Step(c, s[0]) by {
      assert [s[0]][..0] == "";
    }
  }

  /** From any point in the text the counter agrees with the lines that are still to come. */
  lemma {:induction false} CountFrom(c: Counter, current: string, s: string)
    requires current != "" <==> c.hasData && !c.endsWithBreak
    requires c.previousWasCr && s != "" ==> s[0] != '\n'
    ensures LineCount(Fed(c, s)) == c.breaks + |LinesFrom(current, s)|
    decreases |s|
  {
    if s != "" {
      FedFirst(c, s);
      if s[0] == '\r' && |s| > 1 && s[1] == '\n' {
        FedFirst(Step(c, s[0]), s[1..]);
        assert s[1..][1..] == s[2..];
        CountFrom(Step(Step(c, s[0]), s[1]), "", s[2..]);
      } else if s[0] == '\r' || s[0] == '\n' {
        CountFrom(Step(c, s[0]), "", s[1..]);
      } else {
        CountFrom(Step(c, s[0]), current + [s[0]], s[1..]);
      }
    }
  }

  /** The counter at the end of a text is the number of its lines. */
  lemma CounterCountsLines(s: string)
    ensures LineCount(Fed(ZERO, s)) == |SplitLines(s)|
  {
    CountFrom(ZERO, "", s);
  }

  predicate Regular(c: Counter) {
    c.previousWasCr ==> c.endsWithBreak
  }

  lemma StepGrows(c: Counter, x: char)
    requires Regular(c)
    ensures Regular(Step(c, x)) && LineCount(c) <= LineCount(Step(c, x))
  {
  }

  lemma {:induction false} CountGrows(c: Counter, s: string)
    requires Regular(c)
    ensures Regular(Fed(c, s)) && LineCount(c) <= LineCount(Fed(c, s))
  {
    if s != "" {
      CountGrows(c, s[..|s| - 1]);
      StepGrows(Fed(c, s[..|s| - 1]), s[|s| - 1]);
    }
  }

  /** `_BoundedSessionLog`. */
  class BoundedSessionLog {
    var active: bool
    var maxBytes: nat
    var maxLines: nat
    var bytes: nat
    var lineBreaks: nat
    var hasData: bool
    var endsWithBreak: bool
    var previousWasCr: bool

    function View(): Counter
      reads this
    {
      Counter(bytes, lineBreaks, hasData, endsWithBreak, previousWasCr)
    }

    /** Armed from the start, so that login output is bounded too. */
    constructor ()
      ensures active && maxBytes == MAX_OUTPUT_BYTES && maxLines == MAX_OUTPUT_LINES && View() == ZERO
    {
      active, maxBytes, maxLines := true, MAX_OUTPUT_BYTES, MAX_OUTPUT_LINES;
      bytes, lineBreaks, hasData, endsWithBreak, previousWasCr := 0, 0, false, false, false;
    }

    method BeginCommand(maxBytes: nat, maxLines: nat)
      modifies this
      ensures active && this.maxBytes == maxBytes && this.maxLines == maxLines && View() == ZERO
    {
      active := true;
      this.maxBytes, this.maxLines := maxBytes, maxLines;
      bytes, lineBreaks, hasData, endsWithBreak, previousWasCr := 0, 0, false, false, false;
    }

    method EndCommand()
      modifies this`active
      ensures !active
    {
      active := false;
    }

    /** `write`: false where the source raises. */
    method Write(data: string) returns (ok: bool)
      modifies this`bytes, this`lineBreaks, this`hasData, this`endsWithBreak, this`previousWasCr
      ensures !active || data == "" ==> ok && View() == old(View())
      ensures active && data != "" ==>
                && bytes == old(bytes) + Bytes(data)
                && (ok <==> bytes <= maxBytes && LineCount(Fed(old(View()), data)) <= maxLines)
                && (ok ==> View() == Fed(old(View()), data).(bytes := bytes))
    {
      if data == "" {
        return true;
      }
      if !active {
        return true;
      }
      bytes := bytes + Bytes(data);
      if bytes > maxBytes {
        return false;
      }
      ghost var start, size := old(View()), bytes;
      for i := 0 to |data|
        invariant bytes == size && View() == Fed(start, data[..i]).(bytes := size)
      {
        var character := data[i];
        assert data[..i + 1][..i] == data[..i];
        hasData := true;
        if character == '\r' {
          lineBreaks := lineBreaks + 1;
          endsWithBreak := true;
          previousWasCr := true;
        } else if character == '\n' {
          if !previousWasCr {
            lineBreaks := lineBreaks + 1;
          }
          endsWithBreak := true;
          previousWasCr := false;
        } else {
          endsWithBreak := false;
          previousWasCr := false;
        }
      }
      assert data[..|data|] == data;
      var lineCount := lineBreaks + if hasData && !endsWithBreak then 1 else 0;
      ok := lineCount <= maxLines;
    }
  }

  function Joined(chunks: seq<string>): string {
    if chunks == [] then "" else Joined(chunks[..|chunks| - 1]) + chunks[|chunks| - 1]
  }

  lemma {:induction false} FedKeepsBytes(c: Counter, s: string, bytes: nat)
    ensures Fed(c.(bytes := bytes), s) == Fed(c, s).(bytes := bytes)
  {
    if s != "" {
      FedKeepsBytes(c, s[..|s| - 1], bytes);
    }
  }

  lemma {:induction false} JoinedGrows(chunks: seq<string>, i: nat)
    requires i <= |chunks|
    ensures exists rest :: Joined(chunks) == Joined(chunks[..i]) + rest
  {
    if i == |chunks| {
      assert chunks[..i] == chunks;
      assert Joined(chunks) == Joined(chunks[..i]) + "";
    } else {
      var init := chunks[..|chunks| - 1];
      JoinedGrows(init, i);
      assert init[..i] == chunks[..i];
      var rest :| Joined(init) == Joined(init[..i]) + rest;
      assert Joined(chunks) == Joined(chunks[..i]) + (rest + chunks[|chunks| - 1]);
    }
  }

  /** A text within the limits has only prefixes within the limits. */
  lemma PrefixWithinLimits(a: string, b: string, maxBytes: nat, maxLines: nat)
    requires WithinLimits(a + b, maxBytes, maxLines)
    ensures WithinLimits(a, maxBytes, maxLines)
  {
    BytesConcat(a, b);
    CounterCountsLines(a);
    CounterCountsLines(a + b);
    FedConcat(ZERO, a, b);
    CountGrows(ZERO, a);
    CountGrows(Fed(ZERO, a), b);
  }

  /** Whatever the chunks, the stream is accepted exactly when the whole text is. */
  method Stream(log: BoundedSessionLog, chunks: seq<string>, maxBytes: nat, maxLines: nat) returns (ok: bool)
    modifies log
    ensures ok <==> WithinLimits(Joined(chunks), maxBytes, maxLines)
  {
    log.BeginCommand(maxBytes, maxLines);
    assert Fed(ZERO, "") == ZERO && Bytes("") == 0;
    for i := 0 to |chunks|
      invariant log.active && log.maxBytes == maxBytes && log.maxLines == maxLines
      invariant log.View() == Fed(ZERO, Joined(chunks[..i])).(bytes := Bytes(Joined(chunks[..i])))
      invariant WithinLimits(Joined(chunks[..i]), maxBytes, maxLines)
    {
      var before := Joined(chunks[..i]);
      assert chunks[..i + 1][..i] == chunks[..i];
      assert Joined(chunks[..i + 1]) == before + chunks[i];
      BytesConcat(before, chunks[i]);
      FedConcat(ZERO, before, chunks[i]);
      FedKeepsBytes(Fed(ZERO, before), chunks[i], Bytes(before));
      CounterCountsLines(before + chunks[i]);
      ok := log.Write(chunks[i]);
      if !ok {
        JoinedGrows(chunks, i + 1);
        var rest :| Joined(chunks) == Joined(chunks[..i + 1]) + rest;
        if WithinLimits(Joined(chunks), maxBytes, maxLines) {
          PrefixWithinLimits(Joined(chunks[..i + 1]), rest, maxBytes, maxLines);
        }
        return;
      }
      assert chunks[i] == "" ==> before + chunks[i] == before;
    }
    assert chunks[..|chunks|] == chunks;
    ok := true;
  }

  // ----- the closed form of the offline parser -----

  function CountOf(s: string, c: char): nat {
    if s == "" then 0 else (if s[0] == c then 1 else 0) + CountOf(s[1..], c)
  }

  /** Occurrences of CR LF; they cannot overlap. */
  function CountCrLf(s: string): nat {
    if |s| < 2 then 0 else (if s[0] == '\r' && s[1] == '\n' then 1 else 0) + CountCrLf(s[1..])
  }

  /** The closed form is the number of pieces between line breaks. */
  lemma {:induction false} ClosedFormCountsPieces(current: string, s: string)
    ensures |PiecesFrom(current, s)| == CountOf(s, '\n') + CountOf(s, '\r') - CountCrLf(s) + 1
    decreases |s|
  {
    if s != "" {
      if s[0] == '\r' && |s| > 1 && s[1] == '\n' {
        assert s[1..][0] == '\n' && s[1..][1..] == s[2..];
        ClosedFormCountsPieces("", s[2..]);
        assert CountCrLf(s[1..]) == CountCrLf(s[2..]);
      } else if s[0] == '\r' || s[0] == '\n' {
        ClosedFormCountsPieces("", s[1..]);
      } else {
        ClosedFormCountsPieces(current + [s[0]], s[1..]);
      }
    }
  }

  /** The limit of the offline parser, checked before it splits, is a limit on the lines that it then yields. */
  lemma OfflineLineLimit(text: string, maxLines: int)
    ensures CountOf(text, '\n') + CountOf(text, '\r') - CountCrLf(text) + 1 <= maxLines <==> |Pieces(text)| <= maxLines
  {
    ClosedFormCountsPieces("", text);
  }
}
