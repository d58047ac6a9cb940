/**
 The completion rules of an exported session table (`_parse_internal_block` in
 src/aruba_session_tracker/offline/parser.py:299-354).

 The loop of the source keeps a small state machine; `Accepted` says as a grammar which blocks it lets through.
 What one fixed-width row holds is decided by a parameter.
 */
module OfflineBlock {
  import opened Wrappers
  import opened Digits

  datatype BlockError =
    | DuplicateMarker | DataAfterCompletion | CountTooLarge | SessionLimit | BadRow | CountMismatch | NoCompletion

  /** A stripped line below the separator. */
  datatype Line = Blank | Count(digits: string) | Prompt | Dashes | Data(text: string)

  predicate WellFormed(lines: seq<Line>) {
    forall i :: 0 <= i < |lines| ==> lines[i].Count? ==> lines[i].digits != "" && AllDigits(lines[i].digits)
  }

  /** The variables of the loop. */
  datatype Progress<T> = Progress(rows: seq<T>, declared: Option<nat>, prompted: bool)

  function Step<T>(p: Progress<T>, line: Line, maximum: nat, parse: string -> Option<T>)
    : Result<Progress<T>, BlockError>
    requires line.Count? ==> AllDigits(line.digits)
  {
    if line.Blank? then Ok(p)
    else if p.declared.Some? then
      if line.Count? then Err(DuplicateMarker)
      else if !p.prompted && line.Prompt? then Ok(p.(prompted := true))
      else Err(DataAfterCompletion)
    else if p.prompted then Err(DataAfterCompletion)
    else
      match line
      case Count(digits) =>
        var n := BoundedCount(digits, maximum);
        if n.None? then Err(CountTooLarge) else Ok(p.(declared := n))
      case Prompt => Ok(p.(prompted := true))
      case Data(text) =>
        if |p.rows| >= maximum then Err(SessionLimit)
        else if parse(text).None? then Err(BadRow)
        else Ok(p.(rows := p.rows + [parse(text).value]))
      case _ => Ok(p)
  }

  function Walk<T>(lines: seq<Line>, maximum: nat, parse: string -> Option<T>): Result<Progress<T>, BlockError>
    requires WellFormed(lines)
  {
    if lines == [] then Ok(Progress([], None, false))
    else
      var p := Walk(lines[..|lines| - 1], maximum, parse);
      if p.Err? then p else Step(p.value, lines[|lines| - 1], maximum, parse)
  }

  function Verdict<T>(p: Progress<T>): Result<seq<T>, BlockError> {
    if p.declared.Some? && p.declared.value != |p.rows| then Err(CountMismatch)
    else if p.declared.None? && !p.prompted then Err(NoCompletion)
    else Ok(p.rows)
  }

  function Parsed<T>(lines: seq<Line>, maximum: nat, parse: string -> Option<T>): Result<seq<T>, BlockError>
    requires WellFormed(lines)
  {
    var p := Walk(lines, maximum, parse);
    if p.Err? then Err(p.error) else Verdict(p.value)
  }

  lemma {:induction false} WalkStops<T>(lines: seq<Line>, n: nat, maximum: nat, parse: string -> Option<T>)
    requires WellFormed(lines) && n <= |lines| && Walk(lines[..n], maximum, parse).Err?
    ensures Walk(lines, maximum, parse) == Walk(lines[..n], maximum, parse)
  {
    if n == |lines| {
      assert lines[..n] == lines;
    } else {
      assert lines[..|lines| - 1][..n] == lines[..n];
      WalkStops(lines[..|lines| - 1], n, maximum, parse);
    }
  }

  /** The loop of `_parse_internal_block`. */
  method ParseBlock<T>(lines: seq<Line>, maximum: nat, parse: string -> Option<T>)
    returns (r: Result<seq<T>, BlockError>)
    requires WellFormed(lines)
    ensures r == Parsed(lines, maximum, parse)
  {
    var rows: seq<T>, declared: Option<nat>, prompted := [], None, false;
    for i := 0 to |lines|
      invariant Walk(lines[..i], maximum, parse) == Ok(Progress(rows, declared, prompted))
    {
      assert lines[..i + 1][..i] == lines[..i];
      var line := lines[i];
      if line.Blank? {
        continue;
      }
      if Walk(lines[..i + 1], maximum, parse).Err? {
        WalkStops(lines, i + 1, maximum, parse);
      }
      if declared.Some? {
        if line.Count? {
          return Err(DuplicateMarker);
        }
        if !prompted && line.Prompt? {
          prompted := true;
          continue;
        }
        return Err(DataAfterCompletion);
      }
      if prompted {
        return Err(DataAfterCompletion);
      }
      match line {
        case Count(digits) =>
          declared := BoundedCount(digits, maximum);
          if declared.None? {
            return Err(CountTooLarge);
          }
        case Prompt => prompted := true;
        case Data(text) =>
          if |rows| >= maximum {
            return Err(SessionLimit);
          }
          if parse(text).None? {
            return Err(BadRow);
          }
          rows := rows + [parse(text).value];
        case _ =>
      }
    }
    assert lines[..|lines|] == lines;
    if declared.Some? && declared.value != |rows| {
      return Err(CountMismatch);
    }
    if declared.None? && !prompted {
      return Err(NoCompletion);
    }
    r := Ok(rows);
  }

  // ----- which blocks are accepted -----

  function NonBlank(lines: seq<Line>): seq<Line> {
    if lines == [] then []
    else NonBlank(lines[..|lines| - 1]) + if lines[|lines| - 1].Blank? then [] else [lines[|lines| - 1]]
  }

  /** Rows, perhaps between lines of dashes. */
  predicate Body<T(!new)>(lines: seq<Line>, parse: string -> Option<T>) {
    forall i :: 0 <= i < |lines| ==> lines[i].Dashes? || (lines[i].Data? && parse(lines[i].text).Some?)
  }

  function RowsOf<T>(lines: seq<Line>, parse: string -> Option<T>): seq<T> {
    if lines == [] then []
    else
      var last := lines[|lines| - 1];
      RowsOf(lines[..|lines| - 1], parse)
      + if last.Data? && parse(last.text).Some? then [parse(last.text).value] else []
  }

  /** What follows the body so far: nothing, a prompt, a count, or a count and then a prompt. */
  predicate Follows(tail: seq<Line>, declared: Option<nat>, prompted: bool) {
    if declared.None? then tail == if prompted then [Prompt] else []
    else
      && |tail| == (if prompted then 2 else 1) && (prompted ==> tail[1].Prompt?)
      && tail[0].Count? && AllDigits(tail[0].digits) && Value(tail[0].digits) == declared.value
  }

  /** The state that the loop reaches at the end of these lines. */
  ghost predicate Reaches<T(!new)>(lines: seq<Line>, body: seq<Line>, tail: seq<Line>, p: Progress<T>, maximum: nat,
                             parse: string -> Option<T>)
  {
    && NonBlank(lines) == body + tail && Body(body, parse) && p.rows == RowsOf(body, parse)
    && Follows(tail, p.declared, p.prompted)
    && |p.rows| <= maximum && (p.declared.Some? ==> p.declared.value <= maximum)
  }

  lemma RowsSnoc<T(!new)>(body: seq<Line>, line: Line, parse: string -> Option<T>)
    requires Body(body, parse)
    ensures RowsOf(body + [line], parse)
            == RowsOf(body, parse) + if line.Data? && parse(line.text).Some? then [parse(line.text).value] else []
    ensures Body(body + [line], parse) <==> line.Dashes? || (line.Data? && parse(line.text).Some?)
  {
    var more := body + [line];
    assert more[..|body|] == body && more[|body|] == line;
    assert forall i :: 0 <= i < |body| ==> more[i] == body[i];
  }

  lemma CountBound(line: Line, maximum: nat)
    requires line.Count? && AllDigits(line.digits)
    ensures BoundedCount(line.digits, maximum)
            == if Value(line.digits) <= maximum then Some(Value(line.digits)) else None
  {
    BoundedCountIff(line.digits, maximum);
  }

  lemma {:induction false} WalkSound<T(!new)>(lines: seq<Line>, maximum: nat, parse: string -> Option<T>)
    returns (body: seq<Line>, tail: seq<Line>)
    requires WellFormed(lines) && Walk(lines, maximum, parse).Ok?
    ensures Reaches(lines, body, tail, Walk(lines, maximum, parse).value, maximum, parse)
  {
    body, tail := [], [];
    if lines != [] {
      var line := lines[|lines| - 1];
      var p := Walk(lines[..|lines| - 1], maximum, parse).value;
      body, tail := WalkSound(lines[..|lines| - 1], maximum, parse);
      if line.Blank? {
      } else if line.Count? || line.Prompt? {
        if line.Count? {
          CountBound(line, maximum);
        }
        assert (body + tail) + [line] == body + (tail + [line]);
        tail := tail + [line];
      } else {
        RowsSnoc(body, line, parse);
        assert tail == [];
        assert (body + tail) + [line] == body + [line];
        body := body + [line];
      }
    }
  }

  lemma LastOf(init: seq<Line>, line: Line, body: seq<Line>, tail: seq<Line>)
    requires init + [line] == body + tail && tail != []
    ensures init == body + tail[..|tail| - 1] && line == tail[|tail| - 1] && tail == tail[..|tail| - 1] + [line]
  {
    var all := body + tail;
    assert all[|all| - 1] == tail[|tail| - 1] && all[..|all| - 1] == body + tail[..|tail| - 1];
    assert (init + [line])[|init|] == line && (init + [line])[..|init|] == init;
  }

  lemma {:induction false} WalkComplete<T(!new)>(lines: seq<Line>, body: seq<Line>, tail: seq<Line>, p: Progress<T>,
                                                 maximum: nat, parse: string -> Option<T>)
    requires WellFormed(lines) && Reaches(lines, body, tail, p, maximum, parse)
    ensures Walk(lines, maximum, parse) == Ok(p)
  {
    if lines != [] {
      var init, line := lines[..|lines| - 1], lines[|lines| - 1];
      if line.Blank? {
        WalkComplete(init, body, tail, p, maximum, parse);
      } else if tail != [] {
        LastOf(NonBlank(init), line, body, tail);
        var before := if p.declared.Some? && p.prompted then p.(prompted := false) else Progress(p.rows, None, false);
        WalkComplete(init, body, tail[..|tail| - 1], before, maximum, parse);
        if line.Count? {
          CountBound(line, maximum);
        }
      } else {
        assert body + [] == body && [] + body == body;
        LastOf(NonBlank(init), line, [], body);
        var less := body[..|body| - 1];
        assert less + [] == less && [] + less == less;
        BodyStep(less, line, p, maximum, parse);
        WalkComplete(init, less, [], Progress(RowsOf(less, parse), None, false), maximum, parse);
      }
    }
  }

  lemma BodyStep<T(!new)>(less: seq<Line>, line: Line, p: Progress<T>, maximum: nat, parse: string -> Option<T>)
    requires Body(less + [line], parse) && p == Progress(RowsOf(less + [line], parse), None, false)
    requires |p.rows| <= maximum
    ensures Body(less, parse) && |RowsOf(less, parse)| <= maximum
    ensures !line.Count? && Step(Progress(RowsOf(less, parse), None, false), line, maximum, parse) == Ok(p)
  {
    assert forall i :: 0 <= i < |less| ==> (less + [line])[i] == less[i];
    assert Body(less, parse) && (less + [line])[|less|] == line;
    RowsSnoc(less, line, parse);
    if line.Data? {
      assert p.rows == RowsOf(less, parse) + [parse(line.text).value];
    } else {
      assert p.rows == RowsOf(less, parse);
    }
  }

  /** How an accepted block ends. */
  predicate Ends(tail: seq<Line>, n: nat) {
    tail == [Prompt]
    || (1 <= |tail| <= 2 && tail[0].Count? && AllDigits(tail[0].digits) && Value(tail[0].digits) == n
        && (|tail| == 2 ==> tail[1].Prompt?))
  }

  /** Blank lines aside, readable rows and lines of dashes, and then a prompt, or the true count and perhaps a
      prompt. */
  ghost predicate Accepted<T(!new)>(lines: seq<Line>, rows: seq<T>, maximum: nat, parse: string -> Option<T>) {
    && |rows| <= maximum
    && exists body, tail :: NonBlank(lines) == body + tail && Body(body, parse) && RowsOf(body, parse) == rows
                            && Ends(tail, |rows|)
  }

  /** The loop accepts exactly the blocks of this form, and it returns their rows. */
  lemma AcceptedIff<T(!new)>(lines: seq<Line>, rows: seq<T>, maximum: nat, parse: string -> Option<T>)
    requires WellFormed(lines)
    ensures Parsed(lines, maximum, parse) == Ok(rows) <==> Accepted(lines, rows, maximum, parse)
  {
    if Parsed(lines, maximum, parse) == Ok(rows) {
      var body, tail := WalkSound(lines, maximum, parse);
      assert NonBlank(lines) == body + tail && Ends(tail, |rows|);
    }
    if Accepted(lines, rows, maximum, parse) {
      var body, tail :| NonBlank(lines) == body + tail && Body(body, parse) && RowsOf(body, parse) == rows
                        && Ends(tail, |rows|);
      var p := if tail == [Prompt] then Progress(rows, None, true) else Progress(rows, Some(|rows|), |tail| == 2);
      WalkComplete(lines, body, tail, p, maximum, parse);
    }
  }

  // ----- truncation -----

  lemma {:induction false} NonBlankConcat(a: seq<Line>, b: seq<Line>)
    ensures NonBlank(a + b) == NonBlank(a) + NonBlank(b)
  {
    if b == [] {
      assert a + b == a;
    } else {
      assert (a + b)[..|a + b| - 1] == a + b[..|b| - 1];
      NonBlankConcat(a, b[..|b| - 1]);
    }
  }

  lemma {:induction false} RowsConcat<T>(a: seq<Line>, b: seq<Line>, parse: string -> Option<T>)
    ensures RowsOf(a + b, parse) == RowsOf(a, parse) + RowsOf(b, parse)
  {
    if b == [] {
      assert a + b == a;
    } else {
      assert (a + b)[..|a + b| - 1] == a + b[..|b| - 1];
      RowsConcat(a, b[..|b| - 1], parse);
    }
  }

  /** Deleting any row of an accepted block that declares its count is noticed. */
  lemma DeletionRejected<T(!new)>(lines: seq<Line>, i: nat, k: nat, maximum: nat, parse: string -> Option<T>)
    requires WellFormed(lines) && Parsed(lines, maximum, parse).Ok?
    requires i < |lines| && lines[i].Data? && k < |lines| && lines[k].Count?
    ensures WellFormed(lines[..i] + lines[i + 1..])
    ensures Parsed(lines[..i] + lines[i + 1..], maximum, parse) == Err(CountMismatch)
  {
    var before, after, line := NonBlank(lines[..i]), NonBlank(lines[i + 1..]), lines[i];
    var body, tail := WalkSound(lines, maximum, parse);
    var p := Walk(lines, maximum, parse).value;
    CountedTail(lines, k, body, tail, p, maximum, parse);
    DeletedLines(lines, i);
    assert (before + [line] + after)[|before|] == line;
    DeletedRow(before, line, after, body, tail, parse);
    var rest := body[..|before|] + body[|before| + 1..];
    WalkComplete(lines[..i] + lines[i + 1..], rest, tail, p.(rows := RowsOf(rest, parse)), maximum, parse);
  }

  lemma NonBlankSnoc(lines: seq<Line>, line: Line)
    ensures NonBlank(lines + [line]) == NonBlank(lines) + if line.Blank? then [] else [line]
  {
    assert (lines + [line])[..|lines|] == lines;
  }

  lemma SplitAt(lines: seq<Line>, i: nat)
    requires i < |lines|
    ensures lines == (lines[..i] + [lines[i]]) + lines[i + 1..]
  {
  }

  lemma DeletedLines(lines: seq<Line>, i: nat)
    requires i < |lines| && !lines[i].Blank?
    ensures NonBlank(lines) == NonBlank(lines[..i]) + [lines[i]] + NonBlank(lines[i + 1..])
    ensures NonBlank(lines[..i] + lines[i + 1..]) == NonBlank(lines[..i]) + NonBlank(lines[i + 1..])
  {
    var init, rest := lines[..i], lines[i + 1..];
    SplitAt(lines, i);
    NonBlankSnoc(init, lines[i]);
    NonBlankConcat(init + [lines[i]], rest);
    NonBlankConcat(init, rest);
  }

  /** The row that is deleted belongs to the body, which then holds one row less. */
  lemma DeletedRow<T(!new)>(before: seq<Line>, line: Line, after: seq<Line>, body: seq<Line>, tail: seq<Line>,
                            parse: string -> Option<T>)
    requires before + [line] + after == body + tail && Body(body, parse) && line.Data?
    requires forall j :: 0 <= j < |tail| ==> !tail[j].Data?
    ensures |before| < |body|
    ensures var rest := body[..|before|] + body[|before| + 1..];
            && before + after == rest + tail && Body(rest, parse)
            && |RowsOf(rest, parse)| == |RowsOf(body, parse)| - 1
  {
    var n := |before|;
    assert (before + [line] + after)[n] == line == (body + tail)[n];
    forall j | |body| <= j < |body + tail| ensures !(body + tail)[j].Data? {
      assert (body + tail)[j] == tail[j - |body|];
    }
    CutBoth(before, line, after, body, tail);
    assert body == (body[..n] + [line]) + body[n + 1..];
    RowsConcat(body[..n] + [line], body[n + 1..], parse);
    assert (body[..n] + [line])[..n] == body[..n];
    RowsConcat(body[..n], body[n + 1..], parse);
  }

  lemma CutBoth(before: seq<Line>, line: Line, after: seq<Line>, body: seq<Line>, tail: seq<Line>)
    requires before + [line] + after == body + tail && |before| < |body|
    ensures before + after == (body[..|before|] + body[|before| + 1..]) + tail
    ensures body[|before|] == line
  {
    var all, n := before + [line] + after, |before|;
    assert all[..n] == before && all[n + 1..] == after && all[n] == line;
    assert (body + tail)[..n] == body[..n] && (body + tail)[n + 1..] == body[n + 1..] + tail;
  }

  lemma {:induction false} NonBlankHas(lines: seq<Line>, k: nat)
    requires k < |lines| && !lines[k].Blank?
    ensures lines[k] in NonBlank(lines)
  {
    if k < |lines| - 1 {
      NonBlankHas(lines[..|lines| - 1], k);
    }
  }

  lemma CountedTail<T(!new)>(lines: seq<Line>, k: nat, body: seq<Line>, tail: seq<Line>, p: Progress<T>, maximum: nat,
                             parse: string -> Option<T>)
    requires Reaches(lines, body, tail, p, maximum, parse) && k < |lines| && lines[k].Count?
    ensures p.declared.Some?
  {
    NonBlankHas(lines, k);
    var j :| 0 <= j < |body + tail| && (body + tail)[j] == lines[k];
    assert j >= |body| && tail[j - |body|] == lines[k];
  }
}
