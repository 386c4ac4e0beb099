/**
 * The Streamlit assistant's reconstruction of which tools the agent ran, from
 * the text the agent printed while it worked (its captured stdout).
 *
 * The text is cut into lines. A line that contains both "Tool #" and ':' is a
 * header: it opens a fresh entry `{output: "", error: ""}` under the name found
 * between its first and second ':' (whitespace stripped). Every other line is
 * appended, with a trailing newline, to the output of the tool named by the
 * latest header, unless there is none yet or that name is empty.
 */
module ToolTrace {
  import opened Options
  import opened PyStr

  /** One entry of a turn's tool record: `{"output": ..., "error": ...}`. */
  datatype ToolInfo = ToolInfo(output: string, error: string)

  /** A turn's tool record, keyed by tool name. */
  type ToolRecord = map<string, ToolInfo>

  const TOOL_MARKER: string := "Tool #"

  const EMPTY_INFO: ToolInfo := ToolInfo("", "")

  /** The tool a header line opens, or None when the line is not a header. */
  function HeaderName(line: string): (name: Option<string>)
    ensures name.Some? <==> Contains(line, TOOL_MARKER) && ':' in line
  {
    if Contains(line, TOOL_MARKER) && ':' in line then
      Some(Strip(Split(line, ':')[1]))
    else
      None
  }

  /** A header's tool name is the stripped text between its first and second ':'. */
  lemma HeaderNameBetweenColons(line: string, i: nat, j: nat)
    requires Contains(line, TOOL_MARKER)
    requires i < j <= |line| && line[i] == ':' && ':' !in line[..i]
    requires ':' !in line[i + 1..j] && (j == |line| || line[j] == ':')
    ensures HeaderName(line) == Some(Strip(line[i + 1..j]))
  {
    SecondPieceBetweenSeparators(line, ':', i, j);
  }

  predicate NoHeader(lines: seq<string>) {
    forall i :: 0 <= i < |lines| ==> HeaderName(lines[i]).None?
  }

  /** What the lines contribute to a tool's output: each line followed by a newline. */
  function Joined(lines: seq<string>): string {
    if lines == [] then "" else lines[0] + "\n" + Joined(lines[1..])
  }

  // ------------------------------------------------------------ the fold

  /** The parser's variables: `current_tool` and `tool_call_info`. */
  datatype ParseState = ParseState(current: Option<string>, record: ToolRecord)

  /** The current tool, when there is one, always has an entry. */
  predicate Tracks(st: ParseState) {
    st.current.Some? ==> st.current.value in st.record
  }

  const START: ParseState := ParseState(None, map[])

  /** One iteration of the parsing loop over one line. */
  function Step(st: ParseState, line: string): (r: ParseState)
    requires Tracks(st)
    ensures Tracks(r)
  {
    match HeaderName(line)
    case Some(name) => ParseState(Some(name), st.record[name := EMPTY_INFO])
    case None =>
      if st.current.Some? && st.current.value != "" then
        var tool := st.current.value;
        var info := st.record[tool];
        ParseState(st.current, st.record[tool := ToolInfo(info.output + line + "\n", info.error)])
      else
        st
  }

  /** The parsing loop run over `lines` from state `st`. */
  function Run(st: ParseState, lines: seq<string>): (r: ParseState)
    requires Tracks(st)
    ensures Tracks(r)
    decreases lines
  {
    if lines == [] then st else Run(Step(st, lines[0]), lines[1..])
  }

  /** The record the loop builds from nothing over `lines`. */
  function ParseLines(lines: seq<string>): ToolRecord {
    Run(START, lines).record
  }

  /** The record for a non-empty captured stdout: the loop runs only when "Tool #" occurs. */
  function TraceRecord(toolOutput: string): ToolRecord {
    if Contains(toolOutput, TOOL_MARKER) then ParseLines(Split(toolOutput, '\n')) else map[]
  }

  /** The parser as the Streamlit page runs it: one pass over the lines, updating in place. */
  method ParseToolOutput(toolOutput: string) returns (record: ToolRecord)
    ensures record == TraceRecord(toolOutput)
  {
    record := map[];
    if Contains(toolOutput, TOOL_MARKER) {
      var lines := Split(toolOutput, '\n');
      var current: Option<string> := None;
      var i := 0;
      while i < |lines|
        invariant i <= |lines|
        invariant Tracks(ParseState(current, record))
        invariant Run(ParseState(current, record), lines[i..]) == Run(START, lines)
      {
        var line := lines[i];
        if Contains(line, TOOL_MARKER) && ':' in line {
          var name := HeaderName(line).value;
          current := Some(name);
          record := record[name := EMPTY_INFO];
        } else if current.Some? && current.value != "" {
          var tool := current.value;
          record := record[tool := ToolInfo(record[tool].output + line + "\n", record[tool].error)];
        }
        i := i + 1;
      }
    }
  }

  // ------------------------------------------------------------ properties

  lemma {:induction false} RunAppend(st: ParseState, a: seq<string>, b: seq<string>)
    requires Tracks(st)
    ensures Run(st, a + b) == Run(Run(st, a), b)
    decreases a
  {
    if a == [] {
      assert a + b == b;
    } else {
      assert (a + b)[0] == a[0] && (a + b)[1..] == a[1..] + b;
      RunAppend(Step(st, a[0]), a[1..], b);
    }
  }

  lemma {:induction false} RunKeys(st: ParseState, lines: seq<string>, k: string)
    requires Tracks(st)
    ensures k in Run(st, lines).record <==>
            k in st.record || exists i :: 0 <= i < |lines| && HeaderName(lines[i]) == Some(k)
    decreases lines
  {
    if lines != [] {
      RunKeys(Step(st, lines[0]), lines[1..], k);
      if exists i :: 0 <= i < |lines| && HeaderName(lines[i]) == Some(k) {
        var i :| 0 <= i < |lines| && HeaderName(lines[i]) == Some(k);
        if i > 0 { assert HeaderName(lines[1..][i - 1]) == Some(k); }
      }
      if exists i :: 0 <= i < |lines[1..]| && HeaderName(lines[1..][i]) == Some(k) {
        var i :| 0 <= i < |lines[1..]| && HeaderName(lines[1..][i]) == Some(k);
        assert HeaderName(lines[i + 1]) == Some(k);
      }
    }
  }

  /** The record's keys are exactly the names of the header lines. */
  lemma RecordKeys(lines: seq<string>, k: string)
    ensures k in ParseLines(lines) <==> exists i :: 0 <= i < |lines| && HeaderName(lines[i]) == Some(k)
  {
    RunKeys(START, lines, k);
  }

  predicate NoErrors(record: ToolRecord) {
    forall k :: k in record ==> record[k].error == ""
  }

  lemma {:induction false} RunKeepsNoErrors(st: ParseState, lines: seq<string>)
    requires Tracks(st) && NoErrors(st.record)
    ensures NoErrors(Run(st, lines).record)
    decreases lines
  {
    if lines != [] {
      RunKeepsNoErrors(Step(st, lines[0]), lines[1..]);
    }
  }

  /** The parser never fills an error field. */
  lemma ErrorsAlwaysEmpty(toolOutput: string)
    ensures NoErrors(TraceRecord(toolOutput))
  {
    RunKeepsNoErrors(START, Split(toolOutput, '\n'));
  }

  lemma {:induction false} RunKeepsEmptyNameEmpty(st: ParseState, lines: seq<string>)
    requires Tracks(st) && ("" in st.record ==> st.record[""].output == "")
    ensures "" in Run(st, lines).record ==> Run(st, lines).record[""].output == ""
    decreases lines
  {
    if lines != [] {
      RunKeepsEmptyNameEmpty(Step(st, lines[0]), lines[1..]);
    }
  }

  /** Lines after a header whose name strips to "" are dropped: that entry stays empty. */
  lemma EmptyNameCollectsNothing(lines: seq<string>)
    ensures "" in ParseLines(lines) ==> ParseLines(lines)[""] == EMPTY_INFO
  {
    RunKeepsEmptyNameEmpty(START, lines);
    RunKeepsNoErrors(START, lines);
  }

  lemma {:induction false} RunWithoutHeaderFromStart(lines: seq<string>)
    requires NoHeader(lines)
    ensures Run(START, lines) == START
  {
    if lines != [] {
      assert NoHeader(lines[1..]) by {
        forall i | 0 <= i < |lines[1..]| ensures HeaderName(lines[1..][i]).None? {
          assert lines[1..][i] == lines[i + 1];
        }
      }
      RunWithoutHeaderFromStart(lines[1..]);
    }
  }

  /** Lines before the first header belong to no tool and are dropped. */
  lemma LinesBeforeFirstHeaderDropped(pre: seq<string>, rest: seq<string>)
    requires NoHeader(pre)
    ensures ParseLines(pre + rest) == ParseLines(rest)
  {
    RunWithoutHeaderFromStart(pre);
    RunAppend(START, pre, rest);
  }

  /** Entries the loop is not pointing at are carried along untouched. */
  lemma {:induction false} RunOverrides(c: string, a: ToolRecord, b: ToolRecord, lines: seq<string>)
    requires c in b
    ensures Run(ParseState(Some(c), a + b), lines).record == a + Run(ParseState(Some(c), b), lines).record
    ensures Run(ParseState(Some(c), a + b), lines).current == Run(ParseState(Some(c), b), lines).current
    decreases lines
  {
    if lines != [] {
      var line := lines[0];
      var s1 := Step(ParseState(Some(c), a + b), line);
      var s2 := Step(ParseState(Some(c), b), line);
      match HeaderName(line)
      case Some(name) =>
        assert s1.record == a + s2.record;
        RunOverrides(name, a, s2.record, lines[1..]);
      case None =>
        if c != "" {
          assert s1.record == a + s2.record;
          RunOverrides(c, a, s2.record, lines[1..]);
        } else {
          RunOverrides(c, a, b, lines[1..]);
        }
    }
  }

  /**
   * A header makes the parse start afresh for its tool: whatever the earlier
   * lines produced survives only for other tools, and the earlier output of a
   * tool whose header repeats is discarded.
   */
  lemma HeaderRestartsParse(pre: seq<string>, h: string, rest: seq<string>)
    requires HeaderName(h).Some?
    ensures ParseLines(pre + [h] + rest) == ParseLines(pre) + ParseLines([h] + rest)
  {
    var name := HeaderName(h).value;
    var r := Run(START, pre).record;
    RunAppend(START, pre, [h] + rest);
    assert pre + [h] + rest == pre + ([h] + rest);
    assert ([h] + rest)[1..] == rest;
    assert r[name := EMPTY_INFO] == r + map[name := EMPTY_INFO];
    RunOverrides(name, r, map[name := EMPTY_INFO], rest);
  }

  lemma {:induction false} RunSegment(k: string, r: ToolRecord, seg: seq<string>)
    requires k in r && k != "" && NoHeader(seg)
    ensures Run(ParseState(Some(k), r), seg)
         == ParseState(Some(k), r[k := ToolInfo(r[k].output + Joined(seg), r[k].error)])
  {
    if seg == [] {
      assert r[k].output + Joined(seg) == r[k].output;
      assert ToolInfo(r[k].output, r[k].error) == r[k];
    } else {
      var r1 := r[k := ToolInfo(r[k].output + seg[0] + "\n", r[k].error)];
      assert HeaderName(seg[0]).None?;
      assert Step(ParseState(Some(k), r), seg[0]) == ParseState(Some(k), r1);
      assert NoHeader(seg[1..]) by {
        forall i | 0 <= i < |seg[1..]| ensures HeaderName(seg[1..][i]).None? {
          assert seg[1..][i] == seg[i + 1];
        }
      }
      RunSegment(k, r1, seg[1..]);
      assert r1[k].output + Joined(seg[1..]) == r[k].output + Joined(seg);
    }
  }

  /**
   * A tool's output is the non-header lines that follow its last header, up
   * to the next header, each with a trailing newline; its error is empty.
   */
  lemma OutputOfLastHeader(pre: seq<string>, h: string, seg: seq<string>, post: seq<string>, k: string)
    requires HeaderName(h) == Some(k) && k != ""
    requires NoHeader(seg)
    requires post == [] || HeaderName(post[0]).Some?
    requires forall i :: 0 <= i < |post| ==> HeaderName(post[i]) != Some(k)
    ensures k in ParseLines(pre + [h] + seg + post)
    ensures ParseLines(pre + [h] + seg + post)[k] == ToolInfo(Joined(seg), "")
  {
    var tail := seg + post;
    assert pre + [h] + seg + post == pre + [h] + tail;
    HeaderRestartsParse(pre, h, tail);
    var one := map[k := EMPTY_INFO];
    assert one[k].output + Joined(seg) == Joined(seg);
    assert ([h] + tail)[1..] == tail;
    assert Run(START, [h] + tail) == Run(ParseState(Some(k), one), tail);
    RunAppend(ParseState(Some(k), one), seg, post);
    RunSegment(k, one, seg);
    var x := ToolInfo(Joined(seg), "");
    assert one[k := ToolInfo(one[k].output + Joined(seg), one[k].error)] == map[k := x];
    OtherHeadersKeepEntry(k, x, post);
  }

  /** Headers of other tools that follow leave an entry as it is. */
  lemma OtherHeadersKeepEntry(k: string, x: ToolInfo, post: seq<string>)
    requires post == [] || HeaderName(post[0]).Some?
    requires forall i :: 0 <= i < |post| ==> HeaderName(post[i]) != Some(k)
    ensures k in Run(ParseState(Some(k), map[k := x]), post).record
    ensures Run(ParseState(Some(k), map[k := x]), post).record[k] == x
  {
    if post != [] {
      var n := HeaderName(post[0]).value;
      AfterOtherHeader(k, x, post);
      NeverNamedAfter(k, n, post);
    }
  }

  /** Past a header of another tool, the entry is carried along beside what follows. */
  lemma AfterOtherHeader(k: string, x: ToolInfo, post: seq<string>)
    requires post != [] && HeaderName(post[0]).Some? && HeaderName(post[0]) != Some(k)
    ensures Run(ParseState(Some(k), map[k := x]), post).record ==
            map[k := x] + Run(ParseState(HeaderName(post[0]), map[HeaderName(post[0]).value := EMPTY_INFO]), post[1..]).record
  {
    var n := HeaderName(post[0]).value;
    RunFromHeader(ParseState(Some(k), map[k := x]), post);
    assert map[k := x][n := EMPTY_INFO] == map[k := x] + map[n := EMPTY_INFO];
    RunOverrides(n, map[k := x], map[n := EMPTY_INFO], post[1..]);
  }

  /** A header line resets the current tool and opens its entry afresh. */
  lemma RunFromHeader(st: ParseState, lines: seq<string>)
    requires Tracks(st) && lines != [] && HeaderName(lines[0]).Some?
    ensures Run(st, lines) ==
            Run(ParseState(HeaderName(lines[0]), st.record[HeaderName(lines[0]).value := EMPTY_INFO]), lines[1..])
  {
  }

  /** A name no header carries never becomes a key. */
  lemma NeverNamedAfter(k: string, n: string, post: seq<string>)
    requires post != [] && HeaderName(post[0]) == Some(n)
    requires forall i :: 0 <= i < |post| ==> HeaderName(post[i]) != Some(k)
    ensures k !in Run(ParseState(Some(n), map[n := EMPTY_INFO]), post[1..]).record
  {
    var rest := post[1..];
    forall i | 0 <= i < |rest| ensures HeaderName(rest[i]) != Some(k) {
      assert rest[i] == post[i + 1];
    }
    RunKeys(ParseState(Some(n), map[n := EMPTY_INFO]), rest, k);
  }

  /** The `"Tool #" in tool_output` guard changes nothing: without the marker no line is a header. */
  lemma MarkerGuardRedundant(toolOutput: string)
    ensures TraceRecord(toolOutput) == ParseLines(Split(toolOutput, '\n'))
  {
    if !Contains(toolOutput, TOOL_MARKER) {
      var lines := Split(toolOutput, '\n');
      forall i | 0 <= i < |lines| ensures HeaderName(lines[i]).None? {
        if Contains(lines[i], TOOL_MARKER) {
          SplitPieceIsInfix(toolOutput, '\n', i);
          var a, c :| toolOutput == a + lines[i] + c;
          ContainsInInfix(a, lines[i], c, TOOL_MARKER);
        }
      }
      LinesBeforeFirstHeaderDropped(lines, []);
      assert lines + [] == lines;
    }
  }
}
