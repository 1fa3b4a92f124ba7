/** `parseTextResponse` of the task prioritizer server (taskprioritizer/server.js): the
    language model's free-text reply becomes a list of subtask records. */
module TaskParser {
  import opened Basics
  import opened JsText

  /** A subtask record. A field the parser never set is `None` (JavaScript `undefined`);
      `mainTask` is the `task` of the request, which may itself be missing. */
  datatype Subtask = Subtask(
    description: string,
    estimatedTime: Option<string>,
    importance: Option<string>,
    urgency: Option<string>,
    mainTask: Option<string>)

  /** The `content` of the model's reply: a string, or any other JSON value (null, ...). */
  datatype Content = Text(text: string) | NotText

  /** The filter at the end of the parser: the four key fields are all truthy. */
  predicate Complete(t: Subtask)
  {
    t.description != "" && Truthy(t.estimatedTime) && Truthy(t.importance) && Truthy(t.urgency)
  }

  /** A line that opens a new subtask: its trimmed form starts with a dash. */
  predicate IsDashLine(rawLine: string)
  {
    StartsWith(Trim(rawLine), "-")
  }

  /** The parser's two variables: the subtasks closed so far and the one being filled. */
  datatype ParseState = ParseState(subtasks: seq<Subtask>, current: Option<Subtask>)

  const Initial := ParseState([], None)

  /** The subtasks of a state once the one being filled is closed as well. */
  function Closed(st: ParseState): seq<Subtask>
  {
    st.subtasks + (if st.current.Some? then [st.current.value] else [])
  }

  /** A lower-cased tag with a colon in it can only be found in a line that has a colon. */
  lemma LabelHasColon(line: string, tag: string)
    requires ':' in tag && Includes(ToLower(line), tag)
    ensures ':' in line
  {
    IncludesChar(ToLower(line), tag, ':');
    var i :| 0 <= i < |line| && ToLower(line)[i] == ':';
    assert line[i] == ':';
  }

  /** `line.split(':')[1]`: the text between the first and the second colon. */
  function LabelValue(line: string): string
    requires ':' in line
  {
    var parts := Split(line, ':');
    SplitPieces(line, ':');
    assert |parts| >= 2;
    parts[1]
  }

  /** What one line of the reply says, judged as the parser judges it: the trimmed line
      starts with a dash, or its lower-cased form contains one of the three labels (tested
      in this order), or it is anything else. A label's value is the text between the
      line's first and second colon, trimmed, and lower-cased for importance and urgency. */
  datatype LineKind =
    | DashLine(description: string)
    | TimeLine(time: string)
    | ImportanceLine(importance: string)
    | UrgencyLine(urgency: string)
    | OtherLine

  function Classify(rawLine: string): LineKind
  {
    var line := Trim(rawLine);
    if StartsWith(line, "-") then DashLine(Trim(line[1..]))
    else
      var lowerLine := ToLower(line);
      if Includes(lowerLine, "estimated time:") then
        LabelHasColon(line, "estimated time:");
        TimeLine(Trim(LabelValue(line)))
      else if Includes(lowerLine, "importance:") then
        LabelHasColon(line, "importance:");
        ImportanceLine(ToLower(Trim(LabelValue(line))))
      else if Includes(lowerLine, "urgency:") then
        LabelHasColon(line, "urgency:");
        UrgencyLine(ToLower(Trim(LabelValue(line))))
      else OtherLine
  }

  /** The kinds of the lines, in order. */
  function Kinds(lines: seq<string>): (ks: seq<LineKind>)
    ensures |ks| == |lines|
  {
    if lines == [] then [] else [Classify(lines[0])] + Kinds(lines[1..])
  }

  lemma {:induction false} KindsAt(lines: seq<string>)
    ensures forall i :: 0 <= i < |lines| ==> Kinds(lines)[i] == Classify(lines[i])
  {
    if lines != [] {
      KindsAt(lines[1..]);
    }
  }

  lemma KindAt(lines: seq<string>, i: nat)
    requires i < |lines|
    ensures Kinds(lines)[i] == Classify(lines[i])
  {
    KindsAt(lines);
  }

  /** The body of the `forEach` over the lines of the reply: a dash line closes the open
      subtask and opens a new one; a labelled line sets its field on the open subtask, if
      there is one; any other line changes nothing. */
  function Step(st: ParseState, kind: LineKind, mainTask: Option<string>): ParseState
  {
    match kind
    case DashLine(d) => ParseState(Closed(st), Some(Subtask(d, None, None, None, mainTask)))
    case TimeLine(v) =>
      if st.current.None? then st
      else ParseState(st.subtasks, Some(st.current.value.(estimatedTime := Some(v))))
    case ImportanceLine(v) =>
      if st.current.None? then st
      else ParseState(st.subtasks, Some(st.current.value.(importance := Some(v))))
    case UrgencyLine(v) =>
      if st.current.None? then st
      else ParseState(st.subtasks, Some(st.current.value.(urgency := Some(v))))
    case OtherLine => st
  }

  /** The state after the lines of the given kinds, taken in order. */
  function Run(st: ParseState, ks: seq<LineKind>, mainTask: Option<string>): ParseState
    decreases ks
  {
    if ks == [] then st else Run(Step(st, ks[0], mainTask), ks[1..], mainTask)
  }

  /** What `parseTextResponse(text, mainTask)` returns. */
  function Parsed(content: Content, mainTask: Option<string>): seq<Subtask>
  {
    match content
    case NotText => []
    case Text(text) => Filter(Closed(Run(Initial, Kinds(Split(text, '\n')), mainTask)), Complete)
  }

  /** The body of the `forEach` callback for one line of a given kind. */
  method HandleLine(subtasks: seq<Subtask>, currentSubtask: Option<Subtask>, kind: LineKind, mainTask: Option<string>)
    returns (subtasks': seq<Subtask>, currentSubtask': Option<Subtask>)
    ensures ParseState(subtasks', currentSubtask') == Step(ParseState(subtasks, currentSubtask), kind, mainTask)
  {
    subtasks', currentSubtask' := subtasks, currentSubtask;
    match kind {
    case DashLine(description) =>
      if currentSubtask.Some? {
        subtasks' := subtasks + [currentSubtask.value];
      }
      currentSubtask' := Some(Subtask(description, None, None, None, mainTask));
    case TimeLine(time) =>
      if currentSubtask.Some? {
        currentSubtask' := Some(currentSubtask.value.(estimatedTime := Some(time)));
      }
    case ImportanceLine(importance) =>
      if currentSubtask.Some? {
        currentSubtask' := Some(currentSubtask.value.(importance := Some(importance)));
      }
    case UrgencyLine(urgency) =>
      if currentSubtask.Some? {
        currentSubtask' := Some(currentSubtask.value.(urgency := Some(urgency)));
      }
    case OtherLine =>
    }
  }

  /** `parseTextResponse`: one pass over the lines that closes a subtask at each dash line
      and fills in the labelled fields of the open one, then the completeness filter. The
      tests the source makes on each line are `Classify`; the loop keeps the two variables
      the source mutates. */
  method ParseTextResponse(content: Content, mainTask: Option<string>) returns (result: seq<Subtask>)
    ensures result == Parsed(content, mainTask)
  {
    if content.NotText? {
      return [];
    }
    var lines := Split(content.text, '\n');
    ghost var ks := Kinds(lines);
    var subtasks: seq<Subtask> := [];
    var currentSubtask: Option<Subtask> := None;
    for i := 0 to |lines|
      invariant Run(ParseState(subtasks, currentSubtask), ks[i..], mainTask)
                == Run(Initial, ks, mainTask)
    {
      assert ks[i..][1..] == ks[i + 1..];
      var kind := Classify(lines[i]);
      KindAt(lines, i);
      subtasks, currentSubtask := HandleLine(subtasks, currentSubtask, kind, mainTask);
    }
    assert ks[|lines|..] == [];
    ghost var final := ParseState(subtasks, currentSubtask);
    assert final == Run(Initial, ks, mainTask);
    if currentSubtask.Some? {
      subtasks := subtasks + [currentSubtask.value];
    } else {
      assert subtasks + [] == subtasks;
    }
    assert subtasks == Closed(final);
    result := Filter(subtasks, Complete);
  }

  lemma {:induction false} KindsAppend(a: seq<string>, b: seq<string>)
    ensures Kinds(a + b) == Kinds(a) + Kinds(b)
  {
    if a == [] {
      assert a + b == b;
    } else {
      assert (a + b)[1..] == a[1..] + b;
      KindsAppend(a[1..], b);
    }
  }

  lemma {:induction false} RunAppend(st: ParseState, a: seq<LineKind>, b: seq<LineKind>, mainTask: Option<string>)
    ensures Run(st, a + b, mainTask) == Run(Run(st, a, mainTask), b, mainTask)
    decreases a
  {
    if a == [] {
      assert a + b == b;
    } else {
      assert (a + b)[1..] == a[1..] + b;
      RunAppend(Step(st, a[0], mainTask), a[1..], b, mainTask);
    }
  }

  /** The number of lines that open a subtask. */
  function DashLines(lines: seq<string>): nat
  {
    if lines == [] then 0 else (if IsDashLine(lines[0]) then 1 else 0) + DashLines(lines[1..])
  }

  function DashKinds(ks: seq<LineKind>): nat
  {
    if ks == [] then 0 else (if ks[0].DashLine? then 1 else 0) + DashKinds(ks[1..])
  }

  lemma {:induction false} DashKindsOfLines(lines: seq<string>)
    ensures DashKinds(Kinds(lines)) == DashLines(lines)
  {
    if lines != [] {
      DashKindsOfLines(lines[1..]);
      assert Kinds(lines)[1..] == Kinds(lines[1..]);
    }
  }

  /** Each dash line closes or opens exactly one subtask and no other line does: the
      subtasks of a run are those of its start plus one per dash line. */
  lemma {:induction false} RunCountsDashLines(st: ParseState, ks: seq<LineKind>, mainTask: Option<string>)
    ensures |Closed(Run(st, ks, mainTask))| == |Closed(st)| + DashKinds(ks)
    decreases ks
  {
    if ks != [] {
      RunCountsDashLines(Step(st, ks[0], mainTask), ks[1..], mainTask);
    }
  }

  /** The parser returns at most one subtask per dash line, and none for a reply that is
      not a string. */
  lemma ParsedAtMostDashLines(content: Content, mainTask: Option<string>)
    ensures content.NotText? ==> Parsed(content, mainTask) == []
    ensures content.Text? ==> |Parsed(content, mainTask)| <= DashLines(Split(content.text, '\n'))
  {
    if content.Text? {
      var lines := Split(content.text, '\n');
      RunCountsDashLines(Initial, Kinds(lines), mainTask);
      DashKindsOfLines(lines);
    }
  }

  lemma {:induction false} RunWithoutDash(ks: seq<LineKind>, mainTask: Option<string>)
    requires forall i :: 0 <= i < |ks| ==> !ks[i].DashLine?
    ensures Run(Initial, ks, mainTask) == Initial
    decreases ks
  {
    if ks != [] {
      RunWithoutDash(ks[1..], mainTask);
    }
  }

  /** Lines before the first dash line change nothing: there is no subtask to fill yet. */
  lemma LinesBeforeFirstDashIgnored(pre: seq<string>, post: seq<string>, mainTask: Option<string>)
    requires forall i :: 0 <= i < |pre| ==> !IsDashLine(pre[i])
    ensures Run(Initial, Kinds(pre + post), mainTask) == Run(Initial, Kinds(post), mainTask)
  {
    KindsAppend(pre, post);
    RunAppend(Initial, Kinds(pre), Kinds(post), mainTask);
    NoDashKinds(pre);
    RunWithoutDash(Kinds(pre), mainTask);
  }

  lemma NoDashKinds(lines: seq<string>)
    requires forall i :: 0 <= i < |lines| ==> !IsDashLine(lines[i])
    ensures forall i :: 0 <= i < |lines| ==> !Kinds(lines)[i].DashLine?
  {
    forall i | 0 <= i < |lines|
      ensures !Kinds(lines)[i].DashLine?
    {
      KindAt(lines, i);
      DashLineKind(lines[i]);
    }
  }

  /** `Classify` calls a line a dash line exactly when the parser opens a subtask on it. */
  lemma DashLineKind(rawLine: string)
    ensures Classify(rawLine).DashLine? <==> IsDashLine(rawLine)
  {
  }

  /** A subtask as the parser leaves it: it belongs to `mainTask`, and its importance and
      urgency, when set, are lower case. */
  predicate Normal(t: Subtask, mainTask: Option<string>)
  {
    && t.mainTask == mainTask
    && (t.importance.Some? ==> IsLower(t.importance.value))
    && (t.urgency.Some? ==> IsLower(t.urgency.value))
  }

  predicate NormalState(st: ParseState, mainTask: Option<string>)
  {
    && (forall i :: 0 <= i < |st.subtasks| ==> Normal(st.subtasks[i], mainTask))
    && (st.current.Some? ==> Normal(st.current.value, mainTask))
  }

  /** The importance or urgency a line carries is in lower case. */
  predicate NormalKind(kind: LineKind)
  {
    && (kind.ImportanceLine? ==> IsLower(kind.importance))
    && (kind.UrgencyLine? ==> IsLower(kind.urgency))
  }

  lemma ClassifyIsNormal(rawLine: string)
    ensures NormalKind(Classify(rawLine))
  {
    var line := Trim(rawLine);
    var lowerLine := ToLower(line);
    if Includes(lowerLine, "importance:") {
      LabelHasColon(line, "importance:");
      ToLowerIdempotent(Trim(LabelValue(line)));
    }
    if Includes(lowerLine, "urgency:") {
      LabelHasColon(line, "urgency:");
      ToLowerIdempotent(Trim(LabelValue(line)));
    }
  }

  lemma {:induction false} RunStaysNormal(st: ParseState, ks: seq<LineKind>, mainTask: Option<string>)
    requires NormalState(st, mainTask)
    requires forall i :: 0 <= i < |ks| ==> NormalKind(ks[i])
    ensures NormalState(Run(st, ks, mainTask), mainTask)
    decreases ks
  {
    if ks != [] {
      RunStaysNormal(Step(st, ks[0], mainTask), ks[1..], mainTask);
    }
  }

  /** Every subtask the parser returns has all four key fields, carries the request's
      task, and has lower-case importance and urgency. */
  lemma ParsedSubtasksComplete(content: Content, mainTask: Option<string>)
    ensures forall t :: t in Parsed(content, mainTask) ==>
      && Complete(t) && t.mainTask == mainTask
      && IsLower(t.importance.value) && IsLower(t.urgency.value)
  {
    if content.Text? {
      var lines := Split(content.text, '\n');
      var ks := Kinds(lines);
      forall i | 0 <= i < |ks|
        ensures NormalKind(ks[i])
      {
        KindsAt(lines);
        ClassifyIsNormal(lines[i]);
      }
      RunStaysNormal(Initial, ks, mainTask);
      var closed := Closed(Run(Initial, ks, mainTask));
      FilterMembers(closed, Complete);
      forall t | t in Parsed(content, mainTask)
        ensures Complete(t) && Normal(t, mainTask)
      {
        var i :| 0 <= i < |closed| && closed[i] == t;
      }
    }
  }

  /** Of two labelled lines of the same field, the later one decides it. */
  lemma LaterLabelWins(st: ParseState, first: string, second: string, mainTask: Option<string>)
    requires st.current.Some?
    requires Classify(first).ImportanceLine? && Classify(second).ImportanceLine?
    ensures Run(st, Kinds([first, second]), mainTask).current
            == Some(st.current.value.(importance := Some(Classify(second).importance)))
  {
    var ks := Kinds([first, second]);
    KindsAt([first, second]);
    var s1 := Step(st, ks[0], mainTask);
    assert ks[1..][1..] == [];
    assert Run(s1, ks[1..], mainTask) == Step(s1, ks[1], mainTask);
  }

  // ---- The reply format the prompt asks for, and the parser reading it back ----

  /** A field value that survives one labelled line: non-empty, trimmed, one line, no colon. */
  predicate PlainValue(v: string)
  {
    v != [] && Trimmed(v) && '\n' !in v && ':' !in v
  }

  /** A subtask the prompt's format can carry: a one-line trimmed description, plain
      values, lower-case importance and urgency, the given task. */
  predicate Printable(t: Subtask, mainTask: Option<string>)
  {
    && Filled(t, mainTask)
    && t.description != [] && Trimmed(t.description) && '\n' !in t.description
    && PlainValue(t.estimatedTime.value)
    && PlainValue(t.importance.value) && IsLower(t.importance.value)
    && PlainValue(t.urgency.value) && IsLower(t.urgency.value)
  }

  /** The three labelled fields are set and the subtask carries the given task. */
  predicate Filled(t: Subtask, mainTask: Option<string>)
  {
    t.estimatedTime.Some? && t.importance.Some? && t.urgency.Some? && t.mainTask == mainTask
  }

  /** The four lines the prompt asks for, per subtask. */
  function Block(t: Subtask): seq<string>
    requires t.estimatedTime.Some? && t.importance.Some? && t.urgency.Some?
  {
    [ "- " + t.description,
      "Estimated time: " + t.estimatedTime.value,
      "Importance: " + t.importance.value,
      "Urgency: " + t.urgency.value ]
  }

  function Blocks(ts: seq<Subtask>, mainTask: Option<string>): seq<string>
    requires forall i :: 0 <= i < |ts| ==> Printable(ts[i], mainTask)
  {
    if ts == [] then [] else assert Printable(ts[0], mainTask); Block(ts[0]) + Blocks(ts[1..], mainTask)
  }

  /** A reply in the requested format. */
  function FormatReply(ts: seq<Subtask>, mainTask: Option<string>): string
    requires forall i :: 0 <= i < |ts| ==> Printable(ts[i], mainTask)
  {
    Join(Blocks(ts, mainTask), "\n")
  }

  lemma TrimmedLine(head: string, v: string)
    requires head != [] && !IsSpace(head[0]) && v != [] && Trimmed(v)
    ensures Trim(head + v) == head + v
  {
    var line := head + v;
    assert line[0] == head[0] && line[|line| - 1] == v[|v| - 1];
    TrimPadded("", line, "");
    assert "" + line + "" == line;
  }

  /** The only colon of a line sits before where `tag` has its colon: the tag is
      not in the line. */
  lemma {:induction false} LabelAbsent(h: string, p: nat, tag: string, q: nat)
    requires p < |h| && h[p] == ':' && forall j :: 0 <= j < |h| && j != p ==> h[j] != ':'
    requires q < |tag| && tag[q] == ':' && p < q
    ensures !Includes(h, tag)
  {
    if Includes(h, tag) {
      var k := IncludesWitness(h, tag);
    }
  }

  /** A labelled line "<name>: v" is already trimmed and is not a dash line. */
  lemma LabelLineShape(name: string, v: string)
    requires name != [] && name[0] != '-' && !IsSpace(name[0]) && PlainValue(v)
    ensures Trim(name + ": " + v) == name + ": " + v
    ensures !StartsWith(name + ": " + v, "-")
  {
    var line := name + ": " + v;
    TrimmedLine(name + ": ", v);
    assert line[0] == name[0];
  }

  /** Lower-casing a labelled line "<name>: v" keeps its only colon right after the name. */
  lemma LabelLineLower(name: string, v: string)
    requires ':' !in name && ':' !in v
    ensures ToLower(name + ": " + v) == ToLower(name) + ": " + ToLower(v)
    ensures ToLower(name + ": " + v)[|name|] == ':'
    ensures forall j :: 0 <= j < |name| + 2 + |v| && j != |name| ==> ToLower(name + ": " + v)[j] != ':'
  {
    var line := name + ": " + v;
    ToLowerAppend(name, ": ");
    ToLowerAppend(name + ": ", v);
    forall j | 0 <= j < |line| && j != |name|
      ensures ToLower(line)[j] != ':'
    {
      if j < |name| {
        assert line[j] == name[j];
      } else if j > |name| + 1 {
        assert line[j] == v[j - |name| - 2];
      }
    }
  }

  /** The lower-cased labelled line "<name>: v" includes the lower-cased name and colon. */
  lemma LabelLineIncludesTag(name: string, v: string, tag: string)
    requires ':' !in name && ':' !in v && tag == ToLower(name) + ":"
    ensures Includes(ToLower(name + ": " + v), tag)
  {
    var lower := ToLower(name + ": " + v);
    LabelLineLower(name, v);
    assert lower[..|tag|] == tag;
  }

  /** The three labels, lower-cased. */
  lemma LowerLabels()
    ensures ToLower("Estimated time") + ":" == "estimated time:"
    ensures ToLower("Importance") + ":" == "importance:"
    ensures ToLower("Urgency") + ":" == "urgency:"
  {
  }

  lemma LabelValueOf(tag: string, v: string)
    requires ':' !in tag && ':' !in v && v != [] && Trimmed(v)
    ensures ':' in tag + ": " + v
    ensures Trim(LabelValue(tag + ": " + v)) == v
  {
    var line := tag + ": " + v;
    assert line == tag + [':'] + (" " + v);
    assert line[|tag|] == ':';
    SplitFirst(tag, ':', " " + v);
    assert ':' !in " " + v;
    SplitJoin([" " + v], ':');
    assert Join([" " + v], [':']) == " " + v;
    TrimPadded(" ", v, "");
    assert " " + v + "" == " " + v;
  }

  lemma ClassifyDashLine(d: string)
    requires d != [] && Trimmed(d)
    ensures Classify("- " + d) == DashLine(d)
  {
    var line := "- " + d;
    assert Trim(line) == line by {
      TrimmedLine("- ", d);
    }
    assert StartsWith(line, "-");
    assert Trim(line[1..]) == d by {
      assert line[1..] == " " + d + "";
      TrimPadded(" ", d, "");
    }
  }

  /** How `Classify` judges a trimmed line that is not a dash line, by the labels its
      lower-cased form contains. */
  lemma ClassifyLabelled(line: string)
    requires Trim(line) == line && !StartsWith(line, "-") && ':' in line
    ensures Includes(ToLower(line), "estimated time:") ==>
              Classify(line) == TimeLine(Trim(LabelValue(line)))
    ensures !Includes(ToLower(line), "estimated time:") && Includes(ToLower(line), "importance:") ==>
              Classify(line) == ImportanceLine(ToLower(Trim(LabelValue(line))))
    ensures !Includes(ToLower(line), "estimated time:") && !Includes(ToLower(line), "importance:")
            && Includes(ToLower(line), "urgency:") ==>
              Classify(line) == UrgencyLine(ToLower(Trim(LabelValue(line))))
  {
  }

  lemma ClassifyTimeLine(v: string)
    requires PlainValue(v)
    ensures Classify("Estimated time: " + v) == TimeLine(v)
  {
    var line := "Estimated time: " + v;
    assert Trim(line) == line && !StartsWith(line, "-") && ':' in line by {
      assert line == "Estimated time" + ": " + v;
      LabelLineShape("Estimated time", v);
      LabelValueOf("Estimated time", v);
    }
    assert Trim(LabelValue(line)) == v by {
      assert line == "Estimated time" + ": " + v;
      LabelValueOf("Estimated time", v);
    }
    assert Includes(ToLower(line), "estimated time:") by {
      assert line == "Estimated time" + ": " + v;
      LowerLabels();
      LabelLineIncludesTag("Estimated time", v, "estimated time:");
    }
    ClassifyLabelled(line);
  }

  /** The labels the lower-cased "Importance: v" line holds and lacks. */
  lemma ImportanceLineTags(v: string)
    requires PlainValue(v)
    ensures Includes(ToLower("Importance: " + v), "importance:")
    ensures !Includes(ToLower("Importance: " + v), "estimated time:")
  {
    var line := "Importance: " + v;
    assert Includes(ToLower(line), "importance:") by {
      assert line == "Importance" + ": " + v;
      LowerLabels();
      LabelLineIncludesTag("Importance", v, "importance:");
    }
    assert !Includes(ToLower(line), "estimated time:") by {
      assert line == "Importance" + ": " + v;
      LabelLineLower("Importance", v);
      LabelAbsent(ToLower(line), 10, "estimated time:", 14);
    }
  }

  lemma ClassifyImportanceLine(v: string)
    requires PlainValue(v) && IsLower(v)
    ensures Classify("Importance: " + v) == ImportanceLine(v)
  {
    var line := "Importance: " + v;
    assert Trim(line) == line && !StartsWith(line, "-") && ':' in line by {
      assert line == "Importance" + ": " + v;
      LabelLineShape("Importance", v);
      LabelValueOf("Importance", v);
    }
    assert Trim(LabelValue(line)) == v by {
      assert line == "Importance" + ": " + v;
      LabelValueOf("Importance", v);
    }
    ImportanceLineTags(v);
    ClassifyLabelled(line);
  }

  /** The labels the lower-cased "Urgency: v" line holds and lacks. */
  lemma UrgencyLineTags(v: string)
    requires PlainValue(v)
    ensures Includes(ToLower("Urgency: " + v), "urgency:")
    ensures !Includes(ToLower("Urgency: " + v), "estimated time:") && !Includes(ToLower("Urgency: " + v), "importance:")
  {
    var line := "Urgency: " + v;
    assert Includes(ToLower(line), "urgency:") by {
      assert line == "Urgency" + ": " + v;
      LowerLabels();
      LabelLineIncludesTag("Urgency", v, "urgency:");
    }
    assert !Includes(ToLower(line), "estimated time:") && !Includes(ToLower(line), "importance:") by {
      assert line == "Urgency" + ": " + v;
      LabelLineLower("Urgency", v);
      LabelAbsent(ToLower(line), 7, "estimated time:", 14);
      LabelAbsent(ToLower(line), 7, "importance:", 10);
    }
  }

  lemma ClassifyUrgencyLine(v: string)
    requires PlainValue(v) && IsLower(v)
    ensures Classify("Urgency: " + v) == UrgencyLine(v)
  {
    var line := "Urgency: " + v;
    assert Trim(line) == line && !StartsWith(line, "-") && ':' in line by {
      assert line == "Urgency" + ": " + v;
      LabelLineShape("Urgency", v);
      LabelValueOf("Urgency", v);
    }
    assert Trim(LabelValue(line)) == v by {
      assert line == "Urgency" + ": " + v;
      LabelValueOf("Urgency", v);
    }
    UrgencyLineTags(v);
    ClassifyLabelled(line);
  }

  lemma KindsOfFour(a: string, b: string, c: string, d: string)
    ensures Kinds([a, b, c, d]) == [Classify(a), Classify(b), Classify(c), Classify(d)]
  {
    assert [d][1..] == [];
    assert Kinds([d]) == [Classify(d)];
    assert [c, d][1..] == [d];
    assert Kinds([c, d]) == [Classify(c), Classify(d)];
    assert [b, c, d][1..] == [c, d];
    assert Kinds([b, c, d]) == [Classify(b), Classify(c), Classify(d)];
    assert [a, b, c, d][1..] == [b, c, d];
  }

  /** The kinds a block is written as. */
  function BlockKindsOf(t: Subtask): seq<LineKind>
    requires t.estimatedTime.Some? && t.importance.Some? && t.urgency.Some?
  {
    [ DashLine(t.description), TimeLine(t.estimatedTime.value),
      ImportanceLine(t.importance.value), UrgencyLine(t.urgency.value) ]
  }

  function KindsOfBlocks(ts: seq<Subtask>, mainTask: Option<string>): seq<LineKind>
    requires forall i :: 0 <= i < |ts| ==> Filled(ts[i], mainTask)
  {
    if ts == [] then [] else assert Filled(ts[0], mainTask); BlockKindsOf(ts[0]) + KindsOfBlocks(ts[1..], mainTask)
  }

  /** The parser reads the four lines of a block as the four kinds they were written as. */
  lemma BlockKinds(t: Subtask, mainTask: Option<string>)
    requires Printable(t, mainTask)
    ensures Kinds(Block(t)) == BlockKindsOf(t)
  {
    KindsOfFour("- " + t.description, "Estimated time: " + t.estimatedTime.value,
                "Importance: " + t.importance.value, "Urgency: " + t.urgency.value);
    ClassifyDashLine(t.description);
    ClassifyTimeLine(t.estimatedTime.value);
    ClassifyImportanceLine(t.importance.value);
    ClassifyUrgencyLine(t.urgency.value);
  }

  lemma {:induction false} BlocksKinds(ts: seq<Subtask>, mainTask: Option<string>)
    requires forall i :: 0 <= i < |ts| ==> Printable(ts[i], mainTask)
    ensures Kinds(Blocks(ts, mainTask)) == KindsOfBlocks(ts, mainTask)
  {
    if ts != [] {
      assert Printable(ts[0], mainTask);
      KindsAppend(Block(ts[0]), Blocks(ts[1..], mainTask));
      BlockKinds(ts[0], mainTask);
      BlocksKinds(ts[1..], mainTask);
    }
  }

  /** One block opens its subtask, fills the three fields, and leaves it open. */
  lemma RunBlock(st: ParseState, t: Subtask, mainTask: Option<string>)
    requires Filled(t, mainTask)
    ensures Run(st, BlockKindsOf(t), mainTask) == ParseState(Closed(st), Some(t))
  {
    var ks := BlockKindsOf(t);
    var s1 := Step(st, ks[0], mainTask);
    var s2 := Step(s1, ks[1], mainTask);
    var s3 := Step(s2, ks[2], mainTask);
    var s4 := Step(s3, ks[3], mainTask);
    assert s4 == ParseState(Closed(st), Some(t));
    assert Run(s4, ks[4..], mainTask) == s4;
    assert ks[3..][1..] == ks[4..];
    assert Run(s3, ks[3..], mainTask) == s4;
    assert ks[2..][1..] == ks[3..];
    assert Run(s2, ks[2..], mainTask) == s4;
    assert ks[1..][1..] == ks[2..];
    assert Run(s1, ks[1..], mainTask) == s4;
  }

  lemma {:induction false} RunBlocks(st: ParseState, ts: seq<Subtask>, mainTask: Option<string>)
    requires forall i :: 0 <= i < |ts| ==> Filled(ts[i], mainTask)
    ensures Closed(Run(st, KindsOfBlocks(ts, mainTask), mainTask)) == Closed(st) + ts
    decreases ts
  {
    if ts != [] {
      assert Filled(ts[0], mainTask);
      var mid := ParseState(Closed(st), Some(ts[0]));
      RunAppend(st, BlockKindsOf(ts[0]), KindsOfBlocks(ts[1..], mainTask), mainTask);
      RunBlock(st, ts[0], mainTask);
      RunBlocks(mid, ts[1..], mainTask);
      assert ts == [ts[0]] + ts[1..];
    }
  }

  lemma {:induction false} BlocksAreLines(ts: seq<Subtask>, mainTask: Option<string>)
    requires forall i :: 0 <= i < |ts| ==> Printable(ts[i], mainTask)
    ensures forall i :: 0 <= i < |Blocks(ts, mainTask)| ==> '\n' !in Blocks(ts, mainTask)[i]
  {
    if ts != [] {
      BlocksAreLines(ts[1..], mainTask);
      assert Printable(ts[0], mainTask);
      var b := Block(ts[0]);
      assert forall i :: 0 <= i < |b| ==> '\n' !in b[i];
    }
  }

  /** The empty reply (no subtask to format) parses to no subtask. */
  lemma ParseEmptyReply(mainTask: Option<string>)
    ensures Parsed(Text(""), mainTask) == []
  {
    assert Split("", '\n') == [""];
    assert Classify("") == OtherLine by {
      assert Trim("") == "";
      assert ToLower("") == "";
    }
    assert Kinds([""]) == [OtherLine];
    assert Run(Initial, [OtherLine], mainTask) == Initial;
  }

  /** Round trip: a reply written in the format the prompt requests parses back to the
      very subtasks it was written from. */
  lemma ParseFormattedReply(ts: seq<Subtask>, mainTask: Option<string>)
    requires forall i :: 0 <= i < |ts| ==> Printable(ts[i], mainTask)
    ensures Parsed(Text(FormatReply(ts, mainTask)), mainTask) == ts
  {
    if ts == [] {
      assert FormatReply(ts, mainTask) == "";
      ParseEmptyReply(mainTask);
    } else {
      var lines := Blocks(ts, mainTask);
      assert Printable(ts[0], mainTask);
      assert Split(FormatReply(ts, mainTask), '\n') == lines by {
        BlocksAreLines(ts, mainTask);
        SplitJoin(lines, '\n');
      }
      assert Kinds(lines) == KindsOfBlocks(ts, mainTask) by {
        BlocksKinds(ts, mainTask);
      }
      assert Closed(Run(Initial, KindsOfBlocks(ts, mainTask), mainTask)) == ts by {
        RunBlocks(Initial, ts, mainTask);
        assert [] + ts == ts;
      }
      FilterAll(ts, Complete);
    }
  }
}
