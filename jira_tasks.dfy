/**
 * The task importer script (scripts/create-jira-tasks.js): it reads a markdown
 * checklist line by line, turning each open or in-progress item into an issue
 * tagged with the most recent `## ` heading (the "epoch"), and then creates the
 * issues one at a time.
 *
 * Reading the file and the HTTP requests are parameters: the text of the file is
 * an input, and the outcome of the i-th request is `reply(i)`.
 */
module JiraTasks {
  import opened Wrappers
  import opened JsonValue
  import opened Text

  const HeadingMark: string := "## "
  const OpenMark: string := "- [ ]"
  const ProgressMark: string := "- [/]"
  const BoldMark: string := "**"
  const ProjectKey: string := "JI"
  const CommentOpen: string := "<!--"
  const CommentClose: string := "-->"

  datatype Task = Task(summary: string, description: string)

  /** The description every issue carries. */
  function Description(epoch: string): (r: string)
    ensures |r| == |epoch| + 55 && r[..7] == "Epoch: " && r[7..7 + |epoch|] == epoch
  {
    "Epoch: " + epoch + ". Created automatically from Janym.io task list."
  }

  /** The characters JavaScript's `.` does not match. */
  predicate LineBreak(c: char) {
    c == '\r' || c == '\U{2028}' || c == '\U{2029}' || c == '\n'
  }

  /** Where a comment whose body starts at index `k` ends: just past the first `-->`
      at or after `k`, provided no line break comes first. */
  function CommentEnd(s: string, k: nat): (r: Option<nat>)
    requires k <= |s|
    ensures r.Some? ==> k + 3 <= r.value <= |s| && s[r.value - 3..r.value] == CommentClose
    decreases |s| - k
  {
    if StartsWith(s[k..], CommentClose) then Some(k + 3)
    else if k == |s| || LineBreak(s[k]) then None
    else CommentEnd(s, k + 1)
  }

  /** `s.replace(/<!--.*?-->/g, '')`: each complete comment, found left to right and
      as short as possible, is removed; the search resumes after it. */
  function StripComments(s: string): (r: string)
    ensures |r| <= |s|
    decreases |s|
  {
    if s == [] then s
    else if StartsWith(s, CommentOpen) && CommentEnd(s, 4).Some? then StripComments(s[CommentEnd(s, 4).value..])
    else [s[0]] + StripComments(s[1..])
  }

  /** Text without a comment opener comes through unchanged. */
  lemma {:induction false} NoCommentUnchanged(s: string)
    requires forall j: nat :: !MatchAt(s, CommentOpen, j)
    ensures StripComments(s) == s
  {
    if s != [] {
      assert !MatchAt(s, CommentOpen, 0);
      forall j: nat
        ensures !MatchAt(s[1..], CommentOpen, j)
      {
        if MatchAt(s[1..], CommentOpen, j) {
          assert s[1..][j..j + 4] == s[j + 1..j + 5];
          assert MatchAt(s, CommentOpen, j + 1);
        }
      }
      NoCommentUnchanged(s[1..]);
      assert [s[0]] + s[1..] == s;
    }
  }

  /** A comment on one line, whatever it holds, is removed entirely. */
  lemma StripWholeComment(c: string)
    requires forall j :: 0 <= j < |c| ==> !LineBreak(c[j])
    requires forall j: nat :: !MatchAt(c, CommentClose, j)
    ensures StripComments(CommentOpen + c + CommentClose) == ""
  {
    var s := CommentOpen + c + CommentClose;
    CommentEndFinds(s, c, 4);
    assert s[..4] == CommentOpen;
    StripCommentToEnd(s);
  }

  /** A comment that opens the text and closes at its end leaves nothing. */
  lemma StripCommentToEnd(s: string)
    requires StartsWith(s, CommentOpen) && 4 <= |s| && CommentEnd(s, 4) == Some(|s|)
    ensures StripComments(s) == ""
  {
    assert s[|s|..] == "";
  }

  lemma {:induction false} CommentEndFinds(s: string, c: string, k: nat)
    requires s == CommentOpen + c + CommentClose && 4 <= k <= |c| + 4
    requires forall j :: 0 <= j < |c| ==> !LineBreak(c[j])
    requires forall j: nat :: !MatchAt(c, CommentClose, j)
    ensures CommentEnd(s, k) == Some(|s|)
    decreases |s| - k
  {
    if k == |c| + 4 {
      assert s[k..] == CommentClose;
    } else {
      assert s[k] == c[k - 4];
      assert !StartsWith(s[k..], CommentClose) by {
        assert s[k..][..3] == s[k..k + 3];
        if k + 3 <= |c| + 4 {
          assert s[k..k + 3] == c[k - 4..k - 1];
          assert !MatchAt(c, CommentClose, k - 4);
        } else {
          assert s[k + 2] == '-';
          assert s[k..k + 3][2] == s[k + 2];
        }
      }
      CommentEndFinds(s, c, k + 1);
    }
  }

  /** The trimmed line is a checklist item that is open (`- [ ]`) or in progress (`- [/]`). */
  predicate IsItem(t: string) {
    StartsWith(t, OpenMark) || StartsWith(t, ProgressMark)
  }

  /** The summary of an item line: the first `- [ ]`, then the first `- [/]` taken
      out of the raw line, trimmed, comments stripped, trimmed again. */
  function TaskName(line: string): (r: string)
    ensures r == "" || (!IsSpace(r[0]) && !IsSpace(r[|r| - 1]))
  {
    Trim(StripComments(Trim(ReplaceFirst(ReplaceFirst(line, OpenMark, ""), ProgressMark, ""))))
  }

  /** A summary the script keeps: non-empty and not starting with `**`. */
  predicate Kept(name: string) {
    name != "" && !StartsWith(name, BoldMark)
  }

  /** The parser's state: the current epoch and the tasks found so far. */
  datatype Parse = Parse(epoch: string, tasks: seq<Task>)

  /** One line of the checklist. */
  function Step(p: Parse, line: string): (r: Parse)
    ensures StartsWith(Trim(line), HeadingMark) ==> r == Parse(Trim(line)[3..], p.tasks)
    ensures !StartsWith(Trim(line), HeadingMark) ==> r.epoch == p.epoch
    ensures !StartsWith(Trim(line), HeadingMark) && IsItem(Trim(line)) && Kept(TaskName(line)) ==>
      r.tasks == p.tasks + [Task(TaskName(line), Description(p.epoch))]
    ensures !(IsItem(Trim(line)) && Kept(TaskName(line))) ==> r.tasks == p.tasks
  {
    var t := Trim(line);
    if StartsWith(t, HeadingMark) then
      ReplacePrefix(t, HeadingMark);
      Parse(ReplaceFirst(t, HeadingMark, ""), p.tasks)
    else if IsItem(t) then
      var name := TaskName(line);
      if Kept(name) then Parse(p.epoch, p.tasks + [Task(name, Description(p.epoch))]) else p
    else p
  }

  /** The `forEach` over the lines, from an empty epoch and no tasks. */
  function Parsed(lines: seq<string>): (r: Parse)
    ensures |r.tasks| <= |lines|
  {
    if lines == [] then Parse("", []) else Step(Parsed(lines[..|lines| - 1]), lines[|lines| - 1])
  }

  /** The tasks of a file: its lines split on `\n`, then parsed. */
  method ParseTasks(taskFile: string) returns (tasks: seq<Task>)
    ensures tasks == Parsed(Split(taskFile, '\n')).tasks
  {
    var lines := Split(taskFile, '\n');
    tasks := ParseLines(lines);
  }

  /** The `forEach` over the lines, with `currentEpoch` and `tasks` updated in place. */
  method ParseLines(lines: seq<string>) returns (tasks: seq<Task>)
    ensures tasks == Parsed(lines).tasks
  {
    tasks := [];
    var currentEpoch := "";
    var i := 0;
    while i < |lines|
      invariant 0 <= i <= |lines|
      invariant Parsed(lines[..i]) == Parse(currentEpoch, tasks)
    {
      var line := lines[i];
      assert lines[..i + 1][..i] == lines[..i];
      assert Parsed(lines[..i + 1]) == Step(Parse(currentEpoch, tasks), line);
      var t := Trim(line);
      if StartsWith(t, HeadingMark) {
        currentEpoch := ReplaceFirst(t, HeadingMark, "");
      } else if StartsWith(t, OpenMark) || StartsWith(t, ProgressMark) {
        var taskName := Trim(ReplaceFirst(ReplaceFirst(line, OpenMark, ""), ProgressMark, ""));
        var cleanName := Trim(StripComments(taskName));
        if cleanName != "" && !StartsWith(cleanName, BoldMark) {
          tasks := tasks + [Task(cleanName, Description(currentEpoch))];
        }
      }
      i := i + 1;
    }
    assert lines[..|lines|] == lines;
  }

  /** A summary the parser produces: kept, and trimmed at both ends. */
  predicate WellFormed(s: string) {
    Kept(s) && !IsSpace(s[0]) && !IsSpace(s[|s| - 1])
  }

  /** Every task has a trimmed, non-empty summary that does not start with `**`. */
  lemma {:induction false} TasksWellFormed(lines: seq<string>)
    ensures forall k :: 0 <= k < |Parsed(lines).tasks| ==> WellFormed(Parsed(lines).tasks[k].summary)
  {
    if lines != [] {
      TasksWellFormed(lines[..|lines| - 1]);
      StepKeepsWellFormed(Parsed(lines[..|lines| - 1]), lines[|lines| - 1]);
    }
  }

  lemma StepKeepsWellFormed(p: Parse, line: string)
    requires forall k :: 0 <= k < |p.tasks| ==> WellFormed(p.tasks[k].summary)
    ensures forall k :: 0 <= k < |Step(p, line).tasks| ==> WellFormed(Step(p, line).tasks[k].summary)
  {
    var name := TaskName(line);
    if Adds(line) {
      StepAdds(p, line);
      KeptNameWellFormed(line);
      AppendKeepsSummaries(p.tasks, Task(name, Description(p.epoch)));
    } else {
      StepAddsNothing(p, line);
    }
  }

  /** The line is a task the script keeps: an item, not a heading, with a kept name. */
  predicate Adds(line: string) {
    !StartsWith(Trim(line), HeadingMark) && IsItem(Trim(line)) && Kept(TaskName(line))
  }

  lemma StepAdds(p: Parse, line: string)
    requires Adds(line)
    ensures Step(p, line).tasks == p.tasks + [Task(TaskName(line), Description(p.epoch))]
  {
  }

  lemma StepAddsNothing(p: Parse, line: string)
    requires !Adds(line)
    ensures Step(p, line).tasks == p.tasks
  {
  }

  /** A task name the script keeps is well-formed. */
  lemma KeptNameWellFormed(line: string)
    requires Kept(TaskName(line))
    ensures WellFormed(TaskName(line))
  {
  }

  /** Appending a task with a well-formed summary keeps every summary well-formed. */
  lemma AppendKeepsSummaries(tasks: seq<Task>, t: Task)
    requires forall k :: 0 <= k < |tasks| ==> WellFormed(tasks[k].summary)
    requires WellFormed(t.summary)
    ensures forall k :: 0 <= k < |tasks + [t]| ==> WellFormed((tasks + [t])[k].summary)
  {
    forall k | 0 <= k < |tasks + [t]|
      ensures WellFormed((tasks + [t])[k].summary)
    {
      if k < |tasks| {
        assert (tasks + [t])[k] == tasks[k];
      }
    }
  }

  /** Tasks keep file order: parsing more lines only adds tasks at the end. */
  lemma {:induction false} ParsedPrefix(lines: seq<string>, i: nat)
    requires i <= |lines|
    ensures Parsed(lines[..i]).tasks <= Parsed(lines).tasks
    decreases |lines| - i
  {
    if i < |lines| {
      ParsedPrefix(lines[..|lines| - 1], i);
      assert lines[..|lines| - 1][..i] == lines[..i];
    } else {
      assert lines[..i] == lines;
    }
  }

  /** Before any heading the epoch is empty, so every description reads
      "Epoch: . Created …". */
  lemma {:induction false} NoHeadingNoEpoch(lines: seq<string>)
    requires forall i :: 0 <= i < |lines| ==> !StartsWith(Trim(lines[i]), HeadingMark)
    ensures Parsed(lines).epoch == ""
    ensures forall k :: 0 <= k < |Parsed(lines).tasks| ==> Parsed(lines).tasks[k].description == Description("")
  {
    if lines != [] {
      var init := lines[..|lines| - 1];
      assert forall i :: 0 <= i < |init| ==> init[i] == lines[i];
      NoHeadingNoEpoch(init);
      StepKeepsEpoch(Parsed(init), lines[|lines| - 1]);
    }
  }

  /** A line that is not a heading keeps the epoch, and a task it adds is described by it. */
  lemma StepKeepsEpoch(p: Parse, line: string)
    requires !StartsWith(Trim(line), HeadingMark)
    requires forall k :: 0 <= k < |p.tasks| ==> p.tasks[k].description == Description(p.epoch)
    ensures Step(p, line).epoch == p.epoch
    ensures forall k :: 0 <= k < |Step(p, line).tasks| ==> Step(p, line).tasks[k].description == Description(p.epoch)
  {
    var name := TaskName(line);
    if IsItem(Trim(line)) && Kept(name) {
      AppendKeepsDescriptions(p.tasks, Task(name, Description(p.epoch)));
    }
  }

  /** Appending a task with the common description keeps every description. */
  lemma AppendKeepsDescriptions(tasks: seq<Task>, t: Task)
    requires forall k :: 0 <= k < |tasks| ==> tasks[k].description == t.description
    ensures forall k :: 0 <= k < |tasks + [t]| ==> (tasks + [t])[k].description == t.description
  {
    forall k | 0 <= k < |tasks + [t]|
      ensures (tasks + [t])[k].description == t.description
    {
      if k < |tasks| {
        assert (tasks + [t])[k] == tasks[k];
      }
    }
  }

  /** Finished items (`- [x]`) never become tasks. */
  lemma DoneItemIgnored(p: Parse, line: string)
    requires StartsWith(Trim(line), "- [x]")
    ensures Step(p, line) == p
  {
    DoneIsNoMark(Trim(line));
  }

  /** A finished item is neither a heading nor an open or in-progress item. */
  lemma DoneIsNoMark(t: string)
    requires StartsWith(t, "- [x]")
    ensures !StartsWith(t, HeadingMark) && !IsItem(t)
  {
    assert t[..5] == "- [x]";
    assert t[0] == '-' && t[3] == 'x';
  }

  /** The outcome of one request: an HTTP answer, or a request error. */
  datatype Reply = Answered(status: int, body: string) | RequestFailed(message: string)

  /** The request body for a task. */
  function IssueBody(task: Task): (r: Json)
    ensures r.JObj? && r.fields.Keys == {"fields"} && r.fields["fields"].JObj?
    ensures var f := r.fields["fields"].fields;
      f.Keys == {"project", "summary", "description", "issuetype"} && f["summary"] == JStr(task.summary)
  {
    var text := JObj(map["type" := JStr("text"), "text" := JStr(task.description)]);
    var paragraph := JObj(map["type" := JStr("paragraph"), "content" := JArr([text])]);
    var doc := JObj(map["type" := JStr("doc"), "version" := JNum(1.0), "content" := JArr([paragraph])]);
    JObj(map["fields" := JObj(map[
      "project" := JObj(map["key" := JStr(ProjectKey)]),
      "summary" := JStr(task.summary),
      "description" := doc,
      "issuetype" := JObj(map["name" := JStr("Task")])])])
  }

  /** What `createIssue` resolves to: the created issue on a 2xx answer and `null`
      (`None`) on any other status or a request error. It never rejects; but on a
      2xx answer whose body does not decode, or decodes to `null`, the response
      handler throws outside the promise and the script ends (`Err`). */
  function CreateIssue(reply: Reply, decode: string -> Option<Json>): (r: Result<Option<Json>>)
    ensures reply.RequestFailed? ==> r == Ok(None)
    ensures reply.Answered? && !(200 <= reply.status < 300) ==> r == Ok(None)
    ensures r.Err? <==> reply.Answered? && 200 <= reply.status < 300 && (decode(reply.body).None? || decode(reply.body) == Some(JNull))
    ensures r.Ok? && r.value.Some? ==> decode(reply.body) == r.value
  {
    match reply
    case RequestFailed(_) => Ok(None)
    case Answered(status, body) =>
      if 200 <= status < 300 then
        match decode(body)
        case None => Err("unexpected response body")
        case Some(JNull) => Err("cannot read properties of null")
        case Some(result) => Ok(Some(result))
      else Ok(None)
  }

  /** `processTasks`: request `i` is sent only once request `i - 1` has resolved.
      `sent` lists the request bodies in order, `results` what each resolved to;
      `crashed` says the script ended at the last request sent. */
  method ProcessTasks(tasks: seq<Task>, reply: nat -> Reply, decode: string -> Option<Json>)
    returns (sent: seq<Json>, results: seq<Option<Json>>, crashed: bool)
    ensures |sent| == |results| + (if crashed then 1 else 0) <= |tasks|
    ensures !crashed ==> |results| == |tasks|
    ensures crashed ==> CreateIssue(reply(|results|), decode).Err?
    ensures forall i :: 0 <= i < |sent| ==> sent[i] == IssueBody(tasks[i])
    ensures forall i :: 0 <= i < |results| ==> CreateIssue(reply(i), decode) == Ok(results[i])
  {
    sent, results, crashed := [], [], false;
    var i := 0;
    while i < |tasks|
      invariant i == |results| == |sent| <= |tasks|
      invariant forall j :: 0 <= j < i ==> sent[j] == IssueBody(tasks[j])
      invariant forall j :: 0 <= j < i ==> CreateIssue(reply(j), decode) == Ok(results[j])
    {
      sent := sent + [IssueBody(tasks[i])];
      var outcome := CreateIssue(reply(i), decode);
      if outcome.Err? {
        crashed := true;
        return;
      }
      results := results + [outcome.value];
      i := i + 1;
    }
  }
}
