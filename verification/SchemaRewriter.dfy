/** The script that adds missing indexes to a Prisma schema: a loop over the lines that collects each
    model and inserts what it lacks. */
module SchemaRewriter {
  import opened Common
  import opened SchemaText

  // ----- The wanted indexes -----

  function Index(columns: string): string {
    "@@index([" + columns + "])"
  }

  const ORG := "organizationId"

  const ORG_ONLY := {
    "User", "Portfolio", "Service", "Testimonial", "Page", "Contact", "Client", "Quote", "FollowUp", "Project",
    "Sprint", "TimeLog", "Milestone", "Payment", "Subscription", "Expense", "Document", "DocumentFolder", "Faq",
    "Notification", "Attendance", "LeaveRequest", "Recruitment", "AiProposalRequest", "AiSeoAudit", "AiEmailDraft",
    "AiMeetingSummary", "AiKnowledgeEmbedding", "RevenueRollup", "ClientRollup", "TeamPerformanceRollup", "Workflow",
    "ApiKey", "Webhook"}

  const NOTHING_TO_ADD := {
    "Organization", "Role", "EmployeeDocument", "SalaryStructure", "Payslip", "BankDetail", "WebhookDelivery"}

  /** The columns listed for a model, if the model is listed. */
  function Listed(name: string): (r: Option<seq<string>>)
    ensures r.Some? ==> ColumnsOk(r.value)
  {
    if name in ORG_ONLY then Some([ORG])
    else if name in NOTHING_TO_ADD then Some([])
    else match name
      case "Lead" => Some([ORG, "stage", "assignedToId"])
      case "Task" => Some([ORG, "status", "projectId", "assignedToId", "sprintId"])
      case "Invoice" => Some([ORG, "status", "clientId", "dueDate"])
      case "Ticket" => Some([ORG, "status", "assignedToId", "clientId"])
      case "Employee" => Some([ORG, "status", "department"])
      case "WorkflowRun" => Some(["workflowId, startedAt"])
      case "ApiRequestLog" => Some(["organizationId, createdAt"])
      case _ => None
  }

  /** No column list is named twice, and none breaks the line. */
  predicate ColumnsOk(columns: seq<string>) {
    && (forall i :: 0 <= i < |columns| ==> '\n' !in columns[i])
    && (forall i, j :: 0 <= i < j < |columns| ==> |columns[i]| != |columns[j]|)
  }

  function Indexes(columns: seq<string>): (r: seq<string>)
    ensures |r| == |columns|
    ensures forall i :: 0 <= i < |r| ==> r[i] == Index(columns[i])
  {
    seq(|columns|, i requires 0 <= i < |columns| => Index(columns[i]))
  }

  predicate IsOrgLine(line: string) { "organizationId " <= Trim(line) }
  predicate IsSchemaLine(line: string) { "@@schema" <= Trim(line) }
  predicate IsIndexLine(line: string) { "@@index" <= Trim(line) }

  /** linesArray.some(...) */
  predicate HasOrgId(lines: seq<string>) {
    exists i :: 0 <= i < |lines| && IsOrgLine(lines[i])
  }

  /** What a model should have: its listed indexes, or for a model that is not listed the
      organization index if it has the column. */
  function Wanted(name: string, lines: seq<string>): seq<string> {
    if Listed(name).Some? then Indexes(Listed(name).value)
    else if HasOrgId(lines) then [Index(ORG)]
    else []
  }

  /** findIndex of the @@schema line, or the last line, which closes the model. */
  function InsertAt(lines: seq<string>): (k: nat)
    requires lines != []
    ensures k < |lines|
  {
    if FirstSchema(lines, 0) < |lines| then FirstSchema(lines, 0) else |lines| - 1
  }

  function FirstSchema(lines: seq<string>, from: nat): (k: nat)
    requires from <= |lines|
    ensures from <= k <= |lines|
    ensures k < |lines| ==> IsSchemaLine(lines[k])
    ensures forall i :: from <= i < k ==> !IsSchemaLine(lines[i])
    decreases |lines| - from
  {
    if from < |lines| && !IsSchemaLine(lines[from]) then FirstSchema(lines, from + 1) else from
  }

  predicate Has(lines: seq<string>, index: string) {
    exists i :: 0 <= i < |lines| && IsIndexLine(lines[i]) && Trim(lines[i]) == index
  }

  /** The wanted indexes a model lacks, as lines to insert. */
  function Missing(wanted: seq<string>, lines: seq<string>): seq<string> {
    if wanted == [] then []
    else
      var before, last := Missing(wanted[..|wanted| - 1], lines), wanted[|wanted| - 1];
      if Has(lines, last) then before else before + ["  " + last]
  }

  function ProcessModel(name: string, lines: seq<string>): seq<string>
    requires lines != []
  {
    var k := InsertAt(lines);
    lines[..k] + Missing(Wanted(name, lines), lines) + lines[k..]
  }

  /** processModel as the script writes it. */
  method InsertMissing(name: string, lines: seq<string>) returns (result: seq<string>)
    requires lines != []
    ensures result == ProcessModel(name, lines)
  {
    var toAdd := Wanted(name, lines);
    var schemaIndex := InsertAt(lines);
    var inserts: seq<string> := [];
    for i := 0 to |toAdd|
      invariant inserts == Missing(toAdd[..i], lines)
    {
      assert toAdd[..i + 1][..i] == toAdd[..i];
      if !Has(lines, toAdd[i]) {
        inserts := inserts + ["  " + toAdd[i]];
      }
    }
    assert toAdd[..|toAdd|] == toAdd;
    result := lines;
    if inserts != [] {
      result := result[..schemaIndex] + inserts + result[schemaIndex..];
    }
  }

  // ----- The loop over the lines -----

  predicate StartsModel(line: string) { "model " <= line }
  predicate Closes(line: string) { "}" <= line }

  function UpToSpace(s: string): string {
    if s == "" || s[0] == ' ' then "" else [s[0]] + UpToSpace(s[1..])
  }

  /** line.split(' ')[1] */
  function ModelName(line: string): string
    requires StartsModel(line)
  {
    UpToSpace(line[6..])
  }

  /** `current` is "" where the script has null: both are falsy, so a model without a name counts as
      no model. */
  datatype Parser = Parser(out: seq<string>, current: string, model: seq<string>)

  const START := Parser([], "", [])

  function Feed(p: Parser, line: string): Parser
    requires p.current != "" ==> p.model != []
  {
    if StartsModel(line) then Parser(p.out, ModelName(line), [line])
    else if p.current != "" then
      var model := p.model + [line];
      if Closes(line) then Parser(p.out + ProcessModel(p.current, model), "", []) else Parser(p.out, p.current, model)
    else p.(out := p.out + [line])
  }

  function FeedAll(p: Parser, lines: seq<string>): Parser
    requires p.current != "" ==> p.model != []
    decreases |lines|
  {
    if lines == [] then p else FeedAll(Feed(p, lines[0]), lines[1..])
  }

  /** The script's loop. */
  method RewriteLines(lines: seq<string>) returns (modifiedLines: seq<string>)
    ensures modifiedLines == Emit(lines)
  {
    modifiedLines := [];
    var currentModel, modelLines := "", [];
    var i := 0;
    while i < |lines|
      invariant 0 <= i <= |lines|
      invariant currentModel != "" ==> modelLines != []
      invariant FeedAll(Parser(modifiedLines, currentModel, modelLines), lines[i..]) == FeedAll(START, lines)
    {
      var line := lines[i];
      assert lines[i..][1..] == lines[i + 1..];
      if StartsModel(line) {
        currentModel := ModelName(line);
        modelLines := [line];
      } else if currentModel != "" {
        modelLines := modelLines + [line];
        if Closes(line) {
          var processed := InsertMissing(currentModel, modelLines);
          modifiedLines := modifiedLines + processed;
          currentModel := "";
          modelLines := [];
        }
      } else {
        modifiedLines := modifiedLines + [line];
      }
      i := i + 1;
    }
    FeedIsEmit(START, lines);
  }

  method RewriteFile(content: string) returns (result: string)
    ensures result == Rewrite(content)
  {
    var modifiedLines := RewriteLines(Split(content));
    result := Join(modifiedLines);
  }

  // ----- The same by grammar -----

  /** Where the model that starts at line 0 ends: its closing line, or the next model, or the end. */
  function EndOf(lines: seq<string>, from: nat): (j: nat)
    requires from <= |lines|
    ensures from <= j <= |lines|
    ensures forall i :: from <= i < j ==> !StartsModel(lines[i]) && !Closes(lines[i])
    ensures j < |lines| ==> StartsModel(lines[j]) || Closes(lines[j])
    decreases |lines| - from
  {
    if from < |lines| && !StartsModel(lines[from]) && !Closes(lines[from]) then EndOf(lines, from + 1) else from
  }

  /** Line 0 starts a model that is closed before the next one starts. */
  predicate StartsSection(lines: seq<string>) {
    && lines != [] && StartsModel(lines[0]) && ModelName(lines[0]) != ""
    && EndOf(lines, 1) < |lines| && !StartsModel(lines[EndOf(lines, 1)])
  }

  /** What the script writes: lines outside models as they are, closed models with their missing
      indexes, and nothing of a model that is not closed or has no name. */
  function Emit(lines: seq<string>): seq<string>
    decreases |lines|
  {
    if lines == [] then []
    else if !StartsModel(lines[0]) then [lines[0]] + Emit(lines[1..])
    else if ModelName(lines[0]) == "" then Emit(lines[1..])
    else
      var j := EndOf(lines, 1);
      if StartsSection(lines) then ProcessModel(ModelName(lines[0]), lines[..j + 1]) + Emit(lines[j + 1..])
      else Emit(lines[j..])
  }

  function Rewrite(content: string): string {
    Join(Emit(Split(content)))
  }

  lemma {:induction false} FeedModel(p: Parser, lines: seq<string>, j: nat)
    requires p.current != "" && p.model != [] && j <= |lines|
    requires forall i :: 0 <= i < j ==> !StartsModel(lines[i]) && !Closes(lines[i])
    ensures FeedAll(p, lines) == FeedAll(p.(model := p.model + lines[..j]), lines[j..])
    decreases j
  {
    if j == 0 {
      assert p.model + lines[..0] == p.model;
    } else {
      var q := Feed(p, lines[0]);
      FeedModel(q, lines[1..], j - 1);
      assert q.model + lines[1..][..j - 1] == p.model + lines[..j];
      assert lines[1..][j - 1..] == lines[j..];
    }
  }

  /** From the first line of a model on: the model is written if it is closed, else forgotten. */
  lemma FeedSection(p: Parser, lines: seq<string>)
    requires p.current == "" && lines != [] && StartsModel(lines[0]) && ModelName(lines[0]) != ""
    ensures var j := EndOf(lines, 1);
      if StartsSection(lines)
      then FeedAll(p, lines) == FeedAll(Parser(p.out + ProcessModel(ModelName(lines[0]), lines[..j + 1]), "", []), lines[j + 1..])
      else FeedAll(p, lines).out == if j < |lines| then FeedAll(p, lines[j..]).out else p.out
  {
    hide ModelName, ProcessModel;
    var j, q := EndOf(lines, 1), Feed(p, lines[0]);
    FeedModel(q, lines[1..], j - 1);
    var r := q.(model := q.model + lines[1..][..j - 1]);
    assert r.model == lines[..j] && lines[1..][j - 1..] == lines[j..];
    if j < |lines| {
      assert lines[j..][0] == lines[j] && lines[j..][1..] == lines[j + 1..];
      if StartsModel(lines[j]) {
        FeedAgain(r, p, lines[j..]);
      } else {
        assert lines[..j] + [lines[j]] == lines[..j + 1];
      }
    }
  }

  /** The loop writes what the grammar says. */
  lemma {:induction false} FeedIsEmit(p: Parser, lines: seq<string>)
    requires p.current == ""
    ensures FeedAll(p, lines).out == p.out + Emit(lines)
    decreases |lines|
  {
    if lines != [] {
      var q := Feed(p, lines[0]);
      if !StartsModel(lines[0]) {
        FeedIsEmit(q, lines[1..]);
        assert p.out + [lines[0]] + Emit(lines[1..]) == p.out + ([lines[0]] + Emit(lines[1..]));
      } else if ModelName(lines[0]) == "" {
        FeedIsEmit(q, lines[1..]);
      } else {
        var j := EndOf(lines, 1);
        FeedSection(p, lines);
        hide ModelName, ProcessModel, EndOf;
        if StartsSection(lines) {
          FeedIsEmit(Parser(p.out + ProcessModel(ModelName(lines[0]), lines[..j + 1]), "", []), lines[j + 1..]);
        } else if j < |lines| {
          FeedIsEmit(p, lines[j..]);
        } else {
          assert lines[j..] == [];
        }
      }
    }
  }

  /** A line that starts a model makes the parser forget the model it was in. */
  lemma FeedAgain(p: Parser, q: Parser, lines: seq<string>)
    requires p.out == q.out && (p.current != "" ==> p.model != []) && (q.current != "" ==> q.model != [])
    requires lines != [] && StartsModel(lines[0])
    ensures FeedAll(p, lines) == FeedAll(q, lines)
  {
  }
}
