/** The same rewriter in plain text: which index lines each model gets, and where. */
module SchemaTable {
  import opened Common
  import opened SchemaText
  import opened SchemaRewriter
  import P = SchemaProperties

  /** Some line of the model is the text but for the white space around it. */
  ghost predicate HasLine(lines: seq<string>, text: string) {
    exists i :: 0 <= i < |lines| && Trim(lines[i]) == text
  }

  /** Of the indexes those the model lacks, indented by two spaces. */
  ghost function Lacking(indexes: seq<string>, lines: seq<string>): seq<string> {
    if indexes == [] then []
    else (if HasLine(lines, indexes[0]) then [] else ["  " + indexes[0]]) + Lacking(indexes[1..], lines)
  }

  /** `at` is the first @@schema line, or the last line if there is none. */
  ghost predicate IsPlace(lines: seq<string>, at: nat) {
    && at < |lines|
    && (forall i :: 0 <= i < at ==> !("@@schema" <= Trim(lines[i])))
    && ("@@schema" <= Trim(lines[at]) || (at == |lines| - 1))
  }

  /** `out` is the model with the indexes it lacks put in as one block. */
  ghost predicate Gets(out: seq<string>, lines: seq<string>, indexes: seq<string>) {
    exists at: nat :: IsPlace(lines, at) && out == lines[..at] + Lacking(indexes, lines) + lines[at..]
  }

  // ----- The table -----

  /** What a model that is listed with these columns gets. */
  lemma ListedGets(name: string, lines: seq<string>, indexes: seq<string>)
    requires lines != [] && (forall i :: 0 <= i < |indexes| ==> "@@index" <= indexes[i]) && Wanted(name, lines) == indexes
    ensures Gets(ProcessModel(name, lines), lines, indexes)
  {
    LackingIsMissing(indexes, lines);
    var at := InsertAt(lines);
    hide Missing, Lacking, Wanted;
    assert IsPlace(lines, at);
  }

  lemma {:induction false} LackingSnoc(indexes: seq<string>, last: string, lines: seq<string>)
    ensures Lacking(indexes + [last], lines) == Lacking(indexes, lines) + if HasLine(lines, last) then [] else ["  " + last]
  {
    hide HasLine;
    if indexes == [] {
      assert ([last])[1..] == [];
    } else {
      LackingSnoc(indexes[1..], last, lines);
      assert (indexes + [last])[1..] == indexes[1..] + [last];
    }
  }

  lemma {:induction false} LackingIsMissing(indexes: seq<string>, lines: seq<string>)
    requires forall i :: 0 <= i < |indexes| ==> "@@index" <= indexes[i]
    ensures Missing(indexes, lines) == Lacking(indexes, lines)
  {
    if indexes != [] {
      var init, last := indexes[..|indexes| - 1], indexes[|indexes| - 1];
      LackingIsMissing(init, lines);
      LackingSnoc(init, last, lines);
      assert init + [last] == indexes;
      hide Lacking;
      assert Has(lines, last) <==> HasLine(lines, last);
    }
  }

  lemma OrgText()
    ensures Index(ORG) == "@@index([organizationId])"
  {
  }

  lemma LeadTexts()
    ensures Index("stage") == "@@index([stage])" && Index("assignedToId") == "@@index([assignedToId])"
  {
  }

  lemma TaskTexts()
    ensures Index("status") == "@@index([status])" && Index("projectId") == "@@index([projectId])"
    ensures Index("sprintId") == "@@index([sprintId])"
  {
  }

  lemma InvoiceTexts()
    ensures Index("clientId") == "@@index([clientId])" && Index("dueDate") == "@@index([dueDate])"
  {
  }

  lemma OtherTexts()
    ensures Index("department") == "@@index([department])"
  {
  }

  lemma RunTexts()
    ensures Index("workflowId, startedAt") == "@@index([workflowId, startedAt])"
  {
  }

  lemma LogTexts()
    ensures Index("organizationId, createdAt") == "@@index([organizationId, createdAt])"
  {
  }

  /** The models listed for the organization index alone. */
  lemma OrganizationModels(name: string, lines: seq<string>)
    requires lines != []
    requires name in {"User", "Portfolio", "Service", "Testimonial", "Page", "Contact", "Client", "Quote", "FollowUp", "Project", "Sprint",
      "TimeLog", "Milestone", "Payment", "Subscription", "Expense", "Document", "DocumentFolder", "Faq", "Notification", "Attendance",
      "LeaveRequest", "Recruitment", "AiProposalRequest", "AiSeoAudit", "AiEmailDraft", "AiMeetingSummary", "AiKnowledgeEmbedding",
      "RevenueRollup", "ClientRollup", "TeamPerformanceRollup", "Workflow", "ApiKey", "Webhook"}
    ensures Gets(ProcessModel(name, lines), lines, ["@@index([organizationId])"])
  {
    hide ProcessModel, Gets;
    OrgText();
    assert Wanted(name, lines) == ["@@index([organizationId])"];
    ListedGets(name, lines, ["@@index([organizationId])"]);
  }

  /** The models listed for nothing. */
  lemma UntouchedModels(name: string, lines: seq<string>)
    requires lines != []
    requires name in {"Organization", "Role", "EmployeeDocument", "SalaryStructure", "Payslip", "BankDetail", "WebhookDelivery"}
    ensures ProcessModel(name, lines) == lines
  {
    NotListedForOrg(name);
    hide ORG_ONLY;
    assert Listed(name) == Some([]);
    assert Wanted(name, lines) == [];
  }

  lemma NotListedForOrg(name: string)
    requires name in {"Organization", "Role", "EmployeeDocument", "SalaryStructure", "Payslip", "BankDetail", "WebhookDelivery"}
    ensures name !in ORG_ONLY && name in NOTHING_TO_ADD
  {
    if
    case name == "Organization" =>
    case name == "Role" =>
    case name == "EmployeeDocument" =>
    case name == "SalaryStructure" =>
    case name == "Payslip" =>
    case name == "BankDetail" =>
    case name == "WebhookDelivery" =>
  }

  /** The models listed for more. */
  lemma SpecialModels(lines: seq<string>)
    requires lines != []
    ensures Gets(ProcessModel("Lead", lines), lines,
              ["@@index([organizationId])", "@@index([stage])", "@@index([assignedToId])"])
    ensures Gets(ProcessModel("Task", lines), lines,
              ["@@index([organizationId])", "@@index([status])", "@@index([projectId])", "@@index([assignedToId])", "@@index([sprintId])"])
    ensures Gets(ProcessModel("Invoice", lines), lines,
              ["@@index([organizationId])", "@@index([status])", "@@index([clientId])", "@@index([dueDate])"])
    ensures Gets(ProcessModel("Ticket", lines), lines,
              ["@@index([organizationId])", "@@index([status])", "@@index([assignedToId])", "@@index([clientId])"])
    ensures Gets(ProcessModel("Employee", lines), lines,
              ["@@index([organizationId])", "@@index([status])", "@@index([department])"])
    ensures Gets(ProcessModel("WorkflowRun", lines), lines, ["@@index([workflowId, startedAt])"])
    ensures Gets(ProcessModel("ApiRequestLog", lines), lines, ["@@index([organizationId, createdAt])"])
  {
    hide ProcessModel, Gets;
    OrgText();
    LeadTexts();
    TaskTexts();
    InvoiceTexts();
    OtherTexts();
    RunTexts();
    LogTexts();
    SpecialNames(lines);
    hide Index, Wanted;
    ListedGets("Lead", lines, Wanted("Lead", lines));
    ListedGets("Task", lines, Wanted("Task", lines));
    ListedGets("Invoice", lines, Wanted("Invoice", lines));
    ListedGets("Ticket", lines, Wanted("Ticket", lines));
    ListedGets("Employee", lines, Wanted("Employee", lines));
    ListedGets("WorkflowRun", lines, Wanted("WorkflowRun", lines));
    ListedGets("ApiRequestLog", lines, Wanted("ApiRequestLog", lines));
  }

  lemma SpecialNames(lines: seq<string>)
    ensures Wanted("Lead", lines) == [Index(ORG), Index("stage"), Index("assignedToId")]
    ensures Wanted("Task", lines) == [Index(ORG), Index("status"), Index("projectId"), Index("assignedToId"), Index("sprintId")]
    ensures Wanted("Invoice", lines) == [Index(ORG), Index("status"), Index("clientId"), Index("dueDate")]
    ensures Wanted("Ticket", lines) == [Index(ORG), Index("status"), Index("assignedToId"), Index("clientId")]
    ensures Wanted("Employee", lines) == [Index(ORG), Index("status"), Index("department")]
    ensures Wanted("WorkflowRun", lines) == [Index("workflowId, startedAt")]
    ensures Wanted("ApiRequestLog", lines) == [Index("organizationId, createdAt")]
  {
    hide Index;
    SpecialIsListed("Lead");
    SpecialIsListed("Task");
    SpecialIsListed("Invoice");
    SpecialIsListed("Ticket");
    SpecialIsListed("Employee");
    SpecialIsListed("WorkflowRun");
    SpecialIsListed("ApiRequestLog");
    hide ORG_ONLY, NOTHING_TO_ADD;
  }

  lemma SpecialIsListed(name: string)
    requires name in {"Lead", "Task", "Invoice", "Ticket", "Employee", "WorkflowRun", "ApiRequestLog"}
    ensures name !in ORG_ONLY && name !in NOTHING_TO_ADD
  {
  }

  /** Every other model gets the organization index if it has the column, and else is left alone. */
  lemma OtherModels(name: string, lines: seq<string>)
    requires lines != []
    requires name !in {"User", "Portfolio", "Service", "Testimonial", "Page", "Contact", "Client", "Quote", "FollowUp", "Project", "Sprint",
      "TimeLog", "Milestone", "Payment", "Subscription", "Expense", "Document", "DocumentFolder", "Faq", "Notification", "Attendance",
      "LeaveRequest", "Recruitment", "AiProposalRequest", "AiSeoAudit", "AiEmailDraft", "AiMeetingSummary", "AiKnowledgeEmbedding",
      "RevenueRollup", "ClientRollup", "TeamPerformanceRollup", "Workflow", "ApiKey", "Webhook"}
    requires name !in {"Organization", "Role", "EmployeeDocument", "SalaryStructure", "Payslip", "BankDetail", "WebhookDelivery"}
    requires name !in {"Lead", "Task", "Invoice", "Ticket", "Employee", "WorkflowRun", "ApiRequestLog"}
    ensures (exists i :: 0 <= i < |lines| && "organizationId " <= Trim(lines[i])) ==>
      Gets(ProcessModel(name, lines), lines, ["@@index([organizationId])"])
    ensures (forall i :: 0 <= i < |lines| ==> !("organizationId " <= Trim(lines[i]))) ==> ProcessModel(name, lines) == lines
  {
    OrgText();
    assert Listed(name) == None;
    if exists i :: 0 <= i < |lines| && "organizationId " <= Trim(lines[i]) {
      var i :| 0 <= i < |lines| && "organizationId " <= Trim(lines[i]);
      assert IsOrgLine(lines[i]);
      hide ProcessModel, Gets;
      ListedGets(name, lines, ["@@index([organizationId])"]);
    } else {
      assert Wanted(name, lines) == [];
    }
  }

  // ----- How often an index ends up there -----

  /** Each of the indexes a model gets is then there as often as before, but at least once. */
  lemma EachIsThere(out: seq<string>, lines: seq<string>, indexes: seq<string>, index: string)
    requires Gets(out, lines, indexes) && (forall i, j :: 0 <= i < j < |indexes| ==> indexes[i] != indexes[j])
    requires forall i :: 0 <= i < |indexes| ==> indexes[i] != "" && !IsSpace(indexes[i][0]) && !IsSpace(indexes[i][|indexes[i]| - 1])
    ensures P.Multiplicity(out, index) ==
      if index in indexes && P.Multiplicity(lines, index) == 0 then 1 else P.Multiplicity(lines, index)
  {
    var at: nat :| IsPlace(lines, at) && out == lines[..at] + Lacking(indexes, lines) + lines[at..];
    hide P.Multiplicity, Lacking, Gets, IsPlace, HasLine, IsSpace;
    BlockOften(lines, at, Lacking(indexes, lines), index);
    LackingOften(indexes, lines, index);
    HasLineOften(lines, index);
  }

  lemma BlockOften(lines: seq<string>, at: nat, block: seq<string>, index: string)
    requires at <= |lines|
    ensures P.Multiplicity(lines[..at] + block + lines[at..], index) == P.Multiplicity(lines, index) + P.Multiplicity(block, index)
  {
    hide P.Multiplicity;
    P.MultiplicityConcat(lines[..at] + block, lines[at..], index);
    P.MultiplicityConcat(lines[..at], block, index);
    P.MultiplicityConcat(lines[..at], lines[at..], index);
    assert lines[..at] + lines[at..] == lines;
  }

  lemma {:induction false} HasLineOften(lines: seq<string>, text: string)
    ensures HasLine(lines, text) <==> P.Multiplicity(lines, text) > 0
  {
    if lines != [] {
      HasLineOften(lines[1..], text);
      if HasLine(lines, text) {
        var i :| 0 <= i < |lines| && Trim(lines[i]) == text;
        if i > 0 { assert lines[1..][i - 1] == lines[i]; }
      }
      if HasLine(lines[1..], text) {
        var i :| 0 <= i < |lines[1..]| && Trim(lines[1..][i]) == text;
        assert lines[i + 1] == lines[1..][i];
      }
    }
  }

  lemma {:induction false} LackingOften(indexes: seq<string>, lines: seq<string>, index: string)
    requires forall i, j :: 0 <= i < j < |indexes| ==> indexes[i] != indexes[j]
    requires forall i :: 0 <= i < |indexes| ==> indexes[i] != "" && !IsSpace(indexes[i][0]) && !IsSpace(indexes[i][|indexes[i]| - 1])
    ensures P.Multiplicity(Lacking(indexes, lines), index) == if index in indexes && !HasLine(lines, index) then 1 else 0
  {
    hide HasLine;
    if indexes != [] {
      var first, rest := indexes[0], indexes[1..];
      LackingOften(rest, lines, index);
      assert indexes == [first] + rest && first !in rest;
      if !HasLine(lines, first) {
        TrimStrips("  ", first, "");
        assert "  " + first + "" == "  " + first;
        P.MultiplicityConcat(["  " + first], Lacking(rest, lines), index);
        assert ["  " + first][1..] == [];
        assert P.Multiplicity(["  " + first], index) == if first == index then 1 else 0;
      } else {
        assert [] + Lacking(rest, lines) == Lacking(rest, lines);
      }
    }
  }

  // ----- Reading the text -----

  /** The name of a model is the second word of its line. */
  lemma {:induction false} NameIsSecondWord(name: string, rest: string)
    requires ' ' !in name
    ensures StartsModel("model " + name + " " + rest) && ModelName("model " + name + " " + rest) == name
    ensures StartsModel("model " + name) && ModelName("model " + name) == name
  {
    assert ("model " + name + " " + rest)[6..] == name + " " + rest && ("model " + name)[6..] == name;
    UpTo(name, rest);
  }

  lemma {:induction false} UpTo(name: string, rest: string)
    requires ' ' !in name
    ensures UpToSpace(name + " " + rest) == name && UpToSpace(name) == name
  {
    if name == "" {
      assert ("" + " " + rest)[0] == ' ';
    } else {
      UpTo(name[1..], rest);
      assert (name + " " + rest)[1..] == name[1..] + " " + rest;
      assert [name[0]] + name[1..] == name;
    }
  }

  /** Outside models the lines stay as they are; a model is processed up to its first line that begins with a brace; one
      that meets the next model before, or the end of the text, is dropped. */
  lemma EmitReads(name: string, tail: string, body: seq<string>, closing: string, rest: seq<string>)
    requires name != "" && ' ' !in name
    requires forall i :: 0 <= i < |body| ==> !("model " <= body[i]) && !("}" <= body[i])
    requires "}" <= closing
    ensures var header := "model " + name + " " + tail;
      && Emit([header] + body + [closing] + rest) == ProcessModel(name, [header] + body + [closing]) + Emit(rest)
      && Emit([header] + body) == []
      && (rest != [] && "model " <= rest[0] ==> Emit([header] + body + rest) == Emit(rest))
  {
    hide ProcessModel;
    var header := "model " + name + " " + tail;
    NameIsSecondWord(name, tail);
    var section := [header] + body + [closing];
    forall i | 0 < i < |section| - 1
      ensures !StartsModel(section[i]) && !Closes(section[i])
    {
      assert section[i] == body[i - 1];
    }
    hide ModelName;
    P.EmitSection(section, rest);
    EndOfOpen([header], body, [], 0);
    assert [header] + body + [] == [header] + body;
    assert ([header] + body)[|body| + 1..] == [];
    if rest != [] && "model " <= rest[0] {
      EndOfOpen([header], body, rest, 0);
      assert ([header] + body + rest)[|body| + 1..] == rest;
      assert ([header] + body + rest)[|body| + 1] == rest[0];
    }
  }

  lemma {:induction false} EndOfOpen(header: seq<string>, body: seq<string>, rest: seq<string>, n: nat)
    requires |header| == 1 && n <= |body|
    requires forall i :: 0 <= i < |body| ==> !StartsModel(body[i]) && !Closes(body[i])
    requires rest != [] ==> StartsModel(rest[0])
    ensures EndOf(header + body + rest, n + 1) == |body| + 1
    decreases |body| - n
  {
    var lines := header + body + rest;
    if n < |body| {
      assert lines[n + 1] == body[n];
      EndOfOpen(header, body, rest, n + 1);
    } else if rest != [] {
      assert lines[n + 1] == rest[0];
    }
  }

  /** A model without a name is not one: its first line is dropped and what follows is read as if it were outside. */
  lemma EmitNameless(tail: string, rest: seq<string>)
    ensures Emit(["model  " + tail] + rest) == Emit(rest) && Emit(["model "] + rest) == Emit(rest)
  {
    NameIsSecondWord("", tail);
    assert "model " + "" + " " + tail == "model  " + tail && "model " + "" == "model ";
    hide ModelName;
    assert (["model  " + tail] + rest)[1..] == rest && (["model "] + rest)[1..] == rest;
  }

  /** A line outside models. */
  lemma EmitKeepsLine(line: string, rest: seq<string>)
    requires !("model " <= line)
    ensures Emit([line] + rest) == [line] + Emit(rest) && Emit([]) == []
  {
    assert ([line] + rest)[1..] == rest;
  }
}
