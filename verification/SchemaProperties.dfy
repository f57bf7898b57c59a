/** What the schema rewriter promises: it settles after one run on every text, and on a schema whose
    models are all closed it only inserts, and inserts just what is missing. */
module SchemaProperties {
  import opened Common
  import opened SchemaText
  import opened SchemaRewriter

  // ----- Trimming -----

  lemma {:induction false} TrimEndIsPrefix(s: string)
    ensures TrimEnd(s) <= s
  {
    if s != "" && IsSpace(s[|s| - 1]) { TrimEndIsPrefix(s[..|s| - 1]); }
  }

  /** A line that starts a model trims to something that starts like one. */
  lemma ModelLineIsPlain(line: string)
    requires StartsModel(line)
    ensures !IsOrgLine(line) && !IsSchemaLine(line) && !IsIndexLine(line)
  {
    assert line[0] == 'm' && TrimStart(line) == line;
    TrimEndIsPrefix(line);
    assert "organizationId "[0] == 'o' && "@@schema"[0] == '@' && "@@index"[0] == '@';
  }

  /** The text of an index: what the script inserts, without its two spaces. */
  predicate IsIndexText(w: string) {
    |w| > 7 && "@@index" <= w && w[|w| - 1] == ')' && '\n' !in w
  }

  lemma InsertedLine(w: string)
    requires IsIndexText(w)
    ensures Trim("  " + w) == w
    ensures !StartsModel("  " + w) && !Closes("  " + w) && '\n' !in "  " + w
    ensures IsIndexLine("  " + w) && !IsOrgLine("  " + w) && !IsSchemaLine("  " + w)
  {
    var line := "  " + w;
    assert w[0] == "@@index"[0] == '@' && !IsSpace('@') && !IsSpace(')') && IsSpace(' ');
    assert line[1..] == " " + w && line[1..][1..] == w;
    assert TrimStart(line) == TrimStart(" " + w) == TrimStart(w) == w;
    assert TrimEnd(w) == w;
    assert "organizationId "[0] == 'o' && "@@schema"[2] == 's' && "@@index"[2] == 'i';
    assert w[2] == 'i';
  }

  lemma WantedAreIndexTexts(name: string, lines: seq<string>)
    ensures var wanted := Wanted(name, lines);
      && (forall i :: 0 <= i < |wanted| ==> IsIndexText(wanted[i]))
      && (forall i, j :: 0 <= i < j < |wanted| ==> wanted[i] != wanted[j])
  {
    var wanted := Wanted(name, lines);
    if Listed(name).Some? {
      var columns := Listed(name).value;
      forall i | 0 <= i < |wanted|
        ensures IsIndexText(wanted[i]) && |wanted[i]| == |columns[i]| + 11
      {
        IndexIsText(columns[i]);
      }
    } else {
      IndexIsText(ORG);
    }
  }

  lemma IndexIsText(columns: string)
    requires '\n' !in columns
    ensures IsIndexText(Index(columns)) && |Index(columns)| == |columns| + 11
  {
    var w := Index(columns);
    assert w[..7] == "@@index";
    assert forall i :: 0 <= i < |columns| ==> w[i + 9] == columns[i];
  }

  // ----- One model -----

  /** A model from its first line to the line that closes it. */
  ghost predicate IsSection(lines: seq<string>) {
    && |lines| >= 2
    && StartsModel(lines[0]) && ModelName(lines[0]) != ""
    && (forall i :: 0 < i < |lines| - 1 ==> !StartsModel(lines[i]) && !Closes(lines[i]))
    && Closes(lines[|lines| - 1])
  }

  lemma {:induction false} MissingAre(wanted: seq<string>, lines: seq<string>)
    requires forall i :: 0 <= i < |wanted| ==> IsIndexText(wanted[i])
    ensures var ins := Missing(wanted, lines);
      && (forall k :: 0 <= k < |ins| ==> exists i :: 0 <= i < |wanted| && ins[k] == "  " + wanted[i])
      && (forall i :: 0 <= i < |wanted| && !Has(lines, wanted[i]) ==> "  " + wanted[i] in ins)
  {
    if wanted != [] {
      var init := wanted[..|wanted| - 1];
      MissingAre(init, lines);
      forall i | 0 <= i < |wanted| && !Has(lines, wanted[i])
        ensures "  " + wanted[i] in Missing(wanted, lines)
      {
        if i < |init| { assert wanted[i] == init[i]; }
      }
      var ins := Missing(wanted, lines);
      forall k | 0 <= k < |ins|
        ensures exists i :: 0 <= i < |wanted| && ins[k] == "  " + wanted[i]
      {
        if k < |Missing(init, lines)| {
          var i :| 0 <= i < |init| && ins[k] == "  " + init[i];
          assert ins[k] == "  " + wanted[i];
        } else {
          assert ins[k] == "  " + wanted[|wanted| - 1];
        }
      }
    }
  }

  /** A line that starts and closes no model and says nothing the script looks for elsewhere. */
  predicate IsPlainInsert(line: string) {
    !StartsModel(line) && !Closes(line) && '\n' !in line && !IsOrgLine(line) && !IsSchemaLine(line)
  }

  /** The inserted lines are index lines and nothing else. */
  lemma MissingAreInserted(name: string, lines: seq<string>)
    ensures forall l :: l in Missing(Wanted(name, lines), lines) ==> IsPlainInsert(l)
  {
    var wanted := Wanted(name, lines);
    var ins := Missing(wanted, lines);
    WantedAreIndexTexts(name, lines);
    MissingAre(wanted, lines);
    forall k | 0 <= k < |ins|
      ensures IsPlainInsert(ins[k])
    {
      var i :| 0 <= i < |wanted| && ins[k] == "  " + wanted[i];
      InsertedLine(wanted[i]);
    }
  }

  /** The insertion point is inside the model. */
  lemma InsertAtInside(lines: seq<string>)
    requires IsSection(lines)
    ensures 1 <= InsertAt(lines) <= |lines| - 1
  {
    ModelLineIsPlain(lines[0]);
  }

  /** A processed model is a model of the same name. */
  lemma ProcessedIsSection(name: string, lines: seq<string>)
    requires IsSection(lines)
    ensures var p := ProcessModel(name, lines);
      IsSection(p) && p[0] == lines[0]
  {
    hide InsertAt, Missing, Wanted, ModelName, StartsModel, Closes, IsOrgLine, IsSchemaLine;
    InsertAtInside(lines);
    MissingAreInserted(name, lines);
    var k, ins := InsertAt(lines), Missing(Wanted(name, lines), lines);
    var p := ProcessModel(name, lines);
    assert p[|p| - 1] == lines[|lines| - 1];
    forall i | 0 < i < |p| - 1
      ensures !StartsModel(p[i]) && !Closes(p[i])
    {
      if i < k {
        assert p[i] == lines[i];
      } else if i < k + |ins| {
        assert p[i] == ins[i - k];
        assert ins[i - k] in ins;
      } else {
        assert p[i] == lines[i - |ins|] && 0 < i - |ins| < |lines| - 1;
      }
    }
  }

  /** Where a line of the model is after processing, and where a line of the result comes from. */
  lemma ProcessedLines(name: string, lines: seq<string>, i: nat)
    requires lines != []
    ensures var p, ins := ProcessModel(name, lines), Missing(Wanted(name, lines), lines);
      && |p| == |lines| + |ins|
      && (i < |lines| ==> exists j :: 0 <= j < |p| && p[j] == lines[i])
      && (i < |ins| ==> exists j :: 0 <= j < |p| && p[j] == ins[i])
      && (i < |p| ==> (exists j :: 0 <= j < |lines| && p[i] == lines[j]) || (exists j :: 0 <= j < |ins| && p[i] == ins[j]))
  {
    hide InsertAt, Wanted, Missing;
    var k, ins, p := InsertAt(lines), Missing(Wanted(name, lines), lines), ProcessModel(name, lines);
    if i < |lines| { assert p[if i < k then i else i + |ins|] == lines[i]; }
    if i < |ins| { assert p[k + i] == ins[i]; }
    if i < k { assert p[i] == lines[i]; }
    else if i < k + |ins| { assert p[i] == ins[i - k]; }
    else if i < |p| { assert p[i] == lines[i - |ins|]; }
  }

  /** Inserting indexes does not change what is wanted. */
  lemma ProcessedWantsTheSame(name: string, lines: seq<string>)
    requires lines != []
    ensures Wanted(name, ProcessModel(name, lines)) == Wanted(name, lines)
  {
    var p, ins := ProcessModel(name, lines), Missing(Wanted(name, lines), lines);
    MissingAreInserted(name, lines);
    if HasOrgId(lines) {
      var i :| 0 <= i < |lines| && IsOrgLine(lines[i]);
      ProcessedLines(name, lines, i);
    }
    if HasOrgId(p) {
      var i :| 0 <= i < |p| && IsOrgLine(p[i]);
      ProcessedLines(name, lines, i);
    }
  }

  lemma ProcessedHasAll(name: string, lines: seq<string>, w: string)
    requires lines != [] && w in Wanted(name, lines)
    ensures Has(ProcessModel(name, lines), w)
  {
    var wanted := Wanted(name, lines);
    var ins, p := Missing(wanted, lines), ProcessModel(name, lines);
    WantedAreIndexTexts(name, lines);
    MissingAre(wanted, lines);
    var n :| 0 <= n < |wanted| && wanted[n] == w;
    if Has(lines, w) {
      var i :| 0 <= i < |lines| && IsIndexLine(lines[i]) && Trim(lines[i]) == w;
      ProcessedLines(name, lines, i);
    } else {
      var k :| 0 <= k < |ins| && ins[k] == "  " + w;
      InsertedLine(w);
      ProcessedLines(name, lines, k);
    }
  }

  lemma {:induction false} NothingMissing(wanted: seq<string>, lines: seq<string>)
    requires forall i :: 0 <= i < |wanted| ==> Has(lines, wanted[i])
    ensures Missing(wanted, lines) == []
  {
    if wanted != [] { NothingMissing(wanted[..|wanted| - 1], lines); }
  }

  /** Processing a model twice is processing it once. */
  lemma ProcessAgain(name: string, lines: seq<string>)
    requires lines != []
    ensures ProcessModel(name, ProcessModel(name, lines)) == ProcessModel(name, lines)
  {
    var p := ProcessModel(name, lines);
    ProcessedWantsTheSame(name, lines);
    var wanted := Wanted(name, lines);
    forall i | 0 <= i < |wanted|
      ensures Has(p, wanted[i])
    {
      ProcessedHasAll(name, lines, wanted[i]);
    }
    hide Has, Wanted, InsertAt;
    NothingMissing(wanted, p);
    hide Missing;
    var k := InsertAt(p);
    assert p[..k] + [] + p[k..] == p;
  }

  // ----- The whole text -----

  lemma {:induction false} EndOfSection(section: seq<string>, rest: seq<string>, from: nat)
    requires IsSection(section) && 1 <= from <= |section| - 1
    ensures EndOf(section + rest, from) == |section| - 1
    decreases |section| - from
  {
    var lines := section + rest;
    assert lines[from] == section[from];
    if from < |section| - 1 { EndOfSection(section, rest, from + 1); }
  }

  lemma EmitSection(section: seq<string>, rest: seq<string>)
    requires IsSection(section)
    ensures Emit(section + rest) == ProcessModel(ModelName(section[0]), section) + Emit(rest)
  {
    var lines := section + rest;
    EndOfSection(section, rest, 1);
    assert lines[..|section|] == section && lines[|section|..] == rest;
    assert lines[0] == section[0] && lines[|section| - 1] == section[|section| - 1];
  }

  lemma SectionStarts(lines: seq<string>)
    requires StartsSection(lines)
    ensures IsSection(lines[..EndOf(lines, 1) + 1])
  {
  }

  /** The output is read back as the same closed models. */
  lemma {:induction false} EmitSettles(lines: seq<string>)
    ensures Emit(Emit(lines)) == Emit(lines)
    decreases |lines|
  {
    if lines != [] {
      if !StartsModel(lines[0]) {
        EmitSettles(lines[1..]);
        assert ([lines[0]] + Emit(lines[1..]))[1..] == Emit(lines[1..]);
      } else if ModelName(lines[0]) == "" {
        EmitSettles(lines[1..]);
      } else {
        var j := EndOf(lines, 1);
        if StartsSection(lines) {
          var name, section := ModelName(lines[0]), lines[..j + 1];
          SectionStarts(lines);
          ProcessedIsSection(name, section);
          ProcessAgain(name, section);
          EmitSection(ProcessModel(name, section), Emit(lines[j + 1..]));
          EmitSettles(lines[j + 1..]);
        } else {
          EmitSettles(lines[j..]);
        }
      }
    }
  }

  predicate NoNewlines(lines: seq<string>) {
    forall i :: 0 <= i < |lines| ==> '\n' !in lines[i]
  }

  lemma ProcessedHasNoNewline(name: string, lines: seq<string>)
    requires lines != [] && NoNewlines(lines)
    ensures NoNewlines(ProcessModel(name, lines))
  {
    var p, ins := ProcessModel(name, lines), Missing(Wanted(name, lines), lines);
    MissingAreInserted(name, lines);
    assert NoNewlines(ins) by {
      forall k | 0 <= k < |ins|
        ensures '\n' !in ins[k]
      {
        assert ins[k] in ins;
      }
      hide IsOrgLine, IsSchemaLine, StartsModel, Closes, Missing;
    }
    hide IsPlainInsert;
    forall i | 0 <= i < |p|
      ensures '\n' !in p[i]
    {
      ProcessedLines(name, lines, i);
      hide ProcessModel;
    }
  }

  lemma {:induction false} EmitHasNoNewline(lines: seq<string>)
    requires NoNewlines(lines)
    ensures NoNewlines(Emit(lines))
    decreases |lines|
  {
    hide ProcessModel, ModelName, EndOf, StartsModel, Closes;
    if lines != [] {
      if !StartsModel(lines[0]) || ModelName(lines[0]) == "" {
        EmitHasNoNewline(lines[1..]);
      } else {
        var j := EndOf(lines, 1);
        if StartsSection(lines) {
          EmitHasNoNewline(lines[j + 1..]);
          ProcessedHasNoNewline(ModelName(lines[0]), lines[..j + 1]);
        } else {
          EmitHasNoNewline(lines[j..]);
        }
      }
    }
  }

  /** Running the rewriter twice equals running it once, for every text, closed or not. */
  lemma RewriteSettles(content: string)
    ensures Rewrite(Rewrite(content)) == Rewrite(content)
  {
    var lines := Split(content);
    var out := Emit(lines);
    EmitHasNoNewline(lines);
    if out == [] {
      assert Split("") == [""];
      assert !StartsModel("");
      assert Emit([""]) == [""] + Emit([]);
    } else {
      SplitJoin(out);
      EmitSettles(lines);
    }
  }

  // ----- Only insertions -----

  /** Every model has a name and is closed before the next one starts. */
  predicate AllClosed(lines: seq<string>)
    decreases |lines|
  {
    lines == [] ||
    if !StartsModel(lines[0]) then AllClosed(lines[1..])
    else StartsSection(lines) && AllClosed(lines[EndOf(lines, 1) + 1..])
  }

  /** out is kept and added, each in its order, shuffled together. */
  predicate Shuffles(out: seq<string>, kept: seq<string>, added: seq<string>)
    decreases |out|
  {
    if out == [] then kept == [] && added == []
    else
      || (kept != [] && out[0] == kept[0] && Shuffles(out[1..], kept[1..], added))
      || (added != [] && out[0] == added[0] && Shuffles(out[1..], kept, added[1..]))
  }

  /** The lines of the input that the script keeps, and the lines it adds. */
  function Kept(lines: seq<string>): seq<string>
    decreases |lines|
  {
    if lines == [] then []
    else if !StartsModel(lines[0]) then [lines[0]] + Kept(lines[1..])
    else if ModelName(lines[0]) == "" then Kept(lines[1..])
    else
      var j := EndOf(lines, 1);
      if StartsSection(lines) then lines[..j + 1] + Kept(lines[j + 1..]) else Kept(lines[j..])
  }

  function Added(lines: seq<string>): seq<string>
    decreases |lines|
  {
    if lines == [] then []
    else if !StartsModel(lines[0]) || ModelName(lines[0]) == "" then Added(lines[1..])
    else
      var j := EndOf(lines, 1);
      if StartsSection(lines) then
        Missing(Wanted(ModelName(lines[0]), lines[..j + 1]), lines[..j + 1]) + Added(lines[j + 1..])
      else Added(lines[j..])
  }

  lemma {:induction false} ShuffleKept(prefix: seq<string>, out: seq<string>, kept: seq<string>, added: seq<string>)
    requires Shuffles(out, kept, added)
    ensures Shuffles(prefix + out, prefix + kept, added)
  {
    if prefix == [] {
      assert prefix + out == out && prefix + kept == kept;
    } else {
      ShuffleKept(prefix[1..], out, kept, added);
      assert (prefix + out)[1..] == prefix[1..] + out && (prefix + kept)[1..] == prefix[1..] + kept;
    }
  }

  lemma {:induction false} ShuffleAdded(prefix: seq<string>, out: seq<string>, kept: seq<string>, added: seq<string>)
    requires Shuffles(out, kept, added)
    ensures Shuffles(prefix + out, kept, prefix + added)
  {
    if prefix == [] {
      assert prefix + out == out && prefix + added == added;
    } else {
      ShuffleAdded(prefix[1..], out, kept, added);
      assert (prefix + out)[1..] == prefix[1..] + out && (prefix + added)[1..] == prefix[1..] + added;
    }
  }

  /** The output is the kept lines with the added lines put in between. */
  lemma {:induction false} EmitShuffles(lines: seq<string>)
    ensures Shuffles(Emit(lines), Kept(lines), Added(lines))
    decreases |lines|
  {
    if lines != [] {
      if !StartsModel(lines[0]) {
        EmitShuffles(lines[1..]);
        ShuffleKept([lines[0]], Emit(lines[1..]), Kept(lines[1..]), Added(lines[1..]));
      } else if ModelName(lines[0]) == "" {
        EmitShuffles(lines[1..]);
      } else {
        var j := EndOf(lines, 1);
        if StartsSection(lines) {
          EmitShuffles(lines[j + 1..]);
          ShuffleSection(ModelName(lines[0]), lines[..j + 1], Emit(lines[j + 1..]), Kept(lines[j + 1..]), Added(lines[j + 1..]));
        } else {
          EmitShuffles(lines[j..]);
        }
      }
    }
  }

  lemma ShuffleSection(name: string, section: seq<string>, out: seq<string>, kept: seq<string>, added: seq<string>)
    requires section != [] && Shuffles(out, kept, added)
    ensures Shuffles(ProcessModel(name, section) + out, section + kept, Missing(Wanted(name, section), section) + added)
  {
    hide Shuffles, InsertAt, Wanted, Missing;
    var k, ins := InsertAt(section), Missing(Wanted(name, section), section);
    ShuffleKept(section[k..], out, kept, added);
    ShuffleAdded(ins, section[k..] + out, section[k..] + kept, added);
    ShuffleKept(section[..k], ins + (section[k..] + out), section[k..] + kept, ins + added);
    assert section[..k] + (ins + (section[k..] + out)) == ProcessModel(name, section) + out;
    assert section[..k] + (section[k..] + kept) == section + kept;
  }

  lemma {:induction false} KeptIsShorter(lines: seq<string>)
    ensures |Kept(lines)| <= |lines|
    ensures Kept(lines) == lines <==> AllClosed(lines)
    ensures |Kept(lines)| == |lines| ==> AllClosed(lines)
    decreases |lines|
  {
    if lines != [] {
      if !StartsModel(lines[0]) {
        KeptIsShorter(lines[1..]);
        assert [lines[0]] + lines[1..] == lines;
      } else if ModelName(lines[0]) == "" {
        KeptIsShorter(lines[1..]);
      } else {
        var j := EndOf(lines, 1);
        if StartsSection(lines) {
          KeptIsShorter(lines[j + 1..]);
          assert lines[..j + 1] + lines[j + 1..] == lines;
        } else {
          KeptIsShorter(lines[j..]);
        }
      }
    }
  }

  // ----- Exactly when the output is the input with lines put in between -----

  /** How many lines start a model. */
  function Starts(lines: seq<string>): nat {
    if lines == [] then 0 else (if StartsModel(lines[0]) then 1 else 0) + Starts(lines[1..])
  }

  lemma {:induction false} StartsConcat(a: seq<string>, b: seq<string>)
    ensures Starts(a + b) == Starts(a) + Starts(b)
  {
    if a == [] {
      assert a + b == b;
    } else {
      StartsConcat(a[1..], b);
      assert (a + b)[1..] == a[1..] + b;
    }
  }

  lemma {:induction false} NoStarts(lines: seq<string>)
    requires forall i :: 0 <= i < |lines| ==> !StartsModel(lines[i])
    ensures Starts(lines) == 0
  {
    if lines != [] {
      NoStarts(lines[1..]);
    }
  }

  /** Lines put in between can only add to the models started. */
  lemma {:induction false} ShuffleStarts(out: seq<string>, kept: seq<string>, added: seq<string>)
    requires Shuffles(out, kept, added)
    ensures Starts(out) == Starts(kept) + Starts(added)
  {
    hide StartsModel;
    if out != [] {
      if kept != [] && out[0] == kept[0] && Shuffles(out[1..], kept[1..], added) {
        ShuffleStarts(out[1..], kept[1..], added);
      } else {
        ShuffleStarts(out[1..], kept, added[1..]);
      }
    }
  }

  /** Processing a model starts no other. */
  lemma ProcessedStarts(name: string, section: seq<string>)
    requires section != []
    ensures Starts(ProcessModel(name, section)) == Starts(section)
  {
    var k, ins := InsertAt(section), Missing(Wanted(name, section), section);
    MissingAreInserted(name, section);
    forall i | 0 <= i < |ins|
      ensures !StartsModel(ins[i])
    {
      assert ins[i] in ins;
    }
    NoStarts(ins);
    hide InsertAt, Missing, Wanted, Starts;
    StartsConcat(section[..k] + ins, section[k..]);
    StartsConcat(section[..k], ins);
    StartsConcat(section[..k], section[k..]);
    assert section[..k] + section[k..] == section;
  }

  /** A model that is not closed, or has no name, is missing from the output. */
  lemma {:induction false} UnclosedIsMissing(lines: seq<string>)
    ensures Starts(Emit(lines)) <= Starts(lines)
    ensures !AllClosed(lines) ==> Starts(Emit(lines)) < Starts(lines)
    decreases |lines|
  {
    hide ModelName, ProcessModel, EndOf, StartsModel;
    if lines != [] {
      StartsOfFirst(lines[0], lines[1..]);
      assert [lines[0]] + lines[1..] == lines;
      if !StartsModel(lines[0]) {
        UnclosedIsMissing(lines[1..]);
        StartsOfFirst(lines[0], Emit(lines[1..]));
        hide Starts;
      } else if ModelName(lines[0]) == "" {
        UnclosedIsMissing(lines[1..]);
        hide Starts;
      } else {
        var j := EndOf(lines, 1);
        if StartsSection(lines) {
          UnclosedIsMissing(lines[j + 1..]);
          ClosedStarts(ModelName(lines[0]), lines, j);
          hide Starts, StartsSection;
        } else {
          UnclosedIsMissing(lines[j..]);
          StartsConcat(lines[..j], lines[j..]);
          StartsOfFirst(lines[0], lines[1..j]);
          assert lines == lines[..j] + lines[j..] && lines[..j] == [lines[0]] + lines[1..j];
          hide Starts, StartsSection;
        }
      }
    }
  }

  lemma StartsOfFirst(line: string, rest: seq<string>)
    ensures Starts([line] + rest) == (if StartsModel(line) then 1 else 0) + Starts(rest)
  {
    assert ([line] + rest)[1..] == rest;
  }

  lemma ClosedStarts(name: string, lines: seq<string>, j: nat)
    requires j < |lines|
    ensures Starts(ProcessModel(name, lines[..j + 1]) + Emit(lines[j + 1..])) - Starts(Emit(lines[j + 1..])) == Starts(lines) - Starts(lines[j + 1..])
  {
    var section := lines[..j + 1];
    ProcessedStarts(name, section);
    hide Starts, ProcessModel, Emit;
    StartsConcat(ProcessModel(name, section), Emit(lines[j + 1..]));
    StartsConcat(section, lines[j + 1..]);
    assert section + lines[j + 1..] == lines;
  }

  /** The output is the input with lines put in between exactly when every model of the input has a
      name and is closed before the next one starts; the lines put in are then the missing indexes. */
  lemma OnlyInsertsExactly(lines: seq<string>)
    ensures (exists added :: Shuffles(Emit(lines), lines, added)) <==> AllClosed(lines)
    ensures AllClosed(lines) ==> Shuffles(Emit(lines), lines, Added(lines))
  {
    if AllClosed(lines) {
      EmitShuffles(lines);
      KeptIsShorter(lines);
      hide Shuffles, Emit, Added;
      assert Shuffles(Emit(lines), lines, Added(lines));
    } else {
      UnclosedIsMissing(lines);
      forall added
        ensures !Shuffles(Emit(lines), lines, added)
      {
        if Shuffles(Emit(lines), lines, added) {
          ShuffleStarts(Emit(lines), lines, added);
        }
      }
    }
  }

  /** A text that loses lines: a model that is never closed leaves nothing. */
  lemma UnclosedTextIsLost()
    ensures var lines := ["model A {", "  id Int"]; !AllClosed(lines) && Emit(lines) == []
  {
    var lines := ["model A {", "  id Int"];
    assert "model "[0] == 'm' && "model A {"[..6] == "model " && "  id Int"[0] == ' ' && "}"[0] == '}';
    var name := ModelName(lines[0]);
    assert name[0] == 'A' by { assert "model A {"[6..][0] == 'A'; }
    assert !StartsModel(lines[1]) && !Closes(lines[1]);
    assert EndOf(lines, 2) == 2 && EndOf(lines, 1) == 2;
    assert lines[2..] == [];
  }

  /** Whatever the input, the models of the output are all closed. */
  lemma {:induction false} EmitIsClosed(lines: seq<string>)
    ensures AllClosed(Emit(lines))
    decreases |lines|
  {
    if lines != [] {
      if !StartsModel(lines[0]) {
        EmitIsClosed(lines[1..]);
        assert ([lines[0]] + Emit(lines[1..]))[1..] == Emit(lines[1..]);
      } else if ModelName(lines[0]) == "" {
        EmitIsClosed(lines[1..]);
      } else {
        var j := EndOf(lines, 1);
        if StartsSection(lines) {
          EmitIsClosed(lines[j + 1..]);
          SectionStarts(lines);
          ProcessedIsSection(ModelName(lines[0]), lines[..j + 1]);
          ClosedSection(ProcessModel(ModelName(lines[0]), lines[..j + 1]), Emit(lines[j + 1..]));
        } else {
          EmitIsClosed(lines[j..]);
        }
      }
    }
  }

  lemma ClosedSection(section: seq<string>, rest: seq<string>)
    requires IsSection(section) && AllClosed(rest)
    ensures AllClosed(section + rest)
  {
    var lines := section + rest;
    EndOfSection(section, rest, 1);
    assert lines[0] == section[0] && lines[|section| - 1] == section[|section| - 1];
    assert lines[|section|..] == rest;
    assert "}"[0] == '}' && "model "[0] == 'm' && lines[|section| - 1][0] == '}';
    assert StartsSection(lines);
    hide StartsSection, IsSection;
  }

  lemma {:induction false} ShuffleLengths(out: seq<string>, kept: seq<string>, added: seq<string>)
    requires Shuffles(out, kept, added)
    ensures |out| == |kept| + |added|
    ensures added == [] ==> out == kept
  {
    if out != [] {
      if kept != [] && out[0] == kept[0] && Shuffles(out[1..], kept[1..], added) {
        ShuffleLengths(out[1..], kept[1..], added);
      } else {
        ShuffleLengths(out[1..], kept, added[1..]);
      }
    }
  }

  /** A text is left exactly as it is when its models are all closed and lack nothing. */
  lemma LeftAloneExactly(content: string)
    ensures Rewrite(content) == content <==> AllClosed(Split(content)) && Added(Split(content)) == []
  {
    var lines := Split(content);
    var out := Emit(lines);
    EmitShuffles(lines);
    KeptIsShorter(lines);
    ShuffleLengths(out, Kept(lines), Added(lines));
    JoinSplit(content);
    if Rewrite(content) == content {
      EmitHasNoNewline(lines);
      if out != [] {
        SplitJoin(out);
        assert out == lines;
        EmitIsClosed(lines);
      }
    }
  }

  // ----- What one model gets -----

  /** How many lines of the model are this index. */
  function Multiplicity(lines: seq<string>, index: string): nat {
    if lines == [] then 0
    else Multiplicity(lines[1..], index) + if Trim(lines[0]) == index then 1 else 0
  }

  lemma {:induction false} MultiplicityConcat(a: seq<string>, b: seq<string>, index: string)
    ensures Multiplicity(a + b, index) == Multiplicity(a, index) + Multiplicity(b, index)
  {
    if a == [] {
      assert a + b == b;
    } else {
      MultiplicityConcat(a[1..], b, index);
      assert (a + b)[1..] == a[1..] + b;
    }
  }

  lemma {:induction false} HasIsMultiplicity(lines: seq<string>, index: string)
    requires IsIndexText(index)
    ensures Has(lines, index) <==> Multiplicity(lines, index) > 0
  {
    if lines != [] {
      HasIsMultiplicity(lines[1..], index);
      assert forall i :: 0 < i < |lines| ==> lines[i] == lines[1..][i - 1];
      if Has(lines, index) {
        var i :| 0 <= i < |lines| && IsIndexLine(lines[i]) && Trim(lines[i]) == index;
        if i > 0 { assert lines[1..][i - 1] == lines[i]; }
      }
      if Has(lines[1..], index) {
        var i :| 0 <= i < |lines[1..]| && IsIndexLine(lines[1..][i]) && Trim(lines[1..][i]) == index;
        assert lines[i + 1] == lines[1..][i];
      }
    }
  }

  lemma {:induction false} MissingMultiplicity(wanted: seq<string>, lines: seq<string>, index: string)
    requires forall i :: 0 <= i < |wanted| ==> IsIndexText(wanted[i])
    requires forall i, j :: 0 <= i < j < |wanted| ==> wanted[i] != wanted[j]
    ensures Multiplicity(Missing(wanted, lines), index) == if index in wanted && !Has(lines, index) then 1 else 0
  {
    if wanted != [] {
      var init, last := wanted[..|wanted| - 1], wanted[|wanted| - 1];
      MissingMultiplicity(init, lines, index);
      assert wanted == init + [last];
      assert last !in init;
      if !Has(lines, last) {
        MultiplicityConcat(Missing(init, lines), ["  " + last], index);
        InsertedLine(last);
        assert Multiplicity(["  " + last], index) == if last == index then 1 else 0;
      }
    }
  }

  lemma ProcessedMultiplicity(name: string, lines: seq<string>, index: string)
    requires lines != []
    ensures Multiplicity(ProcessModel(name, lines), index) ==
      if index in Wanted(name, lines) && Multiplicity(lines, index) == 0 then 1 else Multiplicity(lines, index)
  {
    hide Multiplicity, InsertAt, IsIndexText, Wanted;
    var k, wanted := InsertAt(lines), Wanted(name, lines);
    var ins := Missing(wanted, lines);
    WantedAreIndexTexts(name, lines);
    MissingMultiplicity(wanted, lines, index);
    if index in wanted { HasIsMultiplicity(lines, index); }
    hide Missing, Has;
    MultiplicityConcat(lines[..k] + ins, lines[k..], index);
    MultiplicityConcat(lines[..k], ins, index);
    MultiplicityConcat(lines[..k], lines[k..], index);
    assert lines[..k] + lines[k..] == lines;
  }

  /** One model: its missing indexes go in as one block, before its first @@schema line or else
      before the line that closes it; each wanted index is then there as often as before, but at
      least once, and every other line as often as before. */
  lemma SectionGetsTheMissing(name: string, lines: seq<string>, index: string)
    requires IsSection(lines)
    ensures
      var p, wanted, k := ProcessModel(name, lines), Wanted(name, lines), InsertAt(lines);
      && 1 <= k < |lines|
      && (if exists i :: 0 <= i < |lines| && IsSchemaLine(lines[i])
          then IsSchemaLine(lines[k]) && forall i :: 0 <= i < k ==> !IsSchemaLine(lines[i])
          else k == |lines| - 1)
      && |p| >= |lines| && p[..k] == lines[..k] && p[k + |p| - |lines|..] == lines[k..]
      && Multiplicity(p, index) ==
           if index in wanted && Multiplicity(lines, index) == 0 then 1 else Multiplicity(lines, index)
  {
    hide Multiplicity, Wanted, Missing, IsSchemaLine;
    var k, wanted := InsertAt(lines), Wanted(name, lines);
    var ins, p := Missing(wanted, lines), ProcessModel(name, lines);
    InsertAtInside(lines);
    assert p[..k] == lines[..k] && p[k + |ins|..] == lines[k..];
    ProcessedMultiplicity(name, lines, index);
  }
}
