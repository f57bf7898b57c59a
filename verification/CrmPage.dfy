/** The CRM page: leads in seven stages, moved at once on the screen and rolled back if the server
    refuses. Only the callbacks of the latest `mutate` run, as TanStack Query documents. */
module CrmPage {
  import opened Common
  import opened Kanban

  const STAGES: seq<string> := ["NEW", "CONTACTED", "QUALIFIED", "PROPOSAL", "NEGOTIATION", "WON", "LOST"]

  /** `data` is the list the server sent last, `latest` the snapshot the latest mutation rolls back to. */
  datatype State = State(data: seq<Item>, optimistic: Option<seq<Item>>, latest: Option<seq<Item>>)

  datatype Event =
    | Drag(draggedId: string, over: Option<string>)
    | Fails
    | Succeeds
    | NewData(data: seq<Item>)

  /** What the board shows. */
  function AllLeads(s: State): seq<Item> {
    if s.optimistic.Some? then s.optimistic.value else s.data
  }

  function OnDrag(s: State, draggedId: string, over: Option<string>): State {
    match TargetOf(STAGES, AllLeads(s), draggedId, over)
    case None => s
    case Some(target) => s.(optimistic := Some(Moved(AllLeads(s), draggedId, target)), latest := Some(AllLeads(s)))
  }

  /** Both callbacks are those of a mutation under way. */
  ghost predicate Enabled(s: State, e: Event) {
    (e.Fails? || e.Succeeds?) ==> s.latest.Some?
  }

  ghost function Step(s: State, e: Event): State
    requires Enabled(s, e)
  {
    match e
    case Drag(draggedId, over) => OnDrag(s, draggedId, over)
    case Fails => s.(optimistic := s.latest, latest := None)
    case Succeeds => s.(optimistic := None, latest := None)
    case NewData(data) => s.(data := data)
  }

  ghost function Run(start: State, es: seq<Event>): Option<State> {
    if es == [] then Some(start)
    else
      match Run(start, es[..|es| - 1])
      case None => None
      case Some(s) => if Enabled(s, es[|es| - 1]) then Some(Step(s, es[|es| - 1])) else None
  }

  class Board {
    var data: seq<Item>
    var optimisticLeads: Option<seq<Item>>
    var activeId: Option<string>
    var latest: Option<seq<Item>>

    ghost function View(): State
      reads this
    {
      State(data, optimisticLeads, latest)
    }

    constructor (data: seq<Item>)
      ensures View() == State(data, None, None)
    {
      this.data, optimisticLeads, activeId, latest := data, None, None, None;
    }

    method HandleDragStart(id: string)
      modifies this
      ensures View() == old(View()) && activeId == Some(id)
    {
      activeId := Some(id);
    }

    /** The mutation sent to the server, if the drag moves a lead. */
    method HandleDragEnd(draggedId: string, over: Option<string>) returns (mutation: Option<(string, string)>)
      modifies this
      ensures View() == OnDrag(old(View()), draggedId, over) && activeId == None
      ensures mutation == match TargetOf(STAGES, AllLeads(old(View())), draggedId, over)
        case None => None
        case Some(target) => Some((draggedId, target))
    {
      activeId := None;
      if over.None? {
        return None;
      }
      var allLeads := if optimisticLeads.Some? then optimisticLeads.value else data;
      var targetStage := over.value;
      if over.value !in STAGES {
        var overLead := First(allLeads, over.value);
        if overLead.None? || overLead.value.column == "" {
          return None;
        }
        targetStage := overLead.value.column;
      }
      var dragged := First(allLeads, draggedId);
      if dragged.None? || dragged.value.column == targetStage {
        return None;
      }
      latest := Some(allLeads);
      optimisticLeads := Some(Moved(allLeads, draggedId, targetStage));
      return Some((draggedId, targetStage));
    }

    method OnError()
      requires latest.Some?
      modifies this
      ensures View() == Step(old(View()), Fails)
      ensures optimisticLeads == old(latest) && latest == None && data == old(data)
    {
      optimisticLeads, latest := latest, None;
    }

    method OnSuccess()
      requires latest.Some?
      modifies this
      ensures View() == Step(old(View()), Succeeds)
      ensures optimisticLeads == None && latest == None && data == old(data)
    {
      optimisticLeads, latest := None, None;
    }
  }

  // ----- The board always shows cards the server sent -----

  /** Two lists with the same cards in the same places, up to the stages. */
  ghost predicate SameCards(items: seq<Item>, others: seq<Item>) {
    |items| == |others| && forall i :: 0 <= i < |items| ==> items[i] == others[i].(column := items[i].column)
  }

  lemma {:induction false} SameCardsSameTotal(items: seq<Item>, others: seq<Item>)
    requires SameCards(items, others)
    ensures TotalValue(items) == TotalValue(others) && (DistinctIds(others) ==> DistinctIds(items))
  {
    if items != [] {
      var n := |items| - 1;
      assert items[n].value == others[n].value;
      SameCardsSameTotal(items[..n], others[..n]);
    }
  }

  /** The lists the server sent. */
  function Sent(start: State, es: seq<Event>): set<seq<Item>> {
    {start.data} + set e | e in es && e.NewData? :: e.data
  }

  ghost predicate IsOf(items: seq<Item>, lists: set<seq<Item>>) {
    exists list :: list in lists && SameCards(items, list)
  }

  ghost predicate ShowsSent(s: State, lists: set<seq<Item>>) {
    && s.data in lists
    && (s.optimistic.Some? ==> IsOf(s.optimistic.value, lists))
    && (s.latest.Some? ==> IsOf(s.latest.value, lists))
  }

  lemma MovedIsOf(items: seq<Item>, id: string, target: string, lists: set<seq<Item>>)
    requires IsOf(items, lists)
    ensures IsOf(Moved(items, id, target), lists)
  {
    var list :| list in lists && SameCards(items, list);
    assert SameCards(Moved(items, id, target), list);
  }

  lemma {:induction false} RunShowsSent(start: State, es: seq<Event>)
    requires start.optimistic == start.latest == None && Run(start, es).Some?
    ensures ShowsSent(Run(start, es).value, Sent(start, es))
  {
    if es != [] {
      var before, e := es[..|es| - 1], es[|es| - 1];
      RunShowsSent(start, before);
      var s := Run(start, before).value;
      assert es == before + [e];
      var lists := Sent(start, es);
      assert Sent(start, before) <= lists;
      assert e.NewData? ==> e.data in lists;
      assert ShowsSent(s, lists);
      StepShowsSent(s, e, lists);
      hide ShowsSent, Sent, Step, Enabled;
    }
  }

  lemma StepShowsSent(s: State, e: Event, lists: set<seq<Item>>)
    requires ShowsSent(s, lists) && Enabled(s, e) && (e.NewData? ==> e.data in lists)
    ensures ShowsSent(Step(s, e), lists)
  {
    match e
    case Drag(draggedId, over) =>
      assert IsOf(AllLeads(s), lists) by {
        assert s.optimistic.None? ==> SameCards(s.data, s.data);
      }
      var target := TargetOf(STAGES, AllLeads(s), draggedId, over);
      if target.Some? {
        MovedIsOf(AllLeads(s), draggedId, target.value, lists);
      }
    case Fails =>
    case Succeeds =>
    case NewData(data) =>
  }

  /** However moves, answers and new data follow each other, the board shows one of the lists the server
      sent, but for the stages of its leads; so the pipeline value shown is the value of that list. */
  lemma PipelineTotalIsSent(start: State, es: seq<Event>)
    requires start.optimistic == start.latest == None && Run(start, es).Some?
    ensures exists list ::
      list in Sent(start, es) && SameCards(AllLeads(Run(start, es).value), list) && TotalValue(AllLeads(Run(start, es).value)) == TotalValue(list)
  {
    RunShowsSent(start, es);
    var s := Run(start, es).value;
    var shown := AllLeads(s);
    assert SameCards(s.data, s.data);
    var list :| list in Sent(start, es) && SameCards(shown, list);
    SameCardsSameTotal(shown, list);
  }

  ghost predicate MovesALead(s: State, drag: Event) {
    drag.Drag? && TargetOf(STAGES, AllLeads(s), drag.draggedId, drag.over).Some?
  }

  /** A drag that moves a lead changes two columns by that one lead and leaves the pipeline value alone. */
  lemma DragChangesTwoColumns(s: State, drag: Event)
    requires DistinctIds(AllLeads(s)) && MovesALead(s, drag)
    ensures var before, after := AllLeads(s), AllLeads(Step(s, drag));
      var lead := First(before, drag.draggedId).value;
      var target := TargetOf(STAGES, before, drag.draggedId, drag.over).value;
      && |Column(after, lead.column)| == |Column(before, lead.column)| - 1
      && |Column(after, target)| == |Column(before, target)| + 1
      && Without(Column(after, target), lead.id) == Column(before, target)
      && (forall c :: c != lead.column && c != target ==> Column(after, c) == Column(before, c))
      && TotalValue(after) == TotalValue(before)
  {
    var before := AllLeads(s);
    var lead := First(before, drag.draggedId).value;
    var target := TargetOf(STAGES, before, drag.draggedId, drag.over).value;
    FirstIs(before, drag.draggedId);
    assert SameCards(Moved(before, drag.draggedId, target), before);
    SameCardsSameTotal(Moved(before, drag.draggedId, target), before);
    hide TargetOf, Moved;
    MoveChangesTwoColumns(before, lead, target);
  }

  // ----- Rolling back -----

  /** Events between a move and its answer when drags do not overlap. */
  ghost predicate IsQuiet(e: Event) { e.NewData? }

  lemma RunConcat(start: State, es: seq<Event>, fs: seq<Event>)
    requires Run(start, es).Some?
    ensures Run(start, es + fs) == Run(Run(start, es).value, fs)
    decreases |fs|
  {
    if fs == [] {
      assert es + fs == es;
    } else {
      RunConcat(start, es, fs[..|fs| - 1]);
      assert (es + fs)[..|es + fs| - 1] == es + fs[..|fs| - 1];
    }
  }

  lemma {:induction false} QuietKeeps(s: State, es: seq<Event>)
    requires forall e <- es :: IsQuiet(e)
    ensures Run(s, es).Some? && Run(s, es).value.optimistic == s.optimistic && Run(s, es).value.latest == s.latest
  {
    if es != [] {
      QuietKeeps(s, es[..|es| - 1]);
      assert IsQuiet(es[|es| - 1]);
    }
  }

  /** If no other drag comes between, a move the server refuses restores exactly the board of before;
      and that board stays, whatever the server sends, until the next drag. */
  lemma FailedMoveRestores(s: State, drag: Event, wait: seq<Event>, later: seq<Event>)
    requires MovesALead(s, drag)
    requires (forall e <- wait :: IsQuiet(e)) && (forall e <- later :: IsQuiet(e))
    ensures var es := [drag] + wait + [Fails] + later;
      Run(s, es).Some? && AllLeads(Run(s, es).value) == AllLeads(s) && Run(s, es).value.latest == None
  {
    var moved := Step(s, drag);
    RunOne(s, drag);
    QuietKeeps(moved, wait);
    var waited := Run(moved, wait).value;
    var failed := Step(waited, Fails);
    RunOne(waited, Fails);
    QuietKeeps(failed, later);
    hide Step, TargetOf;
    RunConcat(s, [drag], wait);
    RunConcat(s, [drag] + wait, [Fails]);
    RunConcat(s, [drag] + wait + [Fails], later);
  }

  lemma RunOne(s: State, e: Event)
    requires Enabled(s, e)
    ensures Run(s, [e]) == Some(Step(s, e))
  {
    assert [e][..0] == [];
    assert Run(s, []) == Some(s);
  }

  // ----- Overlapping drags -----

  /** Drags and new data, while every answer of the server is still to come. */
  predicate Unanswered(es: seq<Event>) {
    forall e <- es :: e.Drag? || e.NewData?
  }

  /** The board just before the last drag that moved a lead. */
  ghost function LastSnapshot(s: State, es: seq<Event>): Option<seq<Item>>
    requires Unanswered(es)
  {
    if es == [] then s.latest
    else
      var init, e := es[..|es| - 1], es[|es| - 1];
      var before := Run(s, init);
      if before.Some? && MovesALead(before.value, e) then Some(AllLeads(before.value)) else LastSnapshot(s, init)
  }

  lemma {:induction false} LatestIsLastSnapshot(s: State, es: seq<Event>)
    requires Unanswered(es)
    ensures Run(s, es).Some? && Run(s, es).value.latest == LastSnapshot(s, es)
  {
    if es != [] {
      var init, e := es[..|es| - 1], es[|es| - 1];
      assert e in es;
      LatestIsLastSnapshot(s, init);
      hide TargetOf, Moved, AllLeads;
    }
  }

  /** However drags and new data follow each other, a refusal leads back to the board of just before the
      last move. */
  lemma RefusalLeadsBack(s: State, es: seq<Event>)
    requires Unanswered(es) && LastSnapshot(s, es).Some?
    ensures Run(s, es + [Fails]).Some? && AllLeads(Run(s, es + [Fails]).value) == LastSnapshot(s, es).value
  {
    LatestIsLastSnapshot(s, es);
    assert (es + [Fails])[..|es|] == es;
    hide LastSnapshot;
  }

  /** The board to which refusals should lead back: the one before the move under way. */
  function Baseline(s: State): seq<Item> {
    if s.latest.Some? then s.latest.value else AllLeads(s)
  }

  /** Every refusal after the drag, whatever data comes first, leads back to that board. */
  ghost predicate RollsBack(s: State, drag: Event) {
    forall wait :: (forall e <- wait :: IsQuiet(e)) ==>
      var es := [drag] + wait + [Fails]; Run(s, es).Some? && AllLeads(Run(s, es).value) == Baseline(s)
  }

  /** Each drag that moved a lead found no mutation under way. */
  ghost predicate NoOverlap(start: State, es: seq<Event>) {
    es != [] ==>
      && NoOverlap(start, es[..|es| - 1])
      && (Run(start, es[..|es| - 1]).Some? && MovesALead(Run(start, es[..|es| - 1]).value, es[|es| - 1]) ==>
            Run(start, es[..|es| - 1]).value.latest.None?)
  }

  /** With a mutation under way the board is not the one it rolls back to. */
  lemma {:induction false} UnderWayDiffers(start: State, es: seq<Event>)
    requires start.optimistic == start.latest == None && Run(start, es).Some? && NoOverlap(start, es)
    ensures var s := Run(start, es).value; s.latest.Some? ==> s.optimistic.Some? && AllLeads(s) != s.latest.value
  {
    if es != [] {
      var init, e := es[..|es| - 1], es[|es| - 1];
      UnderWayDiffers(start, init);
      var s := Run(start, init).value;
      if MovesALead(s, e) {
        MoveIsSeen(s, e);
      }
      hide TargetOf, Moved, NoOverlap;
    }
  }

  lemma MoveIsSeen(s: State, drag: Event)
    requires MovesALead(s, drag)
    ensures Step(s, drag).latest == Some(AllLeads(s)) && Step(s, drag).optimistic.Some? && AllLeads(Step(s, drag)) != AllLeads(s)
  {
    var all := AllLeads(s);
    var target := TargetOf(STAGES, all, drag.draggedId, drag.over).value;
    FirstIs(all, drag.draggedId);
    var card := First(all, drag.draggedId).value;
    var k :| 0 <= k < |all| && all[k] == card;
    assert Moved(all, drag.draggedId, target)[k].column == target != all[k].column;
  }

  /** In a run without overlaps, a further move can still be rolled back to the board of before if and only
      if no mutation is under way when it begins. */
  lemma RollsBackExactly(start: State, es: seq<Event>, drag: Event)
    requires start.optimistic == start.latest == None && Run(start, es).Some? && NoOverlap(start, es)
    requires MovesALead(Run(start, es).value, drag)
    ensures RollsBack(Run(start, es).value, drag) <==> Run(start, es).value.latest.None?
  {
    var s := Run(start, es).value;
    UnderWayDiffers(start, es);
    hide NoOverlap, MovesALead, AllLeads;
    forall wait | forall e <- wait :: IsQuiet(e)
      ensures var fs := [drag] + wait + [Fails]; Run(s, fs).Some? && AllLeads(Run(s, fs).value) == AllLeads(s)
    {
      FailedMoveRestores(s, drag, wait, []);
      assert [drag] + wait + [Fails] + [] == [drag] + wait + [Fails];
    }
    hide Run;
    if RollsBack(s, drag) {
      var none: seq<Event> := [];
      var fs := [drag] + none + [Fails];
      assert forall e <- none :: IsQuiet(e);
      assert AllLeads(Run(s, fs).value) == Baseline(s);
    }
  }

  /** With overlapping drags it fails: when the second move is refused, the board keeps showing the first
      one, also if the server refused that as well. */
  lemma OverlapKeepsFirstMove(s: State, first: Event, second: Event)
    requires MovesALead(s, first) && MovesALead(Step(s, first), second)
    ensures Run(s, [first, second, Fails]).Some?
    ensures AllLeads(Run(s, [first, second, Fails]).value) == AllLeads(Step(s, first)) != AllLeads(s)
  {
    var one := Step(s, first);
    var two := Step(one, second);
    RunOne(s, first);
    RunOne(one, second);
    RunOne(two, Fails);
    RunConcat(s, [first], [second]);
    RunConcat(s, [first] + [second], [Fails]);
    assert [first] + [second] + [Fails] == [first, second, Fails];
    MoveIsSeen(s, first);
  }
}
