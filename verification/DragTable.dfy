/** Drags on the boards in plain text. */
module DragTable {
  import opened Common
  import opened Kanban
  import C = CrmPage

  /** The card at n is the one `find` finds. */
  ghost predicate IsFound(items: seq<Item>, id: string, n: nat) {
    n < |items| && items[n].id == id && forall i :: 0 <= i < n ==> items[i].id != id
  }

  lemma {:induction false} FirstFinds(items: seq<Item>, id: string, n: nat)
    requires IsFound(items, id, n)
    ensures First(items, id) == Some(items[n])
  {
    if n > 0 {
      assert items[0].id != id;
      FirstFinds(items[1..], id, n - 1);
    }
  }

  lemma {:induction false} FirstMisses(items: seq<Item>, id: string)
    requires forall i :: 0 <= i < |items| ==> items[i].id != id
    ensures First(items, id) == None
  {
    if items != [] { FirstMisses(items[1..], id); }
  }

  /** Onto a column: a move there, unless the card is there already. */
  lemma DropOnColumn(columns: seq<string>, items: seq<Item>, draggedId: string, n: nat, over: string)
    requires IsFound(items, draggedId, n) && over in columns && over != ""
    ensures TargetOf(columns, items, draggedId, Some(over)) == if items[n].column == over then None else Some(over)
  {
    FirstFinds(items, draggedId, n);
    hide First;
  }

  /** Onto another card: a move to its column, unless it has none or it is the same. */
  lemma DropOnCard(columns: seq<string>, items: seq<Item>, draggedId: string, n: nat, over: string, m: nat)
    requires IsFound(items, draggedId, n) && over !in columns && IsFound(items, over, m)
    ensures TargetOf(columns, items, draggedId, Some(over)) ==
      if items[m].column == "" || items[m].column == items[n].column then None else Some(items[m].column)
  {
    FirstFinds(items, draggedId, n);
    FirstFinds(items, over, m);
    hide First;
  }

  /** Outside, onto something unknown, or of a card that is gone: no move. */
  lemma DropNowhere(columns: seq<string>, items: seq<Item>, draggedId: string, over: string)
    ensures TargetOf(columns, items, draggedId, None) == None
    ensures over !in columns && (forall i :: 0 <= i < |items| ==> items[i].id != over) ==>
      TargetOf(columns, items, draggedId, Some(over)) == None
    ensures (forall i :: 0 <= i < |items| ==> items[i].id != draggedId) ==> TargetOf(columns, items, draggedId, Some(over)) == None
  {
    if forall i :: 0 <= i < |items| ==> items[i].id != over { FirstMisses(items, over); }
    if forall i :: 0 <= i < |items| ==> items[i].id != draggedId { FirstMisses(items, draggedId); }
    hide First;
  }

  /** The columns of the page. */
  lemma StagesAre()
    ensures C.STAGES == ["NEW", "CONTACTED", "QUALIFIED", "PROPOSAL", "NEGOTIATION", "WON", "LOST"]
  {
  }

  /** A lead dropped on another stage is shown there at once, everything else as before, and the snapshot is what was
      shown; dropped on its own stage nothing happens. */
  lemma DragToStage(s: C.State, draggedId: string, n: nat, stage: string, shown: seq<Item>)
    requires shown == if s.optimistic.Some? then s.optimistic.value else s.data
    requires IsFound(shown, draggedId, n)
    requires stage in {"NEW", "CONTACTED", "QUALIFIED", "PROPOSAL", "NEGOTIATION", "WON", "LOST"}
    ensures shown[n].column == stage ==> C.OnDrag(s, draggedId, Some(stage)) == s
    ensures shown[n].column != stage ==>
      var after := C.OnDrag(s, draggedId, Some(stage));
      && after.data == s.data && after.latest == Some(shown) && after.optimistic.Some? && |after.optimistic.value| == |shown|
      && forall i :: 0 <= i < |shown| ==> after.optimistic.value[i] == if shown[i].id == draggedId then shown[i].(column := stage) else shown[i]
  {
    InStages(stage);
    hide C.STAGES;
    DropOnColumn(C.STAGES, shown, draggedId, n, stage);
    hide TargetOf;
  }

  lemma InStages(stage: string)
    requires stage in {"NEW", "CONTACTED", "QUALIFIED", "PROPOSAL", "NEGOTIATION", "WON", "LOST"}
    ensures stage in C.STAGES && stage != ""
  {
    assert C.STAGES[0] == "NEW" && C.STAGES[1] == "CONTACTED" && C.STAGES[2] == "QUALIFIED" && C.STAGES[3] == "PROPOSAL";
    assert C.STAGES[4] == "NEGOTIATION" && C.STAGES[5] == "WON" && C.STAGES[6] == "LOST";
  }

  /** A refusal brings the snapshot of the latest move back and pins it; a success shows the server's list again. */
  lemma AnswersAre(s: C.State, data: seq<Item>, e: C.Event)
    ensures C.Enabled(s, e) <==> (e in {C.Fails, C.Succeeds} ==> s.latest.Some?)
    ensures s.latest.Some? ==> C.Step(s, C.Fails) == C.State(s.data, s.latest, None)
    ensures s.latest.Some? ==> C.Step(s, C.Succeeds) == C.State(s.data, None, None)
    ensures C.Step(s, C.NewData(data)) == C.State(data, s.optimistic, s.latest)
  {
  }

  /** The pipeline value adds up what the leads are worth, none being nothing. */
  lemma TotalIs(items: seq<Item>, item: Item)
    ensures TotalValue(items + [item]) == TotalValue(items) + (match item.value case Some(v) => v case None => 0.0)
    ensures TotalValue([]) == 0.0
  {
    assert (items + [item])[..|items|] == items;
  }
}
