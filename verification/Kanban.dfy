/** Grouping cards into columns and moving them, as the Kanban board and the CRM page both do it. */
module Kanban {
  import opened Common

  /** `column` is the columnId of a board item, the stage of a lead; `rest` is what else it carries. */
  datatype Item = Item(id: string, column: string, value: Option<real>, rest: string)

  /** The items of a column in their order. */
  function Column(items: seq<Item>, c: string): seq<Item> {
    if items == [] then []
    else
      var before, last := Column(items[..|items| - 1], c), items[|items| - 1];
      if last.column == c then before + [last] else before
  }

  /** The grouping loops: an empty list for each column, then each item pushed onto its own. */
  method Group(columns: seq<string>, items: seq<Item>) returns (groups: map<string, seq<Item>>)
    ensures groups.Keys == set c | c in columns
    ensures forall c | c in columns :: groups[c] == Column(items, c)
  {
    groups := map[];
    var n := 0;
    while n < |columns|
      invariant 0 <= n <= |columns|
      invariant groups.Keys == set c | c in columns[..n]
      invariant forall c | c in groups :: groups[c] == []
    {
      groups := groups[columns[n] := []];
      assert columns[..n + 1] == columns[..n] + [columns[n]];
      n := n + 1;
    }
    assert columns[..n] == columns;
    var k := 0;
    while k < |items|
      invariant 0 <= k <= |items|
      invariant groups.Keys == set c | c in columns
      invariant forall c | c in groups :: groups[c] == Column(items[..k], c)
    {
      var item := items[k];
      assert items[..k + 1][..k] == items[..k];
      if item.column in groups {
        groups := groups[item.column := groups[item.column] + [item]];
      }
      k := k + 1;
    }
    assert items[..k] == items;
  }

  // ----- The columns are a stable partition -----

  ghost predicate Increasing(ps: seq<nat>) {
    forall i, j :: 0 <= i < j < |ps| ==> ps[i] < ps[j]
  }

  /** `ps` are the positions in `items` of exactly the items in column c. */
  ghost predicate ArePositions(ps: seq<nat>, items: seq<Item>, c: string) {
    && Increasing(ps)
    && (forall k :: 0 <= k < |ps| ==> ps[k] < |items|)
    && (forall i: nat :: i in ps <==> i < |items| && items[i].column == c)
  }

  lemma PositionsSnoc(before: seq<nat>, ps: seq<nat>, items: seq<Item>, c: string)
    requires items != [] && ArePositions(before, items[..|items| - 1], c)
    requires ps == if items[|items| - 1].column == c then before + [|items| - 1] else before
    ensures ArePositions(ps, items, c)
  {
    var n := |items| - 1;
    forall i: nat
      ensures i in ps <==> i < |items| && items[i].column == c
    {
      assert i in before <==> i < n && items[..n][i].column == c;
      assert i in ps <==> i in before || (i == n && items[n].column == c);
    }
  }

  /** A column lists exactly its items, in input order. */
  lemma {:induction false} ColumnIsStable(items: seq<Item>, c: string) returns (ps: seq<nat>)
    ensures ArePositions(ps, items, c)
    ensures |Column(items, c)| == |ps| && forall k :: 0 <= k < |ps| ==> ps[k] < |items| && Column(items, c)[k] == items[ps[k]]
  {
    if items == [] {
      ps := [];
    } else {
      var n := |items| - 1;
      var before := ColumnIsStable(items[..n], c);
      ps := if items[n].column == c then before + [n] else before;
      PositionsSnoc(before, ps, items, c);
      hide ArePositions;
    }
  }

  ghost predicate DistinctColumns(columns: seq<string>) {
    forall i, j :: 0 <= i < j < |columns| ==> columns[i] != columns[j]
  }

  function Flattened(items: seq<Item>, columns: seq<string>): seq<Item> {
    if columns == [] then [] else Flattened(items, columns[..|columns| - 1]) + Column(items, columns[|columns| - 1])
  }

  /** The items in a known column. */
  function Known(items: seq<Item>, columns: seq<string>): seq<Item> {
    if items == [] then []
    else
      var before, last := Known(items[..|items| - 1], columns), items[|items| - 1];
      if last.column in columns then before + [last] else before
  }

  lemma {:induction false} KnownOneMore(items: seq<Item>, columns: seq<string>, c: string)
    requires c !in columns
    ensures multiset(Known(items, columns + [c])) == multiset(Known(items, columns)) + multiset(Column(items, c))
  {
    if items != [] {
      KnownOneMore(items[..|items| - 1], columns, c);
    }
  }

  lemma {:induction false} KnownOfNone(items: seq<Item>)
    ensures Known(items, []) == []
  {
    if items != [] {
      KnownOfNone(items[..|items| - 1]);
    }
  }

  /** The columns together hold every item with a known column exactly as often as the input does, and
      nothing else. */
  lemma {:induction false} ColumnsPartition(items: seq<Item>, columns: seq<string>)
    requires DistinctColumns(columns)
    ensures multiset(Flattened(items, columns)) == multiset(Known(items, columns))
  {
    if columns == [] {
      KnownOfNone(items);
    } else {
      var n := |columns| - 1;
      ColumnsPartition(items, columns[..n]);
      KnownOneMore(items, columns[..n], columns[n]);
      assert columns == columns[..n] + [columns[n]];
    }
  }

  // ----- Where a card is dropped -----

  /** `items.find((item) => item.id === id)` */
  function First(items: seq<Item>, id: string): Option<Item> {
    if items == [] then None else if items[0].id == id then Some(items[0]) else First(items[1..], id)
  }

  /** The column a drag ends in, None if it moves nothing; `over` is a column or another card. */
  function TargetOf(columns: seq<string>, items: seq<Item>, draggedId: string, over: Option<string>): Option<string> {
    if over.None? then None
    else
      var overItem := First(items, over.value);
      var target := if over.value in columns then over.value else if overItem.Some? then overItem.value.column else "";
      var dragged := First(items, draggedId);
      if target == "" || dragged.None? || dragged.value.column == target then None else Some(target)
  }

  ghost predicate DistinctIds(items: seq<Item>) {
    forall i, j :: 0 <= i < j < |items| ==> items[i].id != items[j].id
  }

  lemma {:induction false} FirstIs(items: seq<Item>, id: string)
    ensures match First(items, id)
      case None => forall item <- items :: item.id != id
      case Some(found) => found in items && found.id == id && (DistinctIds(items) ==> forall item <- items :: item.id == id ==> item == found)
  {
    if items != [] {
      FirstIs(items[1..], id);
      assert items == [items[0]] + items[1..];
    }
  }

  /** Dropping onto a card is dropping onto its column. */
  lemma CardStandsForColumn(columns: seq<string>, items: seq<Item>, draggedId: string, card: Item)
    requires DistinctIds(items) && card in items && card.id !in columns && card.column in columns
    ensures TargetOf(columns, items, draggedId, Some(card.id)) == TargetOf(columns, items, draggedId, Some(card.column))
  {
    FirstIs(items, card.id);
  }

  // ----- Moving a card -----

  /** `items.map((l) => (l.id === id ? { ...l, stage: target } : l))` */
  function Moved(items: seq<Item>, id: string, target: string): (r: seq<Item>)
    ensures |r| == |items|
  {
    seq(|items|, i requires 0 <= i < |items| => if items[i].id == id then items[i].(column := target) else items[i])
  }

  function Without(items: seq<Item>, id: string): seq<Item> {
    if items == [] then []
    else
      var before, last := Without(items[..|items| - 1], id), items[|items| - 1];
      if last.id == id then before else before + [last]
  }

  function TotalValue(items: seq<Item>): real {
    if items == [] then 0.0
    else TotalValue(items[..|items| - 1]) + (if items[|items| - 1].value.Some? then items[|items| - 1].value.value else 0.0)
  }

  lemma MovedSnoc(items: seq<Item>, id: string, target: string)
    requires items != []
    ensures var n := |items| - 1;
      && Moved(items, id, target)[..n] == Moved(items[..n], id, target)
      && Moved(items, id, target)[n] == if items[n].id == id then items[n].(column := target) else items[n]
  {
  }

  lemma WithoutSnoc(items: seq<Item>, item: Item, id: string)
    ensures Without(items + [item], id) == if item.id == id then Without(items, id) else Without(items, id) + [item]
  {
    assert (items + [item])[..|items|] == items;
  }

  /** Apart from the moved card every column keeps its cards in their order. */
  lemma {:induction false} OthersStay(items: seq<Item>, id: string, target: string, c: string)
    ensures Without(Column(Moved(items, id, target), c), id) == Without(Column(items, c), id)
  {
    if items != [] {
      var n := |items| - 1;
      OthersStay(items[..n], id, target, c);
      MovedSnoc(items, id, target);
      WithoutSnoc(Column(items[..n], c), items[n], id);
      WithoutSnoc(Column(Moved(items[..n], id, target), c), Moved(items, id, target)[n], id);
      hide Moved, Without;
    }
  }

  lemma {:induction false} ColumnHas(items: seq<Item>, c: string, item: Item)
    ensures item in Column(items, c) <==> item in items && item.column == c
  {
    if items != [] {
      var n := |items| - 1;
      ColumnHas(items[..n], c, item);
      assert items == items[..n] + [items[n]];
    }
  }

  lemma {:induction false} WithoutAbsent(items: seq<Item>, id: string)
    requires forall item <- items :: item.id != id
    ensures Without(items, id) == items
  {
    if items != [] {
      WithoutAbsent(items[..|items| - 1], id);
    }
  }

  lemma {:induction false} DistinctColumn(items: seq<Item>, c: string)
    requires DistinctIds(items)
    ensures DistinctIds(Column(items, c))
  {
    if items != [] {
      var n := |items| - 1;
      DistinctColumn(items[..n], c);
      forall k | 0 <= k < |Column(items[..n], c)|
        ensures Column(items[..n], c)[k].id != items[n].id
      {
        var item := Column(items[..n], c)[k];
        ColumnHas(items[..n], c, item);
      }
    }
  }

  lemma {:induction false} WithoutOne(items: seq<Item>, item: Item)
    requires DistinctIds(items) && item in items
    ensures |Without(items, item.id)| == |items| - 1
  {
    var n := |items| - 1;
    if items[n] == item {
      WithoutAbsent(items[..n], item.id);
    } else {
      assert items == items[..n] + [items[n]];
      var k :| 0 <= k < |items| && items[k] == item;
      assert items[n].id != item.id;
      WithoutOne(items[..n], item);
    }
  }

  lemma MovedIds(items: seq<Item>, id: string, target: string)
    requires DistinctIds(items)
    ensures DistinctIds(Moved(items, id, target))
  {
  }

  lemma AbsentFromColumn(items: seq<Item>, c: string, id: string)
    requires forall item <- items :: item.id == id ==> item.column != c
    ensures forall item <- Column(items, c) :: item.id != id
  {
    forall item | item in Column(items, c)
      ensures item.id != id
    {
      ColumnHas(items, c, item);
    }
  }

  /** A move takes the card out of its column, puts it into the other, and touches no third; nothing else
      changes its column or its place, and the value of all cards stays the same. */
  lemma MoveChangesTwoColumns(items: seq<Item>, card: Item, target: string)
    requires DistinctIds(items) && card in items && card.column != target
    ensures var after := Moved(items, card.id, target);
      && Column(after, card.column) == Without(Column(items, card.column), card.id)
      && |Column(after, card.column)| == |Column(items, card.column)| - 1
      && Without(Column(after, target), card.id) == Column(items, target)
      && |Column(after, target)| == |Column(items, target)| + 1
      && card.(column := target) in Column(after, target)
      && forall c :: c != card.column && c != target ==> Column(after, c) == Column(items, c)
  {
    var after := Moved(items, card.id, target);
    var k :| 0 <= k < |items| && items[k] == card;
    assert after[k] == card.(column := target);
    SourceLosesOne(items, card, target);
    TargetGainsOne(items, card, target);
    forall c | c != card.column && c != target
      ensures Column(after, c) == Column(items, c)
    {
      ThirdUnchanged(items, card, target, c);
    }
  }

  lemma SourceLosesOne(items: seq<Item>, card: Item, target: string)
    requires DistinctIds(items) && card in items && card.column != target
    ensures var after := Moved(items, card.id, target);
      && Column(after, card.column) == Without(Column(items, card.column), card.id)
      && |Column(after, card.column)| == |Column(items, card.column)| - 1
  {
    var after := Moved(items, card.id, target);
    OthersStay(items, card.id, target, card.column);
    AbsentFromColumn(after, card.column, card.id);
    WithoutAbsent(Column(after, card.column), card.id);
    ColumnHas(items, card.column, card);
    DistinctColumn(items, card.column);
    hide Moved;
    WithoutOne(Column(items, card.column), card);
  }

  lemma TargetGainsOne(items: seq<Item>, card: Item, target: string)
    requires DistinctIds(items) && card in items && card.column != target
    ensures var after := Moved(items, card.id, target);
      && Without(Column(after, target), card.id) == Column(items, target)
      && |Column(after, target)| == |Column(items, target)| + 1
      && card.(column := target) in Column(after, target)
  {
    var after := Moved(items, card.id, target);
    var k :| 0 <= k < |items| && items[k] == card;
    assert after[k] == card.(column := target);
    OthersStay(items, card.id, target, target);
    AbsentFromColumn(items, target, card.id);
    WithoutAbsent(Column(items, target), card.id);
    MovedIds(items, card.id, target);
    ColumnHas(after, target, card.(column := target));
    DistinctColumn(after, target);
    hide Moved;
    WithoutOne(Column(after, target), card.(column := target));
  }

  lemma ThirdUnchanged(items: seq<Item>, card: Item, target: string, c: string)
    requires DistinctIds(items) && card in items && c != card.column && c != target
    ensures Column(Moved(items, card.id, target), c) == Column(items, c)
  {
    var after := Moved(items, card.id, target);
    OthersStay(items, card.id, target, c);
    AbsentFromColumn(items, c, card.id);
    AbsentFromColumn(after, c, card.id);
    WithoutAbsent(Column(items, c), card.id);
    WithoutAbsent(Column(after, c), card.id);
  }

  /** The generic board; what a move does is up to its owner. */
  class KanbanBoard {
    const columns: seq<string>
    var items: seq<Item>
    var activeId: Option<string>

    constructor (columns: seq<string>, items: seq<Item>)
      ensures this.columns == columns && this.items == items && activeId == None
    {
      this.columns, this.items, activeId := columns, items, None;
    }

    method HandleDragStart(id: string)
      modifies this`activeId
      ensures activeId == Some(id)
    {
      activeId := Some(id);
    }

    /** The arguments of `onMoveItem` if it is called. */
    method HandleDragEnd(draggedId: string, over: Option<string>) returns (move: Option<(string, string)>)
      modifies this`activeId
      ensures activeId == None
      ensures move == match TargetOf(columns, items, draggedId, over)
        case None => None
        case Some(target) => Some((draggedId, target))
    {
      activeId := None;
      if over.None? {
        return None;
      }
      var targetColumnId := over.value;
      if over.value !in columns {
        var overItem := First(items, over.value);
        targetColumnId := if overItem.Some? then overItem.value.column else "";
      }
      if targetColumnId == "" {
        return None;
      }
      var dragged := First(items, draggedId);
      if dragged.None? || dragged.value.column == targetColumnId {
        return None;
      }
      return Some((draggedId, targetColumnId));
    }
  }
}
