/** The pipeline board: one column per stage, the drag that moves a deal
    to another stage, and the "+" button that adds a deal to a chosen
    column. The stage list (`pipelineStages`) is a parameter; the drag
    library hands the board only the record `DropResult`. */
module KanbanBoard {
  import opened Wrappers
  import opened Types
  import Seqs
  import DealsStore
  import DealForm
  import DealsList
  import Dashboard

  /** Where a card is: a column (droppable) and its place in it. */
  datatype Location = Location(droppableId: string, index: int)

  /** What a drag reports when it ends: the dragged deal's id, where it
      started and where it was dropped, if anywhere. */
  datatype DropResult = DropResult(draggableId: string, source: Location, destination: Option<Location>)

  // ---------------------------------------------------------------------
  // columns

  /** The columns, one per stage in stage order, each holding the deals
      of that stage in store order. */
  function Columns(stages: seq<PipelineStage>, deals: seq<Deal>): (r: seq<seq<Deal>>)
    ensures |r| == |stages|
    ensures forall i, d :: 0 <= i < |stages| ==> (d in r[i] <==> d in deals && d.stage.id == stages[i].id)
  {
    seq(|stages|, i requires 0 <= i < |stages| => Dashboard.StageDeals(deals, stages[i].id))
  }

  /** `columnValue`: the summed value of a column's deals. */
  function ColumnValue(column: seq<Deal>): real {
    DealsList.TotalValue(column)
  }

  /** The column values, added up across the board. */
  function BoardValue(columns: seq<seq<Deal>>): real {
    if columns == [] then 0.0 else ColumnValue(columns[0]) + BoardValue(columns[1..])
  }

  /** The column sizes, added up across the board. */
  function BoardCount(columns: seq<seq<Deal>>): nat {
    if columns == [] then 0 else |columns[0]| + BoardCount(columns[1..])
  }

  /** Each column only drops deals from the store's order, never reorders
      them. */
  lemma ColumnsSubseq(stages: seq<PipelineStage>, deals: seq<Deal>)
    ensures forall i :: 0 <= i < |stages| ==> Seqs.IsSubseq(Columns(stages, deals)[i], deals)
  {
    forall i | 0 <= i < |stages| ensures Seqs.IsSubseq(Columns(stages, deals)[i], deals) {
      Seqs.FilterIsSubseq(deals, (d: Deal) => d.stage.id == stages[i].id);
    }
  }

  lemma {:induction false} BoardMatchesStages(stages: seq<PipelineStage>, deals: seq<Deal>)
    ensures BoardCount(Columns(stages, deals)) == Dashboard.StagesCount(stages, deals)
    ensures BoardValue(Columns(stages, deals)) == Dashboard.StagesValue(stages, deals)
  {
    if stages != [] {
      assert Columns(stages, deals)[1..] == Columns(stages[1..], deals);
      BoardMatchesStages(stages[1..], deals);
    }
  }

  /** With distinct stage ids and every deal in one of the stages, every
      deal shows in exactly one column: the column sizes add up to the
      number of deals and the column values to the store's total value. */
  lemma ColumnsAddUp(stages: seq<PipelineStage>, deals: seq<Deal>)
    requires DistinctStageIds(stages)
    requires Dashboard.Covered(stages, deals)
    ensures BoardCount(Columns(stages, deals)) == |deals|
    ensures BoardValue(Columns(stages, deals)) == DealsList.TotalValue(deals)
  {
    BoardMatchesStages(stages, deals);
    Dashboard.StagesAddUp(stages, deals);
  }

  // ---------------------------------------------------------------------
  // the drag

  /** The store after a drag ends: nothing happens without a destination,
      on a drop back at the same place, or on a column that is not a
      stage; otherwise the dragged deal gets the column's stage. */
  function DragEnd(deals: seq<Deal>, r: DropResult, stages: seq<PipelineStage>, now: string): seq<Deal> {
    match r.destination
    case None => deals
    case Some(dest) =>
      if dest.droppableId == r.source.droppableId && dest.index == r.source.index then deals
      else
        match FindStage(stages, dest.droppableId)
        case None => deals
        case Some(s) => DealsStore.UpdateDeals(deals, r.draggableId, DealsStore.StagePatch(s), now)
  }

  predicate SamePlace(r: DropResult) {
    r.destination.Some? && r.destination.value == r.source
  }

  /** The three drops that change nothing. */
  lemma DragEndNoOp(deals: seq<Deal>, r: DropResult, stages: seq<PipelineStage>, now: string)
    ensures r.destination.None? ==> DragEnd(deals, r, stages, now) == deals
    ensures SamePlace(r) ==> DragEnd(deals, r, stages, now) == deals
    ensures r.destination.Some? && (forall i :: 0 <= i < |stages| ==> stages[i].id != r.destination.value.droppableId)
            ==> DragEnd(deals, r, stages, now) == deals
  {
  }

  /** A drop on a stage's column at another place touches only the dragged
      deal: its stage becomes that stage and it is stamped now; every other
      field of it, and every other deal, stays. */
  lemma DragEndMoves(deals: seq<Deal>, r: DropResult, stages: seq<PipelineStage>, now: string, s: PipelineStage)
    requires r.destination.Some? && !SamePlace(r)
    requires s in stages && s.id == r.destination.value.droppableId && DistinctStageIds(stages)
    ensures |DragEnd(deals, r, stages, now)| == |deals|
    ensures forall i :: 0 <= i < |deals| && deals[i].id != r.draggableId ==>
              DragEnd(deals, r, stages, now)[i] == deals[i]
    ensures forall i :: 0 <= i < |deals| && deals[i].id == r.draggableId ==>
              DragEnd(deals, r, stages, now)[i] == deals[i].(stage := s, updatedAt := now)
  {
    FindStageDistinct(stages, s);
  }

  /** A drop in its own column at another index still updates the deal:
      the stage is the one it had, and only `updatedAt` changes. */
  lemma DragEndWithinColumn(deals: seq<Deal>, r: DropResult, stages: seq<PipelineStage>, now: string, i: int)
    requires r.destination.Some? && !SamePlace(r)
    requires r.destination.value.droppableId == r.source.droppableId
    requires DistinctStageIds(stages)
    requires 0 <= i < |deals| && deals[i].id == r.draggableId
    requires deals[i].stage in stages && deals[i].stage.id == r.source.droppableId
    ensures DragEnd(deals, r, stages, now)[i] == deals[i].(updatedAt := now)
  {
    DragEndMoves(deals, r, stages, now, deals[i].stage);
  }

  /** After a move, the dragged deal is in the destination's column and in
      no other. */
  lemma DragEndColumns(deals: seq<Deal>, r: DropResult, stages: seq<PipelineStage>, now: string, s: PipelineStage)
    requires r.destination.Some? && !SamePlace(r)
    requires s in stages && s.id == r.destination.value.droppableId && DistinctStageIds(stages)
    ensures forall j :: 0 <= j < |stages| ==>
              forall d :: d in Columns(stages, DragEnd(deals, r, stages, now))[j] && d.id == r.draggableId ==>
                stages[j].id == s.id
    ensures forall i :: 0 <= i < |deals| && deals[i].id == r.draggableId ==>
              exists j :: 0 <= j < |stages| && stages[j] == s
                && deals[i].(stage := s, updatedAt := now) in Columns(stages, DragEnd(deals, r, stages, now))[j]
  {
    DragEndMoves(deals, r, stages, now, s);
    var after := DragEnd(deals, r, stages, now);
    forall d | d in after && d.id == r.draggableId ensures d.stage == s {
      var i :| 0 <= i < |after| && after[i] == d;
    }
    forall i | 0 <= i < |deals| && deals[i].id == r.draggableId
      ensures exists j :: 0 <= j < |stages| && stages[j] == s
                && deals[i].(stage := s, updatedAt := now) in Columns(stages, after)[j]
    {
      var j :| 0 <= j < |stages| && stages[j] == s;
      assert after[i] in after;
    }
  }

  /** With distinct ids, finding a stage's id finds that stage. */
  lemma FindStageDistinct(stages: seq<PipelineStage>, s: PipelineStage)
    requires s in stages && DistinctStageIds(stages)
    ensures FindStage(stages, s.id) == Some(s)
  {
    var f := FindStage(stages, s.id);
    var k :| 0 <= k < |stages| && stages[k] == s;
    assert f.Some?;
    var j :| 0 <= j < |stages| && stages[j] == f.value;
    assert j == k;
  }

  // ---------------------------------------------------------------------
  // adding from a column

  /** The deal the board adds for the form's deal: as it is when no column
      was chosen; with the chosen column's stage when it is a stage; none
      when the chosen id is not a stage's. */
  function ColumnDeal(data: DealsStore.NewDeal, selectedStageId: string, stages: seq<PipelineStage>)
    : Option<DealsStore.NewDeal>
  {
    if selectedStageId != "" then
      match FindStage(stages, selectedStageId)
      case Some(s) => Some(data.(stage := s))
      case None => None
    else Some(data)
  }

  /** The "+" button's stage overrides the form's, and only the stage. */
  lemma ColumnDealSpec(data: DealsStore.NewDeal, selectedStageId: string, stages: seq<PipelineStage>)
    ensures selectedStageId == "" ==> ColumnDeal(data, selectedStageId, stages) == Some(data)
    ensures selectedStageId != "" && (forall i :: 0 <= i < |stages| ==> stages[i].id != selectedStageId)
            ==> ColumnDeal(data, selectedStageId, stages).None?
    ensures ColumnDeal(data, selectedStageId, stages).Some? ==>
              var d := ColumnDeal(data, selectedStageId, stages).value;
              d.stage in stages + [data.stage]
              && (selectedStageId != "" ==> d.stage.id == selectedStageId)
              && d == data.(stage := d.stage)
  {
  }

  /** A chosen column that is a stage always yields a deal in that stage. */
  lemma ColumnDealKnownStage(data: DealsStore.NewDeal, stages: seq<PipelineStage>, s: PipelineStage)
    requires s in stages && s.id != "" && DistinctStageIds(stages)
    ensures ColumnDeal(data, s.id, stages) == Some(data.(stage := s))
  {
    FindStageDistinct(stages, s);
  }

  // ---------------------------------------------------------------------
  // the component's state

  class Board {
    var isFormOpen: bool
    var selectedStageId: string
    const stages: seq<PipelineStage>

    constructor (stages: seq<PipelineStage>)
      ensures this.stages == stages
      ensures !isFormOpen && selectedStageId == ""
    {
      this.stages := stages;
      isFormOpen := false;
      selectedStageId := "";
    }

    /** `onDragEnd`: hands a move to the store's update. */
    method OnDragEnd(store: DealsStore.DealStore, result: DropResult, now: string)
      modifies store
      ensures store.deals == DragEnd(old(store.deals), result, stages, now)
    {
      if result.destination.None? {
        return;
      }
      var dest := result.destination.value;
      if dest.droppableId == result.source.droppableId && dest.index == result.source.index {
        return;
      }
      var newStage := FindStage(stages, dest.droppableId);
      if newStage.Some? {
        store.UpdateDeal(result.draggableId, DealsStore.StagePatch(newStage.value), now);
      }
    }

    /** `handleAddDeal`: remembers the column and opens the form; the
        header's button passes `''`. */
    method HandleAddDeal(stageId: string)
      modifies this
      ensures selectedStageId == stageId && isFormOpen
    {
      selectedStageId := stageId;
      isFormOpen := true;
    }

    /** `handleFormSubmit`: adds the column's version of the deal, if any,
        and forgets the column in every case. */
    method HandleFormSubmit(store: DealsStore.DealStore, dealData: DealsStore.NewDeal, id: string, now: string)
      modifies this, store
      ensures ColumnDeal(dealData, old(selectedStageId), stages).Some? ==>
                store.deals == [DealsStore.CreateDeal(ColumnDeal(dealData, old(selectedStageId), stages).value, id, now)]
                               + old(store.deals)
      ensures ColumnDeal(dealData, old(selectedStageId), stages).None? ==> store.deals == old(store.deals)
      ensures selectedStageId == "" && isFormOpen == old(isFormOpen)
    {
      if selectedStageId != "" {
        var selectedStage := FindStage(stages, selectedStageId);
        if selectedStage.Some? {
          var _ := store.AddDeal(dealData.(stage := selectedStage.value), id, now);
        }
      } else {
        var _ := store.AddDeal(dealData, id, now);
      }
      selectedStageId := "";
    }

    /** The form's `onClose`: closes it and forgets the column. */
    method HandleFormClose()
      modifies this
      ensures !isFormOpen && selectedStageId == ""
    {
      isFormOpen := false;
      selectedStageId := "";
    }

    /** A submit in the board's deal form: the form validates and builds
        its deal, the board adds the column's version of it, the form
        returns to its defaults and closes. Nothing is added, and the board
        keeps its state, when the form refuses; the form then shows the
        failed checks, or no error when only a lookup failed. */
    method SubmitDealForm(form: DealForm.DealFormState, store: DealsStore.DealStore, contacts: seq<Contact>,
                          parseFloat: string -> Option<real>, parseInt: string -> Option<int>,
                          id: string, now: string)
      requires form.stages == stages
      modifies this, form, store
      ensures var built := DealForm.BuildDeal(old(form.data), contacts, stages, parseFloat, parseInt);
              if DealForm.Valid(old(form.data), parseFloat) && built.Some?
                 && ColumnDeal(built.value, old(selectedStageId), stages).Some?
              then store.deals == [DealsStore.CreateDeal(ColumnDeal(built.value, old(selectedStageId), stages).value, id, now)]
                                  + old(store.deals)
              else store.deals == old(store.deals)
      ensures var built := DealForm.BuildDeal(old(form.data), contacts, stages, parseFloat, parseInt);
              if DealForm.Valid(old(form.data), parseFloat) && built.Some?
              then !isFormOpen && selectedStageId == ""
              else isFormOpen == old(isFormOpen) && selectedStageId == old(selectedStageId)
      ensures !DealForm.Valid(old(form.data), parseFloat) ==>
                form.data == old(form.data) && form.errors == DealForm.DealErrors(old(form.data), parseFloat)
      ensures var built := DealForm.BuildDeal(old(form.data), contacts, stages, parseFloat, parseInt);
              DealForm.Valid(old(form.data), parseFloat) ==>
                form.errors == DealForm.NoErrors
                && form.data == (if built.Some? then DealForm.Defaults(stages) else old(form.data))
    {
      var submitted := form.HandleSubmit(contacts, parseFloat, parseInt);
      if submitted.Some? {
        HandleFormSubmit(store, submitted.value, id, now);
        HandleFormClose();
      }
    }
  }
}
