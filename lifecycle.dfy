/** The entity lifecycle across runs, activity summary and preview pane:
    `deleteEntity`, `saveEntity` and `revertActivity`. */
module Lifecycle {
  import opened Types
  import opened Lists
  import opened Entities
  import opened Ledger

  /** The part of the component's state the entity lifecycle touches. */
  datatype Workspace = Workspace(
    runs: seq<Run>,
    summary: seq<SummaryItem>,
    previewOpen: bool,
    previewEntityId: Option<string>)

  /** `deleteEntity(e)` for an entity whose id is `id`. */
  function Delete(w: Workspace, id: string): Workspace
  {
    var shown := w.previewEntityId == Some(id);
    Workspace(
      PurgeRuns(w.runs, id),
      Drop(w.summary, LinkKey, id),
      if shown then false else w.previewOpen,
      if shown then None else w.previewEntityId)
  }

  /** `saveEntity(e)` for the entity at a position. */
  function Save(w: Workspace, ri: nat, si: nat, k: nat): Workspace
    requires ValidPosition(w.runs, ri, si, k)
  {
    w.(runs := SetSaved(w.runs, ri, si, k), summary := MarkSaved(w.summary, EntityAt(w.runs, ri, si, k).id))
  }

  /** `revertActivity(s)`: a falsy link (absent or empty) does nothing;
      otherwise the first listed entity with that id is deleted unless saved. */
  function Revert(w: Workspace, s: SummaryItem): Workspace
  {
    match s.createdEntityId
    case None => w
    case Some(id) =>
      if id == "" then w
      else match FindById(EntitiesIn(w.runs), id)
        case None => w
        case Some(e) => if e.saved then w else Delete(w, e.id)
  }

  /** After a delete no sub-agent holds an entity with that id and no summary
      entry links to it; every other entity and entry remains, in its
      original relative order (both lists are the order-keeping filter, see
      Lists.DropAppend); each sub-agent keeps every field but its entity
      list; the preview is closed exactly when it showed that entity. */
  lemma DeleteSpec(w: Workspace, id: string)
    ensures var d := Delete(w, id);
      (forall e :: e in EntitiesIn(d.runs) ==> e.id != id) &&
      (forall e :: e in EntitiesIn(w.runs) && e.id != id ==> e in EntitiesIn(d.runs)) &&
      EntitiesIn(d.runs) == Drop(EntitiesIn(w.runs), EntityKey, id) &&
      (forall s :: s in d.summary <==> s in w.summary && s.createdEntityId != Some(id)) &&
      d.summary == Drop(w.summary, LinkKey, id) &&
      |d.runs| == |w.runs| &&
      (forall i :: 0 <= i < |w.runs| ==>
        d.runs[i].(subAgents := w.runs[i].subAgents) == w.runs[i] &&
        |d.runs[i].subAgents| == |w.runs[i].subAgents|) &&
      (forall i, j :: 0 <= i < |w.runs| && 0 <= j < |w.runs[i].subAgents| ==>
        d.runs[i].subAgents[j] == w.runs[i].subAgents[j].(generatedEntities :=
          Drop(w.runs[i].subAgents[j].generatedEntities, EntityKey, id))) &&
      (w.previewEntityId == Some(id) ==> !d.previewOpen && d.previewEntityId == None) &&
      (w.previewEntityId != Some(id) ==> d.previewOpen == w.previewOpen && d.previewEntityId == w.previewEntityId)
  {
    PurgedEntities(w.runs, id);
  }

  /** Deleting twice is deleting once. */
  lemma DeleteTwice(w: Workspace, id: string)
    ensures Delete(Delete(w, id), id) == Delete(w, id)
  {
    PurgeTwice(w.runs, id);
    DropTwice(w.summary, LinkKey, id);
  }

  /** Saving does not protect against an explicit delete: save then delete is delete. */
  lemma SaveThenDelete(w: Workspace, ri: nat, si: nat, k: nat)
    requires ValidPosition(w.runs, ri, si, k)
    ensures var id := EntityAt(w.runs, ri, si, k).id;
      Delete(Save(w, ri, si, k), id) == Delete(w, id)
  {
    var id := EntityAt(w.runs, ri, si, k).id;
    var ents := w.runs[ri].subAgents[si].generatedEntities;
    DropReplaced(ents, k, ents[k].(saved := true), EntityKey, id);
    var saved := SetSaved(w.runs, ri, si, k);
    assert PurgeRuns(saved, id)[ri] == PurgeRuns(w.runs, id)[ri] by {
      assert PurgeRuns(saved, id)[ri].subAgents[si] == PurgeRuns(w.runs, id)[ri].subAgents[si];
      assert PurgeRuns(saved, id)[ri].subAgents == PurgeRuns(w.runs, id)[ri].subAgents;
    }
    assert PurgeRuns(saved, id) == PurgeRuns(w.runs, id);
    match FirstLinked(w.summary, id)
    case None =>
    case Some(j) =>
      DropReplaced(w.summary, j, w.summary[j].(isSaved := Some(true)), LinkKey, id);
  }

  /** saveEntity marks the entity saved and the first summary entry linked to
      it; every list keeps its length and order. */
  lemma SaveSpec(w: Workspace, ri: nat, si: nat, k: nat)
    requires ValidPosition(w.runs, ri, si, k)
    ensures var v := Save(w, ri, si, k);
      var id := EntityAt(w.runs, ri, si, k).id;
      SameLayout(w.runs, v.runs) && ValidPosition(v.runs, ri, si, k) &&
      EntityAt(v.runs, ri, si, k).saved &&
      |v.summary| == |w.summary| &&
      (forall j :: (0 <= j < |w.summary| && w.summary[j].createdEntityId == Some(id) &&
                     forall i :: 0 <= i < j ==> w.summary[i].createdEntityId != Some(id)) ==>
         v.summary[j].isSaved == Some(true)) &&
      v.previewOpen == w.previewOpen && v.previewEntityId == w.previewEntityId
  {
    SetSavedSpec(w.runs, ri, si, k);
    var id := EntityAt(w.runs, ri, si, k).id;
    forall j | 0 <= j < |w.summary| && w.summary[j].createdEntityId == Some(id) &&
         (forall i :: 0 <= i < j ==> w.summary[i].createdEntityId != Some(id))
      ensures MarkSaved(w.summary, id)[j].isSaved == Some(true)
    {
      var f := FirstLinked(w.summary, id);
      assert f == Some(j);
    }
  }

  /** revertActivity is a no-op when the entry has no usable link, when no
      entity carries the id, or when the first entity carrying it is saved;
      otherwise it is deleteEntity. */
  lemma RevertSpec(w: Workspace, s: SummaryItem)
    ensures s.createdEntityId == None || s.createdEntityId == Some("") ==> Revert(w, s) == w
    ensures s.createdEntityId.Some? && (forall e :: e in EntitiesIn(w.runs) ==> e.id != s.createdEntityId.value) ==>
      Revert(w, s) == w
    ensures s.createdEntityId.Some? && s.createdEntityId.value != "" ==>
      var id := s.createdEntityId.value;
      forall i :: (0 <= i < |EntitiesIn(w.runs)| && EntitiesIn(w.runs)[i].id == id &&
                   forall j :: 0 <= j < i ==> EntitiesIn(w.runs)[j].id != id) ==>
        Revert(w, s) == if EntitiesIn(w.runs)[i].saved then w else Delete(w, id)
  {
    if s.createdEntityId.Some? && s.createdEntityId.value != "" {
      var id := s.createdEntityId.value;
      var es := EntitiesIn(w.runs);
      forall i | 0 <= i < |es| && es[i].id == id && (forall j :: 0 <= j < i ==> es[j].id != id)
        ensures Revert(w, s) == if es[i].saved then w else Delete(w, id)
      {
        var f := FindById(es, id);
        var m :| 0 <= m < |es| && es[m] == f.value && f.value.id == id &&
          forall j :: 0 <= j < m ==> es[j].id != id;
        assert m == i;
      }
    }
  }

  /** Reverting an entry whose entity is saved keeps the entity and the entry. */
  lemma RevertSavedKeeps(w: Workspace, s: SummaryItem, e: Entity)
    requires s.createdEntityId == Some(e.id)
    requires forall x :: x in EntitiesIn(w.runs) && x.id == e.id ==> x.saved
    ensures Revert(w, s) == w
  {
  }

  /** Reverting the entry of a listed, unsaved entity removes that entity
      from the list of all entities and every entry linked to it. */
  lemma RevertUnsavedRemoves(w: Workspace, s: SummaryItem, e: Entity)
    requires e.id != "" && s.createdEntityId == Some(e.id) && e in EntitiesIn(w.runs)
    requires forall x :: x in EntitiesIn(w.runs) && x.id == e.id ==> !x.saved
    ensures Revert(w, s) == Delete(w, e.id)
    ensures forall x :: x in EntitiesIn(Revert(w, s).runs) ==> x.id != e.id
    ensures forall t :: t in Revert(w, s).summary ==> t.createdEntityId != Some(e.id)
  {
    DeleteSpec(w, e.id);
  }
}
