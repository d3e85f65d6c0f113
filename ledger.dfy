/** The activity summary: lookup of the entry linked to an entity, and the
    `isSaved` mark that saving the entity sets on it. */
module Ledger {
  import opened Types

  function LinkKey(s: SummaryItem): Option<string>
  {
    s.createdEntityId
  }

  /** `summary.find(s => s.createdEntityId === id)`, as a position. */
  function FirstLinked(summary: seq<SummaryItem>, id: string): (r: Option<nat>)
    ensures r.None? ==> forall i :: 0 <= i < |summary| ==> summary[i].createdEntityId != Some(id)
    ensures r.Some? ==> r.value < |summary| && summary[r.value].createdEntityId == Some(id) &&
                        forall i :: 0 <= i < r.value ==> summary[i].createdEntityId != Some(id)
  {
    if summary == [] then None
    else if summary[0].createdEntityId == Some(id) then Some(0)
    else match FirstLinked(summary[1..], id)
      case None => None
      case Some(k) => Some(k + 1)
  }

  /** Sets `isSaved` on the first entry linked to `id`: nothing else changes,
      and only that entry's flag can. */
  function MarkSaved(summary: seq<SummaryItem>, id: string): (r: seq<SummaryItem>)
    ensures |r| == |summary|
    ensures forall i :: 0 <= i < |r| ==> r[i].(isSaved := summary[i].isSaved) == summary[i]
    ensures forall i :: 0 <= i < |r| && r[i] != summary[i] ==>
      summary[i].createdEntityId == Some(id) && forall j :: 0 <= j < i ==> summary[j].createdEntityId != Some(id)
    ensures forall i :: 0 <= i < |r| && summary[i].createdEntityId == Some(id) ==>
      exists j :: 0 <= j <= i && summary[j].createdEntityId == Some(id) && r[j].isSaved == Some(true)
  {
    match FirstLinked(summary, id)
    case None => summary
    case Some(k) => summary[k := summary[k].(isSaved := Some(true))]
  }
}
