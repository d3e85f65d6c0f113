/** The generated entities held by the sub-agents of every run: the flattened
    list the entity table shows, removal of an entity by id from every
    sub-agent, marking one entity saved, and lookup by id. */
module Entities {
  import opened Types
  import opened Lists

  function EntityKey(e: Entity): Option<string>
  {
    Some(e.id)
  }

  /** The entities of a list of sub-agents, in sub-agent order and then list order. */
  function AgentEntities(sas: seq<SubAgent>): seq<Entity>
  {
    if sas == [] then [] else AgentEntities(sas[..|sas| - 1]) + sas[|sas| - 1].generatedEntities
  }

  /** `allEntities()`: every entity, in run order, then sub-agent order, then list order. */
  function EntitiesIn(rs: seq<Run>): seq<Entity>
  {
    if rs == [] then [] else EntitiesIn(rs[..|rs| - 1]) + AgentEntities(rs[|rs| - 1].subAgents)
  }

  /** The sum of the lengths of the sub-agents' entity lists, counted from the front. */
  function AgentEntityCount(sas: seq<SubAgent>): nat
  {
    if sas == [] then 0 else |sas[0].generatedEntities| + AgentEntityCount(sas[1..])
  }

  function EntityCount(rs: seq<Run>): nat
  {
    if rs == [] then 0 else AgentEntityCount(rs[0].subAgents) + EntityCount(rs[1..])
  }

  lemma {:induction false} AgentEntityCountSplit(sas: seq<SubAgent>)
    requires sas != []
    ensures AgentEntityCount(sas) == AgentEntityCount(sas[..|sas| - 1]) + |sas[|sas| - 1].generatedEntities|
  {
    if |sas| == 1 {
      assert sas[..0] == [];
    } else {
      AgentEntityCountSplit(sas[1..]);
      assert sas[1..][..|sas| - 2] == sas[..|sas| - 1][1..];
    }
  }

  lemma {:induction false} EntityCountSplit(rs: seq<Run>)
    requires rs != []
    ensures EntityCount(rs) == EntityCount(rs[..|rs| - 1]) + AgentEntityCount(rs[|rs| - 1].subAgents)
  {
    if |rs| == 1 {
      assert rs[..0] == [];
    } else {
      EntityCountSplit(rs[1..]);
      assert rs[1..][..|rs| - 2] == rs[..|rs| - 1][1..];
    }
  }

  lemma {:induction false} AgentEntitiesLength(sas: seq<SubAgent>)
    ensures |AgentEntities(sas)| == AgentEntityCount(sas)
  {
    if sas != [] {
      AgentEntitiesLength(sas[..|sas| - 1]);
      AgentEntityCountSplit(sas);
    }
  }

  /** The flattened list is as long as all the entity lists together. */
  lemma {:induction false} EntitiesInLength(rs: seq<Run>)
    ensures |EntitiesIn(rs)| == EntityCount(rs)
  {
    if rs != [] {
      EntitiesInLength(rs[..|rs| - 1]);
      AgentEntitiesLength(rs[|rs| - 1].subAgents);
      EntityCountSplit(rs);
    }
  }

  lemma {:induction false} InAgentEntities(sas: seq<SubAgent>, e: Entity)
    ensures e in AgentEntities(sas) <==> exists j :: 0 <= j < |sas| && e in sas[j].generatedEntities
  {
    if sas != [] {
      var n := |sas|;
      InAgentEntities(sas[..n - 1], e);
      if e in AgentEntities(sas[..n - 1]) {
        var j :| 0 <= j < n - 1 && e in sas[..n - 1][j].generatedEntities;
        assert e in sas[j].generatedEntities;
      }
      if j :| 0 <= j < n && e in sas[j].generatedEntities {
        if j < n - 1 {
          assert e in sas[..n - 1][j].generatedEntities;
        }
      }
    }
  }

  /** An entity is listed exactly when some sub-agent of some run holds it. */
  lemma {:induction false} InEntitiesIn(rs: seq<Run>, e: Entity)
    ensures e in EntitiesIn(rs) <==>
      exists i, j :: 0 <= i < |rs| && 0 <= j < |rs[i].subAgents| && e in rs[i].subAgents[j].generatedEntities
  {
    if rs != [] {
      var n := |rs|;
      InEntitiesIn(rs[..n - 1], e);
      InAgentEntities(rs[n - 1].subAgents, e);
      if e in EntitiesIn(rs[..n - 1]) {
        var i, j :| 0 <= i < n - 1 && 0 <= j < |rs[..n - 1][i].subAgents|
          && e in rs[..n - 1][i].subAgents[j].generatedEntities;
        assert e in rs[i].subAgents[j].generatedEntities;
      }
      if i, j :| 0 <= i < n && 0 <= j < |rs[i].subAgents| && e in rs[i].subAgents[j].generatedEntities {
        if i < n - 1 {
          assert e in rs[..n - 1][i].subAgents[j].generatedEntities;
        }
      }
    }
  }

  function PurgeAgent(sa: SubAgent, id: string): SubAgent
  {
    sa.(generatedEntities := Drop(sa.generatedEntities, EntityKey, id))
  }

  function PurgeAgents(sas: seq<SubAgent>, id: string): seq<SubAgent>
  {
    seq(|sas|, j requires 0 <= j < |sas| => PurgeAgent(sas[j], id))
  }

  function PurgeRun(r: Run, id: string): Run
  {
    r.(subAgents := PurgeAgents(r.subAgents, id))
  }

  /** Every sub-agent of every run with the entities carrying `id` filtered out. */
  function PurgeRuns(rs: seq<Run>, id: string): seq<Run>
  {
    seq(|rs|, i requires 0 <= i < |rs| => PurgeRun(rs[i], id))
  }

  lemma {:induction false} PurgedAgentEntities(sas: seq<SubAgent>, id: string)
    ensures AgentEntities(PurgeAgents(sas, id)) == Drop(AgentEntities(sas), EntityKey, id)
  {
    if sas != [] {
      var n := |sas|;
      PurgedAgentEntities(sas[..n - 1], id);
      assert PurgeAgents(sas, id)[..n - 1] == PurgeAgents(sas[..n - 1], id);
      DropAppend(AgentEntities(sas[..n - 1]), sas[n - 1].generatedEntities, EntityKey, id);
    }
  }

  /** Purging every sub-agent is filtering the flattened list: the other
      entities all remain, in their original relative order. */
  lemma {:induction false} PurgedEntities(rs: seq<Run>, id: string)
    ensures EntitiesIn(PurgeRuns(rs, id)) == Drop(EntitiesIn(rs), EntityKey, id)
  {
    if rs != [] {
      var n := |rs|;
      PurgedEntities(rs[..n - 1], id);
      assert PurgeRuns(rs, id)[..n - 1] == PurgeRuns(rs[..n - 1], id);
      PurgedAgentEntities(rs[n - 1].subAgents, id);
      DropAppend(EntitiesIn(rs[..n - 1]), AgentEntities(rs[n - 1].subAgents), EntityKey, id);
    }
  }

  /** Purging an id twice is purging it once. */
  lemma PurgeTwice(rs: seq<Run>, id: string)
    ensures PurgeRuns(PurgeRuns(rs, id), id) == PurgeRuns(rs, id)
  {
    forall i, j | 0 <= i < |rs| && 0 <= j < |rs[i].subAgents|
      ensures PurgeRuns(PurgeRuns(rs, id), id)[i].subAgents[j] == PurgeRuns(rs, id)[i].subAgents[j]
    {
      DropTwice(rs[i].subAgents[j].generatedEntities, EntityKey, id);
    }
    forall i | 0 <= i < |rs|
      ensures PurgeRuns(PurgeRuns(rs, id), id)[i] == PurgeRuns(rs, id)[i]
    {
      assert PurgeRuns(PurgeRuns(rs, id), id)[i].subAgents == PurgeRuns(rs, id)[i].subAgents;
    }
  }

  predicate ValidPosition(rs: seq<Run>, ri: nat, si: nat, k: nat)
  {
    ri < |rs| && si < |rs[ri].subAgents| && k < |rs[ri].subAgents[si].generatedEntities|
  }

  function EntityAt(rs: seq<Run>, ri: nat, si: nat, k: nat): Entity
    requires ValidPosition(rs, ri, si, k)
  {
    rs[ri].subAgents[si].generatedEntities[k]
  }

  /** `e.saved = true` on the entity at a position. */
  function SetSaved(rs: seq<Run>, ri: nat, si: nat, k: nat): seq<Run>
    requires ValidPosition(rs, ri, si, k)
  {
    var r := rs[ri];
    var sa := r.subAgents[si];
    var ents := sa.generatedEntities;
    rs[ri := r.(subAgents := r.subAgents[si := sa.(generatedEntities := ents[k := ents[k].(saved := true)])])]
  }

  /** Two run lists with the same runs, sub-agents and entity ids in the same
      places: only entity flags, statuses and texts may differ. */
  predicate SameLayout(rs: seq<Run>, qs: seq<Run>)
  {
    |rs| == |qs| &&
    forall i :: 0 <= i < |rs| ==> rs[i].id == qs[i].id && SameAgentLayout(rs[i].subAgents, qs[i].subAgents)
  }

  predicate SameAgentLayout(a: seq<SubAgent>, b: seq<SubAgent>)
  {
    |a| == |b| &&
    forall j :: 0 <= j < |a| ==> a[j].id == b[j].id && SameIds(a[j].generatedEntities, b[j].generatedEntities)
  }

  predicate SameIds(a: seq<Entity>, b: seq<Entity>)
  {
    |a| == |b| && forall m :: 0 <= m < |a| ==> a[m].id == b[m].id
  }

  /** Saving marks exactly the entity at the position and moves nothing. */
  lemma SetSavedSpec(rs: seq<Run>, ri: nat, si: nat, k: nat)
    requires ValidPosition(rs, ri, si, k)
    ensures var r := SetSaved(rs, ri, si, k);
      SameLayout(rs, r) && ValidPosition(r, ri, si, k) &&
      EntityAt(r, ri, si, k) == EntityAt(rs, ri, si, k).(saved := true) &&
      (forall i: nat, j: nat, m: nat :: ValidPosition(rs, i, j, m) && (i, j, m) != (ri, si, k) ==> EntityAt(r, i, j, m) == EntityAt(rs, i, j, m)) &&
      (forall i :: 0 <= i < |rs| ==> r[i].(subAgents := rs[i].subAgents) == rs[i]) &&
      (forall i, j :: 0 <= i < |rs| && 0 <= j < |rs[i].subAgents| ==>
        r[i].subAgents[j].(generatedEntities := rs[i].subAgents[j].generatedEntities) == rs[i].subAgents[j])
  {
  }

  /** `find(e => e.id === id)`: the first entity carrying `id`, if any. */
  function FindById(es: seq<Entity>, id: string): (r: Option<Entity>)
    ensures r.None? <==> forall e :: e in es ==> e.id != id
    ensures r.Some? ==> exists i :: 0 <= i < |es| && es[i] == r.value && r.value.id == id &&
                                    forall j :: 0 <= j < i ==> es[j].id != id
  {
    if es == [] then None
    else if es[0].id == id then Some(es[0])
    else
      var r := FindById(es[1..], id);
      if r.Some? then
        assert forall i :: 0 <= i < |es| - 1 ==> es[1..][i] == es[i + 1];
        r
      else r
  }
}
