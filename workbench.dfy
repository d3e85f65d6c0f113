/** The chat workbench component: the state it keeps in its fields and the
    handlers the page calls, each proved against the functions that specify it. */
module Workbench {
  import opened Types
  import opened Decimal
  import opened Text
  import opened Lists
  import opened Entities
  import opened Ledger
  import opened Agents
  import opened RunProperties
  import opened Lifecycle
  import opened Chats

  class ChatWorkbench {
    var historySearch: string
    var history: seq<ChatItem>
    var filteredHistory: seq<ChatItem>
    var activeChatId: string
    var prompt: string
    var runs: seq<Run>
    var summary: seq<SummaryItem>
    var previewOpen: bool
    var previewEntityId: Option<string>

    /** The runs are well formed, newest first, and every summary entry's
        anchor names one of them. */
    ghost predicate Valid()
      reads this
    {
      WellFormedRuns(runs) && AnchorsResolve(summary, |runs|)
    }

    /** The fields the entity lifecycle reads and writes. */
    function View(): Workspace
      reads this
    {
      Workspace(runs, summary, previewOpen, previewEntityId)
    }

    /** Starts with the seeded chat history and no runs. */
    constructor (now: int)
      ensures Valid()
      ensures history == SeedHistory(now) && filteredHistory == history
      ensures activeChatId == "c1" && historySearch == "" && prompt == ""
      ensures runs == [] && summary == [] && !previewOpen && previewEntityId == None
    {
      historySearch := "";
      history := SeedHistory(now);
      filteredHistory := SeedHistory(now);
      activeChatId := "c1";
      prompt := "";
      runs := [];
      summary := [];
      previewOpen := false;
      previewEntityId := None;
    }

    // ------------------------------------------------------------ chat history

    method FilterHistory()
      modifies this`filteredHistory
      ensures filteredHistory == MatchingChats(history, LowerAscii(historySearch))
    {
      var q := LowerAscii(historySearch);
      filteredHistory := MatchingChats(history, q);
    }

    /** The search box: its two-way binding, then `filterHistory()` on input. */
    method EditHistorySearch(text: string)
      modifies this`historySearch, this`filteredHistory
      ensures historySearch == text
      ensures filteredHistory == MatchingChats(history, LowerAscii(text))
    {
      historySearch := text;
      FilterHistory();
    }

    method NewChat(now: int)
      modifies this`history, this`filteredHistory, this`activeChatId
      ensures history == [NewChatItem(|old(history)|, now)] + old(history)
      ensures filteredHistory == history && activeChatId == history[0].id
    {
      var id := "c" + NatToString(|history| + 1);
      var item := ChatItem(id, "New Chat", now);
      history := [item] + history;
      filteredHistory := history;
      activeChatId := id;
    }

    // ------------------------------------------------------------ runs

    /** The composer's two-way binding of `prompt`. */
    method EditPrompt(text: string)
      modifies this`prompt
      ensures prompt == text
    {
      prompt := text;
    }

    /** Starts a run for the prompt, unless the prompt is blank. */
    method SendPrompt(now: nat)
      requires Valid()
      modifies this`runs, this`summary, this`prompt
      ensures Valid()
      ensures IsBlank(old(prompt)) ==> runs == old(runs) && summary == old(summary) && prompt == old(prompt)
      ensures !IsBlank(old(prompt)) ==>
        runs == [NewRun(|old(runs)| + 1, old(prompt), now)] + old(runs) &&
        summary == [StartEntry(runs[0])] + old(summary) &&
        prompt == ""
    {
      if !IsBlank(prompt) {
        var newRun := NewRun(|runs| + 1, prompt, now);
        NewRunKeepsWellFormed(runs, prompt, now);
        StartEntryResolves(summary, |runs|, prompt, now);
        runs := [newRun] + runs;
        summary := [StartEntry(newRun)] + summary;
        prompt := "";
      }
    }

    /** `stopRun`: the run stops and takes every unfinished sub-agent with it. */
    method StopRun(ri: nat)
      requires Valid() && ri < |runs|
      modifies this`runs
      ensures Valid()
      ensures runs == old(runs)[ri := Stop(old(runs[ri]))]
    {
      var r := runs[ri];
      var sas := r.subAgents;
      var j := 0;
      while j < |sas|
        invariant 0 <= j <= |sas| && |sas| == |r.subAgents|
        invariant forall k :: 0 <= k < j ==> sas[k] == StopAgent(r.subAgents[k])
        invariant forall k :: j <= k < |sas| ==> sas[k] == r.subAgents[k]
      {
        sas := sas[j := sas[j].(status := if sas[j].status == Completed then Completed else Stopped)];
        j := j + 1;
      }
      assert sas == StopAgents(r.subAgents);
      runs := runs[ri := r.(status := Stopped, stopped := true, approvalPending := false, subAgents := sas)];
      RunTransitionsKeepWellFormed(r, |runs| - ri);
    }

    /** `approve` without its timers: every sub-agent starts Running. The
        timers' bodies are CompleteSubAgent. */
    method Approve(ri: nat)
      requires Valid() && ri < |runs|
      modifies this`runs
      ensures Valid()
      ensures runs == old(runs)[ri := Agents.Approve(old(runs[ri]))]
    {
      var r := runs[ri];
      var sas := r.subAgents;
      var j := 0;
      while j < |sas|
        invariant 0 <= j <= |sas| && |sas| == |r.subAgents|
        invariant forall k :: 0 <= k < j ==> sas[k] == Launch(r.subAgents[k])
        invariant forall k :: j <= k < |sas| ==> sas[k] == r.subAgents[k]
      {
        sas := sas[j := sas[j].(status := Running)];
        j := j + 1;
      }
      assert sas == LaunchAgents(r.subAgents);
      runs := runs[ri := r.(approvalPending := false, subAgents := sas)];
      RunTransitionsKeepWellFormed(r, |runs| - ri);
    }

    /** The body of timer `idx` of `approve`, fired at clock reading `now`. */
    method CompleteSubAgent(ri: nat, idx: nat, now: nat)
      requires Valid() && ri < |runs| && idx < 3
      modifies this`runs, this`summary
      ensures Valid()
      ensures runs == old(runs)[ri := Finish(old(runs[ri]), idx, now)]
      ensures summary == [CompletionEntry(old(runs[ri]), idx, now)] + old(summary)
    {
      var r := runs[ri];
      var b := BlueprintOf(idx);
      var e := Produced(idx, now);
      var sa := r.subAgents[idx].(response := b.response, generatedEntities := [e], status := Completed);
      var entry := CompletionEntry(r, idx, now);
      assert WellFormedRun(r, |runs| - ri);
      FinishKeepsWellFormed(r, |runs| - ri, idx, now);
      PrependResolves(summary, entry, |runs|);
      runs := runs[ri := r.(subAgents := r.subAgents[idx := sa])];
      summary := [entry] + summary;
      MaybeCompleteRun(ri);
    }

    method Reject(ri: nat)
      requires Valid() && ri < |runs|
      modifies this`runs
      ensures Valid()
      ensures runs == old(runs)[ri := Agents.Reject(old(runs[ri]))]
    {
      runs := runs[ri := runs[ri].(approvalPending := false, status := Completed)];
      RunTransitionsKeepWellFormed(old(runs[ri]), |runs| - ri);
    }

    method MaybeCompleteRun(ri: nat)
      requires Valid() && ri < |runs|
      modifies this`runs
      ensures Valid()
      ensures runs == old(runs)[ri := Settle(old(runs[ri]))]
    {
      var r := runs[ri];
      if AllDone(r.subAgents) && r.status != Stopped {
        runs := runs[ri := r.(status := Completed)];
      }
      RunTransitionsKeepWellFormed(r, |runs| - ri);
    }

    // ------------------------------------------------------------ sub-agents

    method StopSubAgent(ri: nat, si: nat)
      requires Valid() && ri < |runs| && si < |runs[ri].subAgents|
      modifies this`runs
      ensures Valid()
      ensures runs == old(runs)[ri := WithAgent(old(runs[ri]), si, Halt(old(runs[ri].subAgents[si])))]
    {
      var r := runs[ri];
      runs := runs[ri := r.(subAgents := r.subAgents[si := r.subAgents[si].(status := Stopped)])];
      AgentActionsKeepWellFormed(r, |runs| - ri, si, "");
    }

    method ApproveSubAgent(ri: nat, si: nat)
      requires Valid() && ri < |runs| && si < |runs[ri].subAgents|
      modifies this`runs
      ensures Valid()
      ensures runs == old(runs)[ri := WithAgent(old(runs[ri]), si, ApproveAgent(old(runs[ri].subAgents[si])))]
    {
      var r := runs[ri];
      runs := runs[ri := r.(subAgents := r.subAgents[si := r.subAgents[si].(needsApproval := false, status := Running)])];
      AgentActionsKeepWellFormed(r, |runs| - ri, si, "");
    }

    method RejectSubAgent(ri: nat, si: nat)
      requires Valid() && ri < |runs| && si < |runs[ri].subAgents|
      modifies this`runs
      ensures Valid()
      ensures runs == old(runs)[ri := WithAgent(old(runs[ri]), si, RejectAgent(old(runs[ri].subAgents[si])))]
    {
      var r := runs[ri];
      runs := runs[ri := r.(subAgents := r.subAgents[si := r.subAgents[si].(needsApproval := false, status := Completed)])];
      AgentActionsKeepWellFormed(r, |runs| - ri, si, "");
    }

    /** The page's two-way binding of a sub-agent's input box. */
    method EditAdditionalInput(ri: nat, si: nat, text: string)
      requires Valid() && ri < |runs| && si < |runs[ri].subAgents|
      modifies this`runs
      ensures Valid()
      ensures runs == old(runs)[ri := WithAgent(old(runs[ri]), si, EditInput(old(runs[ri].subAgents[si]), text))]
    {
      var r := runs[ri];
      runs := runs[ri := r.(subAgents := r.subAgents[si := r.subAgents[si].(additionalInput := text)])];
      AgentActionsKeepWellFormed(r, |runs| - ri, si, text);
    }

    method SendAdditionalInput(ri: nat, si: nat)
      requires Valid() && ri < |runs| && si < |runs[ri].subAgents|
      modifies this`runs
      ensures Valid()
      ensures runs == old(runs)[ri := WithAgent(old(runs[ri]), si, SendInput(old(runs[ri].subAgents[si])))]
    {
      var r := runs[ri];
      var sa := r.subAgents[si];
      if sa.additionalInput == "" {
        assert r.subAgents[si := sa] == r.subAgents;
        assert runs[ri := r] == runs;
        return;
      }
      sa := sa.(response := sa.response + InputMarker + sa.additionalInput);
      sa := sa.(additionalInput := "");
      runs := runs[ri := r.(subAgents := r.subAgents[si := sa])];
      AgentActionsKeepWellFormed(r, |runs| - ri, si, "");
    }

    // ------------------------------------------------------------ entities

    method OpenPreview(e: Entity)
      modifies this`previewOpen, this`previewEntityId
      ensures previewOpen && previewEntityId == Some(e.id)
    {
      previewEntityId := Some(e.id);
      previewOpen := true;
    }

    /** The preview's Close button: it hides the pane but keeps the entity. */
    method ClosePreview()
      modifies this`previewOpen
      ensures !previewOpen
    {
      previewOpen := false;
    }

    /** `allEntities()`: every entity, in run, sub-agent and list order. */
    method AllEntities() returns (list: seq<Entity>)
      ensures list == EntitiesIn(runs)
    {
      list := [];
      var i := 0;
      while i < |runs|
        invariant 0 <= i <= |runs|
        invariant list == EntitiesIn(runs[..i])
      {
        var sas := runs[i].subAgents;
        var j := 0;
        while j < |sas|
          invariant 0 <= j <= |sas|
          invariant list == EntitiesIn(runs[..i]) + AgentEntities(sas[..j])
        {
          var ents := sas[j].generatedEntities;
          var k := 0;
          while k < |ents|
            invariant 0 <= k <= |ents|
            invariant list == EntitiesIn(runs[..i]) + AgentEntities(sas[..j]) + ents[..k]
          {
            list := list + [ents[k]];
            k := k + 1;
            assert ents[..k] == ents[..k - 1] + [ents[k - 1]];
          }
          assert sas[..j + 1][..j] == sas[..j];
          assert ents[..k] == ents;
          j := j + 1;
        }
        assert runs[..i + 1][..i] == runs[..i];
        assert sas[..j] == sas;
        i := i + 1;
      }
      assert runs[..i] == runs;
    }

    method SaveEntity(ri: nat, si: nat, k: nat)
      requires Valid() && ValidPosition(runs, ri, si, k)
      modifies this`runs, this`summary
      ensures Valid()
      ensures View() == Save(old(View()), ri, si, k)
    {
      var r := runs[ri];
      var sa := r.subAgents[si];
      var e := sa.generatedEntities[k];
      runs := runs[ri := r.(subAgents := r.subAgents[si := sa.(generatedEntities := sa.generatedEntities[k := e.(saved := true)])])];
      var found := FirstLinked(summary, e.id);
      if found.Some? {
        var j := found.value;
        summary := summary[j := summary[j].(isSaved := Some(true))];
      }
      SaveKeepsValid(old(runs), old(summary), ri, si, k);
    }

    method DeleteEntity(e: Entity)
      requires Valid()
      modifies this`runs, this`summary, this`previewOpen, this`previewEntityId
      ensures Valid()
      ensures View() == Delete(old(View()), e.id)
    {
      var i := 0;
      while i < |runs|
        invariant 0 <= i <= |runs| && |runs| == |old(runs)|
        invariant forall m :: 0 <= m < i ==> runs[m] == PurgeRun(old(runs[m]), e.id)
        invariant forall m :: i <= m < |runs| ==> runs[m] == old(runs[m])
        invariant summary == old(summary) && previewOpen == old(previewOpen) && previewEntityId == old(previewEntityId)
      {
        var sas := PurgeSubAgents(runs[i].subAgents, e.id);
        runs := runs[i := runs[i].(subAgents := sas)];
        i := i + 1;
      }
      if previewEntityId == Some(e.id) {
        previewOpen := false;
        previewEntityId := None;
      }
      summary := Drop(summary, LinkKey, e.id);
      assert runs == PurgeRuns(old(runs), e.id);
      DeleteKeepsValid(old(runs), old(summary), e.id);
    }

    method RemoveEntityEverywhere(e: Entity)
      requires Valid()
      modifies this`runs, this`summary, this`previewOpen, this`previewEntityId
      ensures Valid()
      ensures View() == Delete(old(View()), e.id)
    {
      DeleteEntity(e);
    }

    method RevertActivity(s: SummaryItem)
      requires Valid()
      modifies this`runs, this`summary, this`previewOpen, this`previewEntityId
      ensures Valid()
      ensures View() == Revert(old(View()), s)
    {
      if s.createdEntityId.None? || s.createdEntityId.value == "" {
        return;
      }
      var all := AllEntities();
      var entity := FindById(all, s.createdEntityId.value);
      if entity.Some? && !entity.value.saved {
        DeleteEntity(entity.value);
      }
    }
  }

  /** The inner `forEach` of `deleteEntity`: each sub-agent's entity list
      with the entities carrying `id` filtered out. */
  method PurgeSubAgents(sas: seq<SubAgent>, id: string) returns (r: seq<SubAgent>)
    ensures r == PurgeAgents(sas, id)
  {
    r := sas;
    var j := 0;
    while j < |r|
      invariant 0 <= j <= |r| && |r| == |sas|
      invariant forall m :: 0 <= m < j ==> r[m] == PurgeAgent(sas[m], id)
      invariant forall m :: j <= m < |r| ==> r[m] == sas[m]
    {
      r := r[j := r[j].(generatedEntities := Drop(r[j].generatedEntities, EntityKey, id))];
      j := j + 1;
    }
  }

  /** An entry anchored to an existing run can be put in front of the summary. */
  lemma {:induction false} PrependResolves(summary: seq<SummaryItem>, item: SummaryItem, count: nat)
    requires AnchorsResolve(summary, count) && AnchorResolves(item.anchorId, count)
    ensures AnchorsResolve([item] + summary, count)
  {
    var s := [item] + summary;
    forall i | 0 <= i < |s|
      ensures AnchorResolves(s[i].anchorId, count)
    {
      if i > 0 {
        assert s[i] == summary[i - 1];
      }
    }
  }

  /** Deleting an entity keeps every run well formed and every remaining
      summary entry anchored. */
  lemma {:induction false} DeleteKeepsValid(rs: seq<Run>, summary: seq<SummaryItem>, id: string)
    requires WellFormedRuns(rs) && AnchorsResolve(summary, |rs|)
    ensures WellFormedRuns(PurgeRuns(rs, id)) && AnchorsResolve(Drop(summary, LinkKey, id), |rs|)
  {
    var ps := PurgeRuns(rs, id);
    forall i | 0 <= i < |ps|
      ensures WellFormedRun(ps[i], |ps| - i)
    {
      assert WellFormedRun(rs[i], |rs| - i);
      forall j | 0 <= j < 3
        ensures WellFormedAgent(ps[i].subAgents[j], ps[i].id, j)
      {
        var ents := rs[i].subAgents[j].generatedEntities;
        assert ps[i].subAgents[j].generatedEntities == Drop(ents, EntityKey, id);
      }
    }
    var d := Drop(summary, LinkKey, id);
    forall m | 0 <= m < |d|
      ensures AnchorResolves(d[m].anchorId, |rs|)
    {
      assert d[m] in summary;
      var k :| 0 <= k < |summary| && summary[k] == d[m];
    }
  }

  /** Saving an entity keeps every run well formed and every entry anchored. */
  lemma {:induction false} SaveKeepsValid(rs: seq<Run>, summary: seq<SummaryItem>, ri: nat, si: nat, k: nat)
    requires WellFormedRuns(rs) && AnchorsResolve(summary, |rs|) && ValidPosition(rs, ri, si, k)
    ensures WellFormedRuns(SetSaved(rs, ri, si, k))
    ensures AnchorsResolve(MarkSaved(summary, EntityAt(rs, ri, si, k).id), |rs|)
  {
    var ss := SetSaved(rs, ri, si, k);
    assert WellFormedRun(rs[ri], |rs| - ri);
    assert WellFormedRun(ss[ri], |ss| - ri) by {
      forall j | 0 <= j < 3
        ensures WellFormedAgent(ss[ri].subAgents[j], ss[ri].id, j)
      {
        if j == si {
          assert ss[ri].subAgents[j].generatedEntities ==
            rs[ri].subAgents[j].generatedEntities[k := EntityAt(rs, ri, si, k).(saved := true)];
        }
      }
    }
    var m := MarkSaved(summary, EntityAt(rs, ri, si, k).id);
    forall i | 0 <= i < |m|
      ensures AnchorResolves(m[i].anchorId, |rs|)
    {
      assert m[i].anchorId == summary[i].anchorId;
    }
  }
}
