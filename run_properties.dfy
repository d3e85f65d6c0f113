/** What the run and sub-agent transitions guarantee, alone and in sequence. */
module RunProperties {
  import opened Types
  import opened Text
  import opened Agents

  /** stopRun: the run is Stopped and no longer awaits approval; each
      sub-agent that was Completed stays so and every other one is Stopped;
      the sub-agents keep their number, order and everything but status. */
  lemma StopSpec(r: Run)
    ensures var s := Stop(r);
      s.status == Stopped && s.stopped && !s.approvalPending &&
      s.(status := r.status, stopped := r.stopped, approvalPending := r.approvalPending, subAgents := r.subAgents) == r &&
      |s.subAgents| == |r.subAgents| &&
      forall j :: 0 <= j < |r.subAgents| ==>
        s.subAgents[j].(status := r.subAgents[j].status) == r.subAgents[j] &&
        (r.subAgents[j].status == Completed ==> s.subAgents[j].status == Completed) &&
        (r.subAgents[j].status != Completed ==> s.subAgents[j].status == Stopped)
  {
  }

  /** After a stop every sub-agent is terminal, re-evaluation leaves the run
      alone, and stopping again changes nothing. */
  lemma StopIsFinal(r: Run)
    ensures AllDone(Stop(r).subAgents)
    ensures Settle(Stop(r)) == Stop(r)
    ensures Stop(Stop(r)) == Stop(r)
  {
    assert StopAgents(StopAgents(r.subAgents)) == StopAgents(r.subAgents);
  }

  /** maybeCompleteRun: only the status can change; it becomes Completed
      exactly when every sub-agent is terminal and the run is not Stopped, and
      is otherwise left as it was. */
  lemma SettleSpec(r: Run)
    ensures Settle(r) == r.(status := Settle(r).status)
    ensures AllDone(r.subAgents) && r.status != Stopped ==> Settle(r).status == Completed
    ensures !(AllDone(r.subAgents) && r.status != Stopped) ==> Settle(r) == r
    ensures Settle(Settle(r)) == Settle(r)
  {
  }

  /** approve: the approval is consumed and every sub-agent is Running,
      whatever its status before and whether or not approval was pending. */
  lemma ApproveSpec(r: Run)
    ensures var a := Approve(r);
      !a.approvalPending && a.status == r.status && |a.subAgents| == |r.subAgents| &&
      a.(approvalPending := r.approvalPending, subAgents := r.subAgents) == r &&
      forall j :: 0 <= j < |r.subAgents| ==>
        a.subAgents[j].status == Running && a.subAgents[j].(status := r.subAgents[j].status) == r.subAgents[j]
  {
  }

  /** reject: the run is Completed and no sub-agent changes, so the sub-agents
      of a fresh run stay Idle. */
  lemma RejectSpec(r: Run)
    ensures Reject(r).status == Completed && !Reject(r).approvalPending
    ensures Reject(r).subAgents == r.subAgents
    ensures Reject(r).(status := r.status, approvalPending := r.approvalPending) == r
    ensures Settle(Reject(r)) == Reject(r)
  {
  }

  lemma RejectFreshRun(n: nat, prompt: string, now: nat)
    ensures var r := Reject(NewRun(n, prompt, now));
      r.status == Completed && forall j :: 0 <= j < |r.subAgents| ==> r.subAgents[j].status == Idle
  {
  }

  /** Callback `idx`: the sub-agent is Completed with the callback's response
      and exactly one unsaved entity of the callback's kind; the other
      sub-agents are untouched; the summary entry links to that entity. */
  lemma FinishSpec(r: Run, idx: nat, now: nat)
    requires idx < 3 && idx < |r.subAgents|
    ensures var f := Finish(r, idx, now);
      var sa := f.subAgents[idx];
      |f.subAgents| == |r.subAgents| &&
      sa.status == Completed && sa.response == BlueprintOf(idx).response &&
      |sa.generatedEntities| == 1 && !sa.generatedEntities[0].saved &&
      sa.generatedEntities[0].entityType == KindOf(idx) &&
      sa.(status := r.subAgents[idx].status, response := r.subAgents[idx].response,
          generatedEntities := r.subAgents[idx].generatedEntities) == r.subAgents[idx] &&
      (forall j :: 0 <= j < |r.subAgents| && j != idx ==> f.subAgents[j] == r.subAgents[j]) &&
      CompletionEntry(r, idx, now).createdEntityId == Some(sa.generatedEntities[0].id) &&
      CompletionEntry(r, idx, now).isSaved == Some(false) &&
      CompletionEntry(r, idx, now).anchorId == r.anchorId
  {
  }

  /** Proof helper: a callback is its sub-agent replaced and the run
      re-evaluated, and the re-evaluation keeps the new sub-agents. */
  lemma FinishUnfold(r: Run, idx: nat, now: nat)
    requires idx < 3 && idx < |r.subAgents|
    ensures var s := r.subAgents[idx := Produce(r.subAgents[idx], idx, now)];
      Finish(r, idx, now) == Settle(r.(subAgents := s)) &&
      Finish(r, idx, now).subAgents == s
  {
  }

  /** While another sub-agent is still busy, a callback leaves the run's status alone. */
  lemma FinishWhileBusy(r: Run, idx: nat, now: nat, k: nat)
    requires idx < 3 && idx < |r.subAgents| && k < |r.subAgents| && k != idx
    requires !r.subAgents[k].status.IsTerminal()
    ensures Finish(r, idx, now).status == r.status
    ensures Finish(r, idx, now).subAgents[k] == r.subAgents[k]
  {
    FinishUnfold(r, idx, now);
    var s := r.subAgents[idx := Produce(r.subAgents[idx], idx, now)];
    assert !s[k].status.IsTerminal();
  }

  /** The callback of the last busy sub-agent completes a run that is not Stopped. */
  lemma FinishWhenLast(r: Run, idx: nat, now: nat)
    requires idx < 3 && idx < |r.subAgents| && r.status != Stopped
    requires forall k :: 0 <= k < |r.subAgents| && k != idx ==> r.subAgents[k].status.IsTerminal()
    ensures Finish(r, idx, now).status == Completed
  {
    FinishUnfold(r, idx, now);
  }

  /** Re-evaluating with a list that is done whenever the earlier one was
      gives the same run as evaluating once. */
  lemma SettleAgain(r: Run, s1: seq<SubAgent>, s2: seq<SubAgent>)
    requires AllDone(s1) ==> AllDone(s2)
    ensures Settle(Settle(r.(subAgents := s1)).(subAgents := s2)) == Settle(r.(subAgents := s2))
  {
  }

  lemma ProducedIsDone(sas: seq<SubAgent>, j: nat, p: SubAgent)
    requires j < |sas| && p.status.IsTerminal() && AllDone(sas)
    ensures AllDone(sas[j := p])
  {
  }

  /** Two callbacks of one run may fire in either order: the run ends the same. */
  lemma FinishCommutes(r: Run, i: nat, j: nat, ti: nat, tj: nat)
    requires i < 3 && j < 3 && i != j && i < |r.subAgents| && j < |r.subAgents|
    ensures Finish(Finish(r, i, ti), j, tj) == Finish(Finish(r, j, tj), i, ti)
  {
    var pi := Produce(r.subAgents[i], i, ti);
    var pj := Produce(r.subAgents[j], j, tj);
    var si := r.subAgents[i := pi];
    var sj := r.subAgents[j := pj];
    var both := si[j := pj];
    assert sj[i := pi] == both;
    FinishUnfold(r, i, ti);
    FinishUnfold(r, j, tj);
    var a := Finish(r, i, ti);
    var b := Finish(r, j, tj);
    FinishUnfold(a, j, tj);
    FinishUnfold(b, i, ti);
    assert a.subAgents[j] == r.subAgents[j];
    assert b.subAgents[i] == r.subAgents[i];
    if AllDone(si) {
      ProducedIsDone(si, j, pj);
    }
    if AllDone(sj) {
      ProducedIsDone(sj, i, pi);
    }
    SettleAgain(r, si, both);
    SettleAgain(r, sj, both);
  }

  /** What a callback leaves in its sub-agent. */
  lemma ProduceSpec(sa: SubAgent, idx: nat, now: nat)
    requires idx < 3
    ensures var p := Produce(sa, idx, now);
      p.status == Completed && |p.generatedEntities| == 1 &&
      !p.generatedEntities[0].saved && p.generatedEntities[0].entityType == KindOf(idx)
  {
  }

  /** After approval, the first two of three callbacks leave the run's status alone. */
  lemma FirstCallbacksKeepStatus(r: Run, p0: nat, p1: nat, p2: nat, t0: nat, t1: nat)
    requires |r.subAgents| == 3
    requires p0 < 3 && p1 < 3 && p2 < 3 && p0 != p1 && p1 != p2 && p0 != p2
    ensures var f1 := Finish(Approve(r), p0, t0);
      f1.status == r.status && Finish(f1, p1, t1).status == r.status
  {
    var a := Approve(r);
    assert a.subAgents[p1].status == Running && a.subAgents[p2].status == Running;
    FinishWhileBusy(a, p0, t0, p2);
    FinishWhileBusy(a, p0, t0, p1);
    FinishWhileBusy(Finish(a, p0, t0), p1, t1, p2);
  }

  /** Once the three callbacks of a run have fired, in any order, each
      sub-agent is Completed holding one unsaved entity of its own kind: a
      feature, a rule and a dataset. */
  lemma ThreeCallbacksProduce(r: Run, p0: nat, p1: nat, p2: nat, t0: nat, t1: nat, t2: nat)
    requires |r.subAgents| == 3
    requires p0 < 3 && p1 < 3 && p2 < 3 && p0 != p1 && p1 != p2 && p0 != p2
    ensures KindOf(0) == Feature && KindOf(1) == Rule && KindOf(2) == Dataset
    ensures var f3 := Finish(Finish(Finish(r, p0, t0), p1, t1), p2, t2);
      forall j :: 0 <= j < 3 ==>
        f3.subAgents[j].status == Completed && |f3.subAgents[j].generatedEntities| == 1 &&
        !f3.subAgents[j].generatedEntities[0].saved &&
        f3.subAgents[j].generatedEntities[0].entityType == KindOf(j)
  {
    var f1 := Finish(r, p0, t0);
    var f2 := Finish(f1, p1, t1);
    var f3 := Finish(f2, p2, t2);
    FinishUnfold(r, p0, t0);
    FinishUnfold(f1, p1, t1);
    FinishUnfold(f2, p2, t2);
    forall j | 0 <= j < 3
      ensures f3.subAgents[j].status == Completed && |f3.subAgents[j].generatedEntities| == 1 &&
        !f3.subAgents[j].generatedEntities[0].saved &&
        f3.subAgents[j].generatedEntities[0].entityType == KindOf(j)
    {
      if j == p2 {
        ProduceSpec(f2.subAgents[p2], p2, t2);
      } else if j == p1 {
        assert f3.subAgents[j] == f2.subAgents[j];
        ProduceSpec(f1.subAgents[p1], p1, t1);
      } else {
        assert f3.subAgents[j] == f1.subAgents[j];
        ProduceSpec(r.subAgents[p0], p0, t0);
      }
    }
  }

  /** Approving a run of three sub-agents and letting the three callbacks fire,
      in any order and with no stop, completes the run only at the last one;
      each sub-agent then holds one unsaved entity of its own kind. */
  lemma ApprovedRunCompletes(r: Run, p0: nat, p1: nat, p2: nat, t0: nat, t1: nat, t2: nat)
    requires |r.subAgents| == 3 && r.status != Stopped
    requires p0 < 3 && p1 < 3 && p2 < 3 && p0 != p1 && p1 != p2 && p0 != p2
    ensures var f1 := Finish(Approve(r), p0, t0);
      var f2 := Finish(f1, p1, t1);
      var f3 := Finish(f2, p2, t2);
      f1.status == r.status && f2.status == r.status &&
      f3.status == Completed && !f3.approvalPending &&
      forall j :: 0 <= j < 3 ==>
        f3.subAgents[j].status == Completed && |f3.subAgents[j].generatedEntities| == 1 &&
        !f3.subAgents[j].generatedEntities[0].saved &&
        f3.subAgents[j].generatedEntities[0].entityType == KindOf(j)
  {
    var a := Approve(r);
    FirstCallbacksKeepStatus(r, p0, p1, p2, t0, t1);
    ThreeCallbacksProduce(a, p0, p1, p2, t0, t1, t2);
    var f2 := Finish(Finish(a, p0, t0), p1, t1);
    FinishUnfold(f2, p2, t2);
    assert AllDone(Finish(f2, p2, t2).subAgents);
  }

  /** A callback that fires after stopRun still completes its sub-agent and
      attaches its entity; only the run's status stays Stopped. */
  lemma LateCompletionAfterStop(r: Run, idx: nat, now: nat)
    requires idx < 3 && idx < |r.subAgents|
    ensures var f := Finish(Stop(r), idx, now);
      f.status == Stopped && f.subAgents[idx].status == Completed &&
      f.subAgents[idx].generatedEntities == [Produced(idx, now)]
  {
  }

  /** A Stopped run stays Stopped under every transition but reject. */
  lemma StoppedStaysStopped(r: Run, si: nat, idx: nat, now: nat, text: string)
    requires r.status == Stopped
    ensures Stop(r).status == Stopped && Approve(r).status == Stopped && Settle(r).status == Stopped
    ensures idx < 3 && idx < |r.subAgents| ==> Finish(r, idx, now).status == Stopped
    ensures si < |r.subAgents| ==>
      WithAgent(r, si, Halt(r.subAgents[si])).status == Stopped &&
      WithAgent(r, si, ApproveAgent(r.subAgents[si])).status == Stopped &&
      WithAgent(r, si, RejectAgent(r.subAgents[si])).status == Stopped &&
      WithAgent(r, si, SendInput(r.subAgents[si])).status == Stopped
    ensures Reject(r).status == Completed
  {
  }

  /** stopSubAgent does not re-evaluate the run: stopping the last running
      sub-agent leaves every sub-agent terminal and the run still Running,
      although maybeCompleteRun would complete it. */
  lemma HaltLeavesRunOpen(prompt: string, t0: nat, t1: nat)
    ensures var f := Finish(Finish(Approve(NewRun(1, prompt, 0)), 0, t0), 1, t1);
      var h := WithAgent(f, 2, Halt(f.subAgents[2]));
      AllDone(h.subAgents) && h.status == Running && Settle(h).status == Completed
  {
    var a := Approve(NewRun(1, prompt, 0));
    FinishWhileBusy(a, 0, t0, 2);
    var f1 := Finish(a, 0, t0);
    FinishWhileBusy(f1, 1, t1, 2);
    FinishUnfold(a, 0, t0);
    FinishUnfold(f1, 1, t1);
  }

  /** rejectSubAgent does not re-evaluate the run either: rejecting the last
      running sub-agent leaves every sub-agent done and the run Running. */
  lemma RejectAgentLeavesRunOpen(prompt: string, t0: nat, t1: nat)
    ensures var f := Finish(Finish(Approve(NewRun(1, prompt, 0)), 0, t0), 1, t1);
      var h := WithAgent(f, 2, RejectAgent(f.subAgents[2]));
      AllDone(h.subAgents) && h.status == Running && Settle(h).status == Completed
  {
    var a := Approve(NewRun(1, prompt, 0));
    FinishWhileBusy(a, 0, t0, 2);
    var f1 := Finish(a, 0, t0);
    FinishWhileBusy(f1, 1, t1, 2);
    FinishUnfold(a, 0, t0);
    FinishUnfold(f1, 1, t1);
  }

  /** stopSubAgent: the sub-agent becomes Stopped; every other field and
      sub-agent is kept, and so is the run's status, whatever the others are. */
  lemma HaltSpec(r: Run, si: nat)
    requires si < |r.subAgents|
    ensures var h := WithAgent(r, si, Halt(r.subAgents[si]));
      h.subAgents[si].status == Stopped &&
      h.subAgents[si].(status := r.subAgents[si].status) == r.subAgents[si] &&
      |h.subAgents| == |r.subAgents| &&
      (forall j :: 0 <= j < |r.subAgents| && j != si ==> h.subAgents[j] == r.subAgents[j]) &&
      h.status == r.status && h.(subAgents := r.subAgents) == r
  {
  }

  /** rejectSubAgent: the sub-agent becomes Completed with its approval
      cleared; every other field and sub-agent is kept, and so is the run's
      status, whatever the others are. */
  lemma RejectAgentSpec(r: Run, si: nat)
    requires si < |r.subAgents|
    ensures var h := WithAgent(r, si, RejectAgent(r.subAgents[si]));
      h.subAgents[si].status == Completed && !h.subAgents[si].needsApproval &&
      h.subAgents[si].(status := r.subAgents[si].status, needsApproval := r.subAgents[si].needsApproval) == r.subAgents[si] &&
      |h.subAgents| == |r.subAgents| &&
      (forall j :: 0 <= j < |r.subAgents| && j != si ==> h.subAgents[j] == r.subAgents[j]) &&
      h.status == r.status && h.(subAgents := r.subAgents) == r
  {
  }

  /** approveSubAgent only marks the sub-agent Running with its approval
      cleared; it schedules no callback, so its response and entities stay
      as they were, and the run is not re-evaluated. */
  lemma ApproveAgentSpec(r: Run, si: nat)
    requires si < |r.subAgents|
    ensures var a := WithAgent(r, si, ApproveAgent(r.subAgents[si]));
      a.subAgents[si].status == Running && !a.subAgents[si].needsApproval &&
      a.subAgents[si].(status := r.subAgents[si].status, needsApproval := r.subAgents[si].needsApproval) == r.subAgents[si] &&
      a.subAgents[si].generatedEntities == r.subAgents[si].generatedEntities &&
      |a.subAgents| == |r.subAgents| &&
      (forall j :: 0 <= j < |r.subAgents| && j != si ==> a.subAgents[j] == r.subAgents[j]) &&
      a.(subAgents := r.subAgents) == r
  {
  }

  /** sendAdditionalInput: an empty buffer changes nothing; otherwise the
      marker and the input are appended to the old response, the buffer is
      cleared and nothing else changes, so sending again is a no-op. */
  lemma SendInputSpec(sa: SubAgent)
    ensures sa.additionalInput == "" ==> SendInput(sa) == sa
    ensures sa.additionalInput != "" ==>
      SendInput(sa).response == sa.response + InputMarker + sa.additionalInput &&
      SendInput(sa).additionalInput == "" &&
      SendInput(sa).(response := sa.response, additionalInput := sa.additionalInput) == sa
    ensures SendInput(sa).response[..|sa.response|] == sa.response
    ensures SendInput(SendInput(sa)) == SendInput(sa)
  {
  }

  /** Unlike a prompt, white-space-only additional input is not ignored. */
  lemma WhitespaceInputIsSent(sa: SubAgent)
    ensures IsBlank(" ")
    ensures SendInput(EditInput(sa, " ")).response == sa.response + InputMarker + " "
  {
  }

  /** Every run-level transition keeps a run well formed: its ids, three
      sub-agents, and each sub-agent holding at most one entity of its own kind. */
  lemma RunTransitionsKeepWellFormed(r: Run, n: nat)
    requires WellFormedRun(r, n)
    ensures WellFormedRun(Stop(r), n) && WellFormedRun(Approve(r), n)
    ensures WellFormedRun(Reject(r), n) && WellFormedRun(Settle(r), n)
  {
  }

  /** `sendPrompt` puts the next run in front: the list stays well formed. */
  lemma {:induction false} NewRunKeepsWellFormed(rs: seq<Run>, prompt: string, now: nat)
    requires WellFormedRuns(rs)
    ensures WellFormedRuns([NewRun(|rs| + 1, prompt, now)] + rs)
  {
    var rs' := [NewRun(|rs| + 1, prompt, now)] + rs;
    forall i | 0 <= i < |rs'|
      ensures WellFormedRun(rs'[i], |rs'| - i)
    {
      if i > 0 {
        assert rs'[i] == rs[i - 1];
      }
    }
  }

  /** The entry sendPrompt puts in front of the summary for the next run is
      an analysis entry anchored to that run, linked to no entity. */
  lemma StartEntrySpec(count: nat, prompt: string, now: nat)
    ensures var e := StartEntry(NewRun(count + 1, prompt, now));
      e.anchorId == AnchorId(count + 1) && e.kind == Analysis &&
      e.createdEntityId == None && e.isSaved == None
  {
  }

  /** Prepending the start entry of the next run keeps every summary anchor
      naming an existing run. */
  lemma {:induction false} StartEntryResolves(summary: seq<SummaryItem>, count: nat, prompt: string, now: nat)
    requires AnchorsResolve(summary, count)
    ensures AnchorsResolve([StartEntry(NewRun(count + 1, prompt, now))] + summary, count + 1)
  {
    var s := [StartEntry(NewRun(count + 1, prompt, now))] + summary;
    forall i | 0 <= i < |s|
      ensures AnchorResolves(s[i].anchorId, count + 1)
    {
      if i == 0 {
        assert s[i].anchorId == AnchorId(count + 1);
      } else {
        assert s[i] == summary[i - 1];
      }
    }
  }

  lemma FinishKeepsWellFormed(r: Run, n: nat, idx: nat, now: nat)
    requires WellFormedRun(r, n) && idx < 3
    ensures WellFormedRun(Finish(r, idx, now), n)
  {
  }

  /** The sub-agent actions keep a sub-agent's id and entities, and so keep the
      run well formed. */
  lemma AgentActionsKeepWellFormed(r: Run, n: nat, si: nat, text: string)
    requires WellFormedRun(r, n) && si < 3
    ensures WellFormedRun(WithAgent(r, si, Halt(r.subAgents[si])), n)
    ensures WellFormedRun(WithAgent(r, si, ApproveAgent(r.subAgents[si])), n)
    ensures WellFormedRun(WithAgent(r, si, RejectAgent(r.subAgents[si])), n)
    ensures WellFormedRun(WithAgent(r, si, EditInput(r.subAgents[si], text)), n)
    ensures WellFormedRun(WithAgent(r, si, SendInput(r.subAgents[si])), n)
  {
  }
}
