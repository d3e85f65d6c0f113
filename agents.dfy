/** The run and sub-agent state machine: creating a run from a prompt,
    approving, rejecting and stopping it, the per-sub-agent completion that a
    timer delivers, completion aggregation, and the sub-agent-level actions. */
module Agents {
  import opened Types
  import opened Decimal
  import opened Text

  function RunId(n: nat): string
  {
    "r" + NatToString(n)
  }

  function AnchorId(n: nat): string
  {
    "anchor-" + RunId(n)
  }

  /** Id suffix and name of the three sub-agents every prompt fans out to. */
  const AgentSuffixes: seq<string> := ["-a", "-b", "-c"]
  const AgentNames: seq<string> := ["Feature Generator", "Rule Drafting", "Dataset Builder"]

  /** What the completion of sub-agent `idx` produces: its response, the
      entity it generates and the summary entry announcing it. */
  datatype Blueprint = Blueprint(
    response: string,
    idPrefix: string,
    entityType: EntityType,
    entityName: string,
    description: string,
    preview: Preview,
    editUrl: string,
    caption: string,
    kind: SummaryKind)

  const SampleRows: seq<SampleRow> := [
    SampleRow("e01", "u01", 12455, "2025-11-08T11:24:00Z"),
    SampleRow("e02", "u01", 8810, "2025-11-08T12:10:00Z"),
    SampleRow("e03", "u02", 92100, "2025-11-08T12:22:30Z")
  ]

  const FeatureBlueprint: Blueprint :=
    Blueprint("Generated feature based on user behavior (sum(amount) over 24h).",
      "feat-", Feature, "total_amount_24h_by_user", "Aggregation over 24h by user_id",
      FeaturePreview("Aggregation", "sum(amount) OVER user_id LAST 24h"),
      "/features/total_amount_24h_by_user/edit",
      "Feature generated: total_amount_24h_by_user", FeatureItem)

  const RuleBlueprint: Blueprint :=
    Blueprint("Drafted a rule using velocity and amount thresholds.",
      "rule-", Rule, "HighVelocityLargeAmount", "Decline if amount>1000 and velocity_24h>3",
      RulePreview("amount > 1000 AND velocity_24h > 3", "Decline"),
      "/rules/HighVelocityLargeAmount/edit",
      "Rule drafted: HighVelocityLargeAmount", RuleItem)

  const DatasetBlueprint: Blueprint :=
    Blueprint("Built a dataset of declined transactions (sample of 1000 rows).",
      "ds-", Dataset, "declined_txn_sample", "Sample of declined transactions in last 7d",
      DatasetPreview(SampleRows),
      "/datasets/declined_txn_sample/edit",
      "Dataset built: declined_txn_sample", DatasetItem)

  /** The kind of entity sub-agent `idx` generates. */
  function KindOf(idx: nat): EntityType
    requires idx < 3
  {
    if idx == 0 then Feature else if idx == 1 then Rule else Dataset
  }

  /** The callbacks of sub-agents 0, 1 and 2 generate a feature, a rule and a
      dataset respectively. */
  function BlueprintOf(idx: nat): (b: Blueprint)
    requires idx < 3
    ensures b.entityType == KindOf(idx)
  {
    if idx == 0 then FeatureBlueprint else if idx == 1 then RuleBlueprint else DatasetBlueprint
  }

  // ---------------------------------------------------------------- creating a run

  function RunName(prompt: string): string
  {
    "Agent Orchestration for: " + Shorten(prompt)
  }

  function IdleAgent(runId: string, j: nat): SubAgent
    requires j < 3
  {
    SubAgent(runId + AgentSuffixes[j], AgentNames[j], Idle, false, "", "", [])
  }

  /** The run `sendPrompt` creates when `n - 1` runs exist. */
  function NewRun(n: nat, prompt: string, now: nat): Run
  {
    var id := RunId(n);
    Run(id, RunName(prompt), now, false, Running,
      [IdleAgent(id, 0), IdleAgent(id, 1), IdleAgent(id, 2)], true, true, AnchorId(n))
  }

  /** The 'analysis' summary entry announcing a new run. */
  function StartEntry(r: Run): SummaryItem
  {
    SummaryItem("s-" + r.id, "Started: " + r.name, Analysis, r.anchorId, None, None)
  }

  /** A fresh run waits for approval with three idle sub-agents holding nothing. */
  lemma NewRunSpec(n: nat, prompt: string, now: nat)
    ensures var r := NewRun(n, prompt, now);
      r.id == "r" + NatToString(n) && r.anchorId == "anchor-" + r.id &&
      r.status == Running && r.approvalPending && r.approvalRequired && r.startedAt == now &&
      |r.subAgents| == 3 &&
      !r.stopped &&
      (forall j :: 0 <= j < 3 ==>
        r.subAgents[j].id == r.id + AgentSuffixes[j] && r.subAgents[j].name == AgentNames[j] &&
        r.subAgents[j].status == Idle && !r.subAgents[j].needsApproval && r.subAgents[j].additionalInput == "" &&
        r.subAgents[j].generatedEntities == [] && r.subAgents[j].response == "") &&
      r.name == "Agent Orchestration for: " + (if |prompt| > 60 then prompt[..60] + "\U{2026}" else prompt)
  {
  }

  // ---------------------------------------------------------------- run-level actions

  /** What `stopRun` does to one sub-agent: Completed stays, anything else stops. */
  function StopAgent(sa: SubAgent): SubAgent
  {
    sa.(status := if sa.status == Completed then Completed else Stopped)
  }

  function StopAgents(sas: seq<SubAgent>): seq<SubAgent>
  {
    seq(|sas|, j requires 0 <= j < |sas| => StopAgent(sas[j]))
  }

  /** `stopRun(run)`. */
  function Stop(r: Run): Run
  {
    r.(status := Stopped, stopped := true, approvalPending := false, subAgents := StopAgents(r.subAgents))
  }

  /** What `approve` does to one sub-agent, whatever its status. */
  function Launch(sa: SubAgent): SubAgent
  {
    sa.(status := Running)
  }

  function LaunchAgents(sas: seq<SubAgent>): seq<SubAgent>
  {
    seq(|sas|, j requires 0 <= j < |sas| => Launch(sas[j]))
  }

  /** `approve(run)` without its timers; it does not look at `approvalPending`. */
  function Approve(r: Run): Run
  {
    r.(approvalPending := false, subAgents := LaunchAgents(r.subAgents))
  }

  /** `reject(run)`. */
  function Reject(r: Run): Run
  {
    r.(approvalPending := false, status := Completed)
  }

  /** The `every` of `maybeCompleteRun`: each sub-agent is Completed or Stopped. */
  predicate AllDone(sas: seq<SubAgent>)
  {
    forall j :: 0 <= j < |sas| ==> sas[j].status.IsTerminal()
  }

  /** `maybeCompleteRun(run)`. */
  function Settle(r: Run): Run
  {
    if AllDone(r.subAgents) && r.status != Stopped then r.(status := Completed) else r
  }

  // ---------------------------------------------------------------- timer callbacks

  /** The entity callback `idx` generates, its id built from the clock reading `now`. */
  function Produced(idx: nat, now: nat): Entity
    requires idx < 3
  {
    var b := BlueprintOf(idx);
    Entity(b.idPrefix + NatToString(now), b.entityType, b.entityName, b.description, false, b.preview, b.editUrl)
  }

  function Produce(sa: SubAgent, idx: nat, now: nat): SubAgent
    requires idx < 3
  {
    sa.(response := BlueprintOf(idx).response, generatedEntities := [Produced(idx, now)], status := Completed)
  }

  function WithAgent(r: Run, si: nat, sa: SubAgent): Run
    requires si < |r.subAgents|
  {
    r.(subAgents := r.subAgents[si := sa])
  }

  /** The run after callback `idx` fired at time `now`: the sub-agent is
      produced and the run re-evaluated. Nothing checks for a stop first. */
  function Finish(r: Run, idx: nat, now: nat): (f: Run)
    requires idx < 3 && idx < |r.subAgents|
    ensures |f.subAgents| == |r.subAgents| && f.id == r.id && f.anchorId == r.anchorId
  {
    Settle(WithAgent(r, idx, Produce(r.subAgents[idx], idx, now)))
  }

  /** The summary entry callback `idx` prepends, linked to the new entity. */
  function CompletionEntry(r: Run, idx: nat, now: nat): SummaryItem
    requires idx < 3 && idx < |r.subAgents|
  {
    var b := BlueprintOf(idx);
    SummaryItem("sum-" + r.subAgents[idx].id, b.caption, b.kind, r.anchorId, Some(Produced(idx, now).id), Some(false))
  }

  // ---------------------------------------------------------------- sub-agent actions

  /** `stopSubAgent(sa)`. */
  function Halt(sa: SubAgent): SubAgent
  {
    sa.(status := Stopped)
  }

  /** `approveSubAgent(sa)`: no work is scheduled. */
  function ApproveAgent(sa: SubAgent): SubAgent
  {
    sa.(needsApproval := false, status := Running)
  }

  /** `rejectSubAgent(sa)`. */
  function RejectAgent(sa: SubAgent): SubAgent
  {
    sa.(needsApproval := false, status := Completed)
  }

  /** The text field bound to `sa.additionalInput`. */
  function EditInput(sa: SubAgent, text: string): SubAgent
  {
    sa.(additionalInput := text)
  }

  const InputMarker: string := "\n\n[User additional input]: "

  /** `sendAdditionalInput(sa)`: only an empty buffer is ignored. */
  function SendInput(sa: SubAgent): SubAgent
  {
    if sa.additionalInput == "" then sa
    else sa.(response := sa.response + InputMarker + sa.additionalInput, additionalInput := "")
  }

  // ---------------------------------------------------------------- well-formedness

  /** Sub-agent `j` of run `runId` keeps its id and holds at most one entity,
      of the kind its callback generates. */
  predicate WellFormedAgent(sa: SubAgent, runId: string, j: nat)
    requires j < 3
  {
    sa.id == runId + AgentSuffixes[j] && |sa.generatedEntities| <= 1 &&
    forall e :: e in sa.generatedEntities ==> e.entityType == KindOf(j)
  }

  /** The run created `n`-th: its ids, and its three sub-agents. */
  predicate WellFormedRun(r: Run, n: nat)
  {
    r.id == RunId(n) && r.anchorId == AnchorId(n) && |r.subAgents| == 3 &&
    forall j :: 0 <= j < 3 ==> WellFormedAgent(r.subAgents[j], r.id, j)
  }

  /** Runs newest first: the run at index i was created (|rs| - i)-th. */
  predicate WellFormedRuns(rs: seq<Run>)
  {
    forall i :: 0 <= i < |rs| ==> WellFormedRun(rs[i], |rs| - i)
  }

  /** A summary anchor that names one of the first `count` runs. */
  ghost predicate AnchorResolves(anchor: string, count: nat)
  {
    exists n :: 1 <= n <= count && anchor == AnchorId(n)
  }

  /** Every summary entry's anchor names one of the first `count` runs. */
  ghost predicate AnchorsResolve(summary: seq<SummaryItem>, count: nat)
  {
    forall i :: 0 <= i < |summary| ==> AnchorResolves(summary[i].anchorId, count)
  }

  lemma RunIdInjective(a: nat, b: nat)
    requires RunId(a) == RunId(b)
    ensures a == b
  {
    assert NatToString(a) == RunId(a)[1..];
    assert NatToString(b) == RunId(b)[1..];
    NatToStringInjective(a, b);
  }

  lemma AnchorIdInjective(a: nat, b: nat)
    requires AnchorId(a) == AnchorId(b)
    ensures a == b
  {
    assert RunId(a) == AnchorId(a)[7..];
    assert RunId(b) == AnchorId(b)[7..];
    RunIdInjective(a, b);
  }

  /** Distinct runs have distinct ids and distinct anchors, so a summary
      entry's anchor designates a single run. */
  lemma RunIdsDistinct(rs: seq<Run>)
    requires WellFormedRuns(rs)
    ensures forall i, j :: 0 <= i < |rs| && 0 <= j < |rs| && i != j ==>
      rs[i].id != rs[j].id && rs[i].anchorId != rs[j].anchorId
  {
    forall i, j | 0 <= i < |rs| && 0 <= j < |rs| && rs[i].id == rs[j].id
      ensures i == j
    {
      RunIdInjective(|rs| - i, |rs| - j);
    }
    forall i, j | 0 <= i < |rs| && 0 <= j < |rs| && rs[i].anchorId == rs[j].anchorId
      ensures i == j
    {
      AnchorIdInjective(|rs| - i, |rs| - j);
    }
  }
}
