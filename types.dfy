/** The records the chat workbench keeps: generated entities, sub-agents,
    agent runs, activity-summary entries and chat-history items. */
module Types {

  datatype Option<T> = None | Some(value: T)

  /** Lifecycle state shared by runs and sub-agents. */
  datatype Status = Idle | Running | Completed | Stopped {
    /** Completed and Stopped are the states a sub-agent ends in. */
    predicate IsTerminal() { Completed? || Stopped? }
  }

  /** The three kinds of generated entity. */
  datatype EntityType = Feature | Rule | Dataset

  /** The kinds an activity-summary entry may carry. */
  datatype SummaryKind = FeatureItem | RuleItem | DatasetItem | Analysis | Workflow | Other

  /** One row of the sample dataset shown in a dataset preview; the amount is
      held in cents. */
  datatype SampleRow = SampleRow(eventId: string, userId: string, amountCents: int, ts: string)

  /** The kind-specific preview payload of an entity. */
  datatype Preview =
    | FeaturePreview(aggregation: string, expression: string)
    | RulePreview(condition: string, actions: string)
    | DatasetPreview(rows: seq<SampleRow>)

  datatype Entity = Entity(
    id: string,
    entityType: EntityType,
    name: string,
    description: string,
    saved: bool,
    preview: Preview,
    editUrl: string)

  /** A sub-agent; the UI-only `expanded` flag is not kept. An absent
      `needsApproval`, `additionalInput` or `response` is its falsy value. */
  datatype SubAgent = SubAgent(
    id: string,
    name: string,
    status: Status,
    needsApproval: bool,
    additionalInput: string,
    response: string,
    generatedEntities: seq<Entity>)

  /** An agent run; `startedAt` is a clock reading in milliseconds. */
  datatype Run = Run(
    id: string,
    name: string,
    startedAt: nat,
    stopped: bool,
    status: Status,
    subAgents: seq<SubAgent>,
    approvalRequired: bool,
    approvalPending: bool,
    anchorId: string)

  /** An activity-summary entry, optionally linked to a generated entity; `caption`
      is the entry's `label`, a reserved word in Dafny. */
  datatype SummaryItem = SummaryItem(
    id: string,
    caption: string,
    kind: SummaryKind,
    anchorId: string,
    createdEntityId: Option<string>,
    isSaved: Option<bool>)

  /** A chat in the history rail; `updatedAt` is a clock reading in milliseconds. */
  datatype ChatItem = ChatItem(id: string, title: string, updatedAt: int)
}
