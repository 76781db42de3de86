/**
 The rows of the repository (domain/models.py, domain/enums.py, workers/contracts/models.py).

 Tables that are only ever appended to are sequences in rowid order and a row's generated id is its
 position; a table with a unique key that is looked up by that key is a map. A request's payload hash
 is the canonical request itself, which is what an injective hash amounts to.
 */
module Records {
  import opened Basics
  import opened TurnState

  datatype BattleState = SelectionOpen | SelectionAdviceReady | BattleReady | TurnCapturePending
    | TurnReviewRequired | TurnReviewed | TurnRecorded | MatchEnded | MatchExported | Aborted

  datatype JobType = Capture | Ocr | SelectionAdviceJob | TurnAdviceJob
  datatype JobStatus = Queued | InFlight | Succeeded | Failed | TimedOut | Cancelled | Interrupted | DeliveryUnknown
  datatype Disposition = Applied | StaleRejected | InvalidRejected | DuplicateIgnored
  datatype MatchOutcome = Win | Lose

  datatype RulesPin = RulesPin(ruleset: Id, snapshot: Id)
  datatype IntelPin = Pinned(generation: Id, snapshotHash: Id) | PinUnavailable

  /** battle_sessions, but for active_slot, which is the store's unique index `slot`. */
  datatype Session = Session(
    matchId: Id, generation: nat, state: BattleState, battleRevision: nat, metadataRevision: nat,
    reviewedSelection: Option<nat>, selectionAdvice: Option<Id>, applied: Option<nat>,
    turn: Option<TurnId>, reviewedBoard: Option<nat>, turnAdvice: Option<Id>,
    rulesPin: RulesPin, intelPin: IntelPin)
  {
    function Bumped(): Session {
      this.(battleRevision := battleRevision + 1)
    }
  }

  type Name = string

  /** A detailed team build, by the part the lifecycle reads: its six member names. */
  datatype TeamBuild = TeamBuild(members: seq<Name>)

  datatype SelectionFacts = SelectionFacts(session: nat, selfTeam: seq<Name>, opponentTeam: seq<Name>,
                                           build: Option<TeamBuild>)
  datatype SelectionAdvice = SelectionAdvice(adviceId: Id, session: nat, job: nat, three: seq<Name>, lead: Name)
  datatype AppliedSelection = AppliedSelection(session: nat, three: seq<Name>, lead: Name, backline: seq<Name>,
                                               sourceAdvice: Id)

  datatype TurnFacts = TurnFacts(
    turn: TurnId, selfActive: Name, opponentActive: Name, selfHp: HpBucket, opponentHp: HpBucket,
    moves: seq<Name>, switches: seq<Name>, note: string, previous: Option<nat>)

  datatype TurnAdvice = TurnAdvice(adviceId: Id, turn: TurnId, job: nat, inputSnapshot: nat,
                                   actionType: ActionType, actionName: Name)

  datatype Action = Action(actionType: ActionType, name: Name)
  datatype RecordedAction = RecordedAction(turn: TurnId, own: Action, opponent: Option<Action>, order: ActionOrder)

  datatype SnapshotId = SelectionSnapshot(row: nat) | FactsSnapshot(row: nat) | StateSnapshot(stateId: Id)

  datatype Request =
    | SelectionRequest(session: nat, matchId: Id, generation: nat, revision: nat, reviewed: nat, facts: SelectionFacts)
    | TurnRequest(session: nat, matchId: Id, generation: nat, revision: nat, snapshot: nat, board: TurnFacts,
                  three: seq<Name>, build: Option<TeamBuild>)
    | RichRequest(session: nat, matchId: Id, generation: nat, revision: nat, state: Id, body: nat)

  /**
   Which call created a job. No command reads it: it records, for the ledger's history only, that a
   production Selection job replaced an earlier one.
   */
  datatype Origin = Direct | Production(replaced: Option<nat>)

  datatype Job = Job(
    commandId: Id, jobType: JobType, session: nat, matchId: Id, generation: nat, turnNumber: Option<nat>,
    baseRevision: nat, expectedState: BattleState, snapshot: SnapshotId, digest: Request, status: JobStatus,
    dispatchCount: nat, origin: Origin)

  datatype SelectionPayload = MalformedSelection | Proposal(three: seq<Name>, lead: Name)

  /** `wellFormed` is the response schema's own verdict on everything but the recommended action. */
  datatype TurnPayload = MalformedTurn | Body(actionType: ActionType, actionName: Name, wellFormed: bool)

  /** What arrives from a worker: every field is arbitrary. */
  datatype ResultEnvelope = ResultEnvelope(
    contractVersion: nat, resultId: Id, jobId: nat, commandId: Id, jobType: JobType, session: nat, matchId: Id,
    generation: nat, turnNumber: Option<nat>, baseRevision: nat, expectedState: BattleState, snapshot: SnapshotId,
    digest: Request, selectionPayload: SelectionPayload, turnPayload: TurnPayload)

  const CONTRACT_VERSION: nat := 1

  datatype AuditReason = BindingAccepted | InvalidPayload | ResultAlreadyApplied | JobIdMismatch | WrongLane
    | NotRichContract | JobIdNotCurrent | JobNotAcceptingResults | ContractVersionMismatch | CommandIdMismatch
    | JobTypeMismatch | NoActiveMatchForResult | SessionDiffers | MatchDiffers | GenerationDiffers | TurnDiffers
    | RevisionDiffers | ExpectedStateDiffers | InputSnapshotDiffers | StateNotCurrentBinding | DigestDiffers

  datatype Audit = Audit(resultId: Id, job: nat, disposition: Disposition, reason: AuditReason)

  datatype SelectionKey = SelectionKey(session: nat, matchId: Id, generation: nat, revision: nat, selection: nat)
  datatype TurnLedgerRow = TurnLedgerRow(session: nat, matchId: Id, generation: nat, turnNumber: nat, revision: nat,
                                         snapshot: SnapshotId, job: nat)

  /** A provider failure reason, by what the transient test reads off its text. */
  datatype FailureReason = NoReason | Timeout | NetworkError | HttpError(status: Option<int>) | OtherReason
  datatype AttemptOutcome = Started | AttemptSucceeded | AttemptFailed
  datatype AttemptKey = AttemptKey(job: nat, ordinal: nat)
  datatype Attempt = Attempt(outcome: AttemptOutcome, reason: FailureReason)

  datatype DraftKey = DraftKey(session: Id, turnId: TurnId, revision: nat)
  datatype Completion = Completion(transaction: Id, identity: TurnIdentity, basedOn: Id, action: RecordedAction,
                                   deltaId: Id)

  datatype OutcomeRecord = OutcomeRecord(outcome: MatchOutcome, finalRevision: nat)

  /** One turn of an exported match; a row's clock columns are left out. */
  datatype ExportedTurn = ExportedTurn(number: nat, board: TurnFacts, advice: Option<TurnAdvice>,
                                       action: RecordedAction, activeBuild: Option<Name>)

  /** The rich part of a document: the match's rich blocks, and its pinned intel's provenance where that was read. */
  datatype RichPart = RichPart(blocks: Id, intel: Option<Id>)

  /** The exported document: its bytes, and so their hash, are an injective function of this value. */
  datatype ExportPayload = ExportPayload(
    session: nat, matchId: Id, generation: nat, outcome: OutcomeRecord, selection: SelectionFacts, three: seq<Name>,
    lead: Name, builds: Option<seq<Name>>, turns: seq<ExportedTurn>, history: seq<RecordedAction>, rich: Option<RichPart>)

  datatype Refusal =
    | ActiveMatchExists | NoActiveMatch | RulesSnapshotUnavailable | AbortConfirmationRequired | AbortNotAllowed
    | SelfTeamBuildMismatch | WrongState | ReviewedSelectionRequired | ProviderRequestPending
    | ProviderDeliveryUnknown | SelectionAttemptConsumed | MissingRow | JobTypeNotExpected | JobIdNotCurrentForDispatch
    | JobNotDispatchable | HumanApplyRequired | SelectionAdviceRequired | ReviewedSelectionUnavailable
    | NotExactlyThree | DuplicateSelection | OutsideReviewedTeam | LeadNotSelected | CurrentTurnExists
    | FactsConfirmationRequired | CurrentTurnRequired | AppliedSelectionRequired | ActiveOutsideSelection
    | SwitchOutsideSelection | ActiveAmongSwitches | InvalidTurnFacts | ReviewedFactsRequired | TurnAdviceExists
    | DenyPendingJob | DenyAttemptConsumed | TurnAttemptConsumed | NoConfirmedState | StateNotCurrent | RichGateDenied
    | ActionConfirmationRequired | InvalidOpponentName | TurnAdviceRequired | ActionAlreadyRecorded | ActionNotLegal
    | InvalidAction | CompletionTurnMismatch | CompletionDeltaMismatch | CompletionStateMismatch | BasedOnStateMissing
    | DeltaNotCurrent | DerivationFailed(error: TurnStateError) | Phase1BindingStale | NextTurnRevisionMismatch
    | OutcomeConfirmationRequired | OutcomeAlreadySet | EndNotAllowed | ExportRecordMissing | MatchChangedDuringExport
    | ExportFileUnreadable | ExportHashMismatch | ExportContentMismatch
    | AttemptNotStarted | IntegrityViolation
}
