/**
 export_match (application/match_service.py:132-225) over the repository and the export directory together. A call
 builds its document, looks for the file, writes it, reads it back and commits its record as separate steps, with
 any commands, other exports and crashes in between.
 */
module ExportCrash {
  import opened Basics
  import opened TurnState
  import opened Records
  import opened Store
  import opened Commands
  import opened Invariant
  import opened Evolution
  import opened Effects
  import opened Preservation
  import opened Steps
  import opened Guarantees
  import opened Export

  datatype ExportRefusal = NoMatch | NotEnded | RecordMissing | OutcomeMissing | PayloadFailed(error: ExportError)
    | RichFailed | ContentMismatch | ReadBackMismatch | NotVerified(refusal: Refusal) | CommitFailed(refusal: Refusal)

  datatype Reply = Exported(file: ExportPayload) | Rejected(refusal: ExportRefusal) | Crashed

  /** Where a call is: its document is built, it found no file, its file is in place, or was read back as needed. */
  datatype Stage = Built | SawNoFile | Placed | ReadBack

  /** A call under way, with the session and document it decided on before its transaction. */
  datatype Exporter = Exporter(session: nat, document: ExportPayload, stage: Stage)

  /** `files` maps a match id to the bytes at its export path; a replace is atomic. */
  datatype World = World(store: Store, files: map<Id, ExportPayload>, exporters: map<Id, Exporter>)

  /** match_uses_rich_state_contract */
  predicate UsesRich(s: Store, i: nat)
    requires i < |s.sessions|
  {
    exists k :: 0 <= k < |s.states| && StateOf(s.states[k], i, s.sessions[i].matchId, s.sessions[i].generation)
  }

  /**
   What a call reads besides the modelled rows: the match's rich blocks, None when their validators refuse, and the
   provenance of its pinned generation, None when the intel directory does not give it just then.
   */
  datatype RichInput = RichInput(blocks: Option<Id>, intel: Option<Id>)

  /** _opponent_intel_pin_export: without a pinned generation no file is read. */
  function IntelProvenance(pin: IntelPin, read: Option<Id>): Option<Id> {
    if pin.Pinned? then read else None
  }

  /** So only a match with a pinned generation has documents that differ between two calls on the same rows. */
  function Document(s: Store, i: nat, rich: RichInput): Result<ExportPayload, ExportRefusal>
    requires i < |s.sessions|
  {
    if i !in s.outcomes then Failure(OutcomeMissing)
    else
      match BuildPayload(s, i, s.outcomes[i])
      case Failure(error) => Failure(PayloadFailed(error))
      case Success(legacy) =>
        if !UsesRich(s, i) then Success(legacy)
        else if rich.blocks.None? then Failure(RichFailed)
        else
          var intel := IntelProvenance(s.sessions[i].intelPin, rich.intel);
          Success(legacy.(rich := Some(RichPart(rich.blocks.value, intel))))
  }

  /**
   Two calls on the same rows build different documents exactly when they read other provenance of the match's
   pin.
   */
  lemma DocumentsDifferIff(s: Store, i: nat, a: RichInput, b: RichInput)
    requires i < |s.sessions| && a.blocks == b.blocks && Document(s, i, a).Success?
    ensures Document(s, i, b).Success?
    ensures Document(s, i, a) != Document(s, i, b) <==>
              UsesRich(s, i) && s.sessions[i].intelPin.Pinned? && a.intel != b.intel
  {
    hide BuildPayload, UsesRich;
  }

  function OnDisk(w: World, matchId: Id): Option<ExportPayload> {
    if matchId in w.files then Some(w.files[matchId]) else None
  }

  function Verified(record: ExportPayload, expected: Option<ExportPayload>, onDisk: Option<ExportPayload>): Reply {
    match VerifyExport(record, expected, onDisk)
    case Pass => Exported(record)
    case Fail(refusal) => Rejected(NotVerified(refusal))
  }

  // ---- one call, step by step ---------------------------------------------------------------

  datatype Prepared = Ends(reply: Reply) | Writes(session: nat, document: ExportPayload)

  /** Everything before the file: the reads, the document, and the record that may already be there. */
  function Prepare(w: World, rich: RichInput): Prepared {
    var s := w.store;
    match ActiveSession(s.sessions, s.slot)
    case Failure(_) => Ends(Rejected(NoMatch))
    case Success(i) =>
      var x := s.sessions[i];
      if x.state == MatchExported then
        Ends(if i in s.exports then Verified(s.exports[i], None, OnDisk(w, x.matchId)) else Rejected(RecordMissing))
      else if x.state != MatchEnded then Ends(Rejected(NotEnded))
      else
        match Document(s, i, rich)
        case Failure(refusal) => Ends(Rejected(refusal))
        case Success(document) =>
          if i in s.exports then Ends(Verified(s.exports[i], Some(document), OnDisk(w, x.matchId)))
          else Writes(i, document)
  }

  datatype Next = Goes(stage: Stage) | Stops(reply: Reply)

  /** What a call's next step does to the directory or the repository. */
  function Effect(w: World, x: Exporter): World {
    match x.stage
    case SawNoFile => w.(files := w.files[x.document.matchId := x.document])
    case ReadBack =>
      (match CommitExport(w.store, x.session, x.document, OnDisk(w, x.document.matchId))
       case Success(s') => w.(store := s')
       case Failure(_) => w)
    case _ => w
  }

  /** And where the call is after it. Only rich documents are read back. */
  function After(w: World, x: Exporter): Next {
    var file := OnDisk(w, x.document.matchId);
    match x.stage
    case Built => if file.None? then Goes(SawNoFile) else if file == Some(x.document) then Goes(Placed)
                  else Stops(Rejected(ContentMismatch))
    case SawNoFile => Goes(Placed)
    case Placed => if x.document.rich.Some? && file != Some(x.document) then Stops(Rejected(ReadBackMismatch))
                   else Goes(ReadBack)
    case ReadBack =>
      match CommitExport(w.store, x.session, x.document, file)
      case Success(_) => Stops(Exported(x.document))
      case Failure(refusal) => Stops(Rejected(CommitFailed(refusal)))
  }

  /**
   What one step may do. Only the step after an empty path was seen touches the directory, and then its own path; only
   the last touches the repository. A call goes past its file exactly when the path was empty or holds its document,
   and a rich one once more when it reads its document back.
   */
  lemma StepDoes(w: World, x: Exporter)
    ensures Effect(w, x).exporters == w.exporters
    ensures x.stage != SawNoFile ==> Effect(w, x).files == w.files
    ensures x.stage == SawNoFile ==> Effect(w, x).files == w.files[x.document.matchId := x.document]
    ensures x.stage != ReadBack ==> Effect(w, x).store == w.store
    ensures x.stage == Built ==>
              && (After(w, x) == Goes(SawNoFile) <==> x.document.matchId !in w.files)
              && (After(w, x) == Goes(Placed) <==>
                    x.document.matchId in w.files && w.files[x.document.matchId] == x.document)
              && (After(w, x).Stops? ==> After(w, x).reply == Rejected(ContentMismatch))
    ensures x.stage == SawNoFile ==> After(w, x) == Goes(Placed)
    ensures x.stage == Placed ==>
              && (After(w, x) == Goes(ReadBack) <==>
                    || x.document.rich == None
                    || (x.document.matchId in w.files && w.files[x.document.matchId] == x.document))
              && (After(w, x) != Goes(ReadBack) ==> After(w, x) == Stops(Rejected(ReadBackMismatch)))
    ensures x.stage == ReadBack ==>
              match CommitExport(w.store, x.session, x.document, OnDisk(w, x.document.matchId))
              case Success(s') => Effect(w, x).store == s' && After(w, x) == Stops(Exported(x.document))
              case Failure(refusal) =>
                Effect(w, x).store == w.store && After(w, x) == Stops(Rejected(CommitFailed(refusal)))
  {
    hide CommitExport;
  }

  function Rank(stage: Stage): nat {
    match stage case Built => 3 case SawNoFile => 2 case Placed => 1 case ReadBack => 0
  }

  /** The rest of a call that nothing disturbs, but for a crash when it gets to a stage. */
  function Finish(w: World, x: Exporter, crash: Option<Stage>): (World, Reply)
    decreases Rank(x.stage)
  {
    if crash == Some(x.stage) then (w, Crashed)
    else
      match After(w, x)
      case Stops(reply) => (Effect(w, x), reply)
      case Goes(stage) => Finish(Effect(w, x), x.(stage := stage), crash)
  }

  /** How a call ends whose file is in place. */
  lemma FinishPlaced(w: World, i: nat, document: ExportPayload, crash: Option<Stage>)
    requires OnDisk(w, document.matchId) == Some(document)
    ensures Finish(w, Exporter(i, document, Placed), crash) ==
            if crash == Some(Placed) || crash == Some(ReadBack) then (w, Crashed)
            else
              match CommitExport(w.store, i, document, Some(document))
              case Success(s') => (w.(store := s'), Exported(document))
              case Failure(refusal) => (w, Rejected(CommitFailed(refusal)))
  {
    hide CommitExport;
    var x := Exporter(i, document, ReadBack);
    assert crash != Some(Placed) ==> Finish(w, x.(stage := Placed), crash) == Finish(w, x, crash);
  }

  /** export_match as one undisturbed call. */
  function ExportMatch(w: World, rich: RichInput, crash: Option<Stage>): (World, Reply) {
    match Prepare(w, rich)
    case Ends(reply) => (w, reply)
    case Writes(i, document) => Finish(w, Exporter(i, document, Built), crash)
  }

  // ---- runs of commands, exports and crashes ------------------------------------------------

  /** The record is only ever written by an export. */
  datatype Act =
    | Do(command: Command) | Begin(exporter: Id, rich: RichInput) | Proceed(exporter: Id) | Kill(exporter: Id)

  function Perform(w: World, act: Act): World {
    match act
    case Do(command) => if command.CCommitExport? then w else w.(store := Step(w.store, command))
    case Begin(e, rich) =>
      if e in w.exporters then w
      else
        (match Prepare(w, rich)
         case Ends(_) => w
         case Writes(i, document) => w.(exporters := w.exporters[e := Exporter(i, document, Built)]))
    case Proceed(e) => if e in w.exporters then Advanced(w, e) else w
    case Kill(e) => w.(exporters := w.exporters - {e})
  }

  function Advanced(w: World, e: Id): World
    requires e in w.exporters
  {
    var x := w.exporters[e];
    match After(w, x)
    case Stops(_) => Effect(w, x).(exporters := w.exporters - {e})
    case Goes(stage) => Effect(w, x).(exporters := w.exporters[e := x.(stage := stage)])
  }

  function PerformAll(w: World, acts: seq<Act>): World
    decreases |acts|
  {
    if acts == [] then w else PerformAll(Perform(w, acts[0]), acts[1..])
  }

  const NEW_WORLD := World(EMPTY, map[], map[])

  lemma PerformFirst(w: World, act: Act, rest: seq<Act>)
    ensures PerformAll(w, [act] + rest) == PerformAll(Perform(w, act), rest)
  {
    hide Perform;
    assert ([act] + rest)[1..] == rest;
  }

  lemma PerformNone(w: World)
    ensures PerformAll(w, []) == w
  {
  }

  lemma {:induction false} FinishIsActs(w: World, e: Id, crash: Option<Stage>) returns (acts: seq<Act>)
    requires e in w.exporters
    ensures PerformAll(w, acts)
         == Finish(w, w.exporters[e], crash).0.(exporters := w.exporters - {e})
    decreases Rank(w.exporters[e].stage)
  {
    hide Perform, PerformAll;
    var x := w.exporters[e];
    FinishLeavesOthers(w, x, crash);
    if crash == Some(x.stage) {
      PerformFirst(w, Kill(e), []);
      assert [Kill(e)] + [] == [Kill(e)];
      PerformNone(Perform(w, Kill(e)));
      Killed(w, e);
      acts := [Kill(e)];
    } else {
      var w' := Perform(w, Proceed(e));
      AdvancedBy(w, e);
      match After(w, x) {
        case Stops(_) =>
          PerformFirst(w, Proceed(e), []);
          assert [Proceed(e)] + [] == [Proceed(e)];
          PerformNone(w');
          acts := [Proceed(e)];
        case Goes(stage) =>
          var rest := FinishIsActs(w', e, crash);
          PerformFirst(w, Proceed(e), rest);
          FinishIgnoresExporters(Effect(w, x), w'.exporters, x.(stage := stage), crash);
          assert w'.exporters - {e} == w.exporters - {e};
          acts := [Proceed(e)] + rest;
      }
    }
  }

  lemma Killed(w: World, e: Id)
    ensures Perform(w, Kill(e)) == w.(exporters := w.exporters - {e})
  {
    hide Step;
  }

  lemma AdvancedBy(w: World, e: Id)
    requires e in w.exporters
    ensures Perform(w, Proceed(e)) == Advanced(w, e)
  {
    hide Step, Advanced;
  }

  lemma {:induction false} FinishLeavesOthers(w: World, x: Exporter, crash: Option<Stage>)
    ensures Finish(w, x, crash).0.exporters == w.exporters
    decreases Rank(x.stage)
  {
    hide CommitExport;
    if crash != Some(x.stage) && After(w, x).Goes? {
      FinishLeavesOthers(Effect(w, x), x.(stage := After(w, x).stage), crash);
    }
  }

  lemma {:induction false} FinishIgnoresExporters(w: World, others: map<Id, Exporter>, x: Exporter, crash: Option<Stage>)
    ensures Finish(w.(exporters := others), x, crash)
         == (Finish(w, x, crash).0.(exporters := others), Finish(w, x, crash).1)
    decreases Rank(x.stage)
  {
    hide CommitExport;
    if crash != Some(x.stage) && After(w, x).Goes? {
      FinishIgnoresExporters(Effect(w, x), others, x.(stage := After(w, x).stage), crash);
    }
  }

  /** An undisturbed call is one of the interleavings: it is its steps in a row. */
  lemma CallIsActs(w: World, e: Id, rich: RichInput, crash: Option<Stage>) returns (acts: seq<Act>)
    requires e !in w.exporters
    ensures PerformAll(w, acts) == ExportMatch(w, rich, crash).0
  {
    hide PerformAll, Finish, Prepare;
    match Prepare(w, rich) {
      case Ends(_) =>
        PerformNone(w);
        acts := [];
      case Writes(i, document) =>
        var x := Exporter(i, document, Built);
        var begun := Perform(w, Begin(e, rich));
        var rest := FinishIsActs(begun, e, crash);
        PerformFirst(w, Begin(e, rich), rest);
        assert begun == w.(exporters := w.exporters[e := x]) && begun.exporters - {e} == w.exporters;
        FinishIgnoresExporters(w, begun.exporters, x, crash);
        FinishLeavesOthers(w, x, crash);
        acts := [Begin(e, rich)] + rest;
    }
  }

  // ---- what every run keeps -----------------------------------------------------------------

  /** The match's own canonical payload, with rich blocks only if the match uses rich state. */
  predicate FileCanonical(s: Store, i: nat, file: ExportPayload) {
    && i < |s.sessions| && Over(s.sessions[i]) && i in s.outcomes
    && BuildPayload(s, i, s.outcomes[i]) == Success(file.(rich := None))
    && (!UsesRich(s, i) ==> file.rich == None)
    && (file.rich.Some? && !s.sessions[i].intelPin.Pinned? ==> file.rich.value.intel == None)
  }

  predicate ExporterOk(w: World, x: Exporter) {
    && FileCanonical(w.store, x.session, x.document) && x.document.matchId == x.session
    && (x.stage.Placed? || x.stage.ReadBack? ==> x.session in w.files)
  }

  ghost predicate WorldOk(w: World) {
    && Inv(w.store)
    && (forall i :: i in w.files ==> FileCanonical(w.store, i, w.files[i]))
    && (forall e :: e in w.exporters ==> ExporterOk(w, w.exporters[e]))
    && (forall i :: i in w.store.exports ==> i in w.files && FileCanonical(w.store, i, w.store.exports[i]))
  }

  lemma FileStaysCanonical(s: Store, s': Store, i: nat, file: ExportPayload)
    requires Inv(s) && Inv(s') && Later(s, s') && FileCanonical(s, i, file)
    ensures FileCanonical(s', i, file)
  {
    hide Inv, BuildPayload, Later;
    LaterOver(s, s', i);
    PayloadSettles(s, s', i, s.outcomes[i]);
    if UsesRich(s, i) {
      var k :| 0 <= k < |s.states| && StateOf(s.states[k], i, s.sessions[i].matchId, s.sessions[i].generation);
      assert StateOf(s'.states[k], i, s'.sessions[i].matchId, s'.sessions[i].generation);
    }
  }

  lemma WorldMovesOn(w: World, s': Store)
    requires WorldOk(w) && Inv(s') && Later(w.store, s')
    requires forall i :: i in s'.exports ==>
                           || (i in w.store.exports && s'.exports[i] == w.store.exports[i])
                           || (i in w.files && FileCanonical(w.store, i, s'.exports[i]))
    ensures WorldOk(w.(store := s'))
  {
    hide Inv, Later, FileCanonical;
    forall i | i in w.files ensures FileCanonical(s', i, w.files[i]) {
      FileStaysCanonical(w.store, s', i, w.files[i]);
    }
    forall e | e in w.exporters ensures ExporterOk(w.(store := s'), w.exporters[e]) {
      assert ExporterOk(w, w.exporters[e]);
      FileStaysCanonical(w.store, s', w.exporters[e].session, w.exporters[e].document);
    }
    forall i | i in s'.exports ensures i in w.files && FileCanonical(s', i, s'.exports[i]) {
      FileStaysCanonical(w.store, s', i, s'.exports[i]);
    }
  }

  predicate CallsProvider(c: Command) {
    || c.CApplySelectionResult? || c.CApplyTurnResult? || c.CApplyRichTurnResult? || c.CReserveSelectionAttempt?
    || c.CRequestTurnAdvice? || c.CRequestRichTurnAdvice?
  }

  predicate PlaysTurn(c: Command) {
    || c.CApplySelection? || c.CConfirmTurnFacts? || c.CRecordAction? || c.CStartTurnCapture? || c.CNextTurn?
    || c.CCommitNextTurn?
  }

  lemma NotedKeepsRecords(s: Store, r: ResultEnvelope, s': Store)
    ensures OnlyNoted(s, r, s') ==> s'.exports == s.exports
    ensures Refuted(s, r, s') ==> s'.exports == s.exports
  {
  }

  lemma SelectionKeepsRecords(s: Store, r: ResultEnvelope, s': Store)
    ensures SelectionAccepted(s, r, s') ==> s'.exports == s.exports
  {
  }

  lemma AcceptedKeepsRecords(s: Store, r: ResultEnvelope, s': Store, a: TurnAdvice)
    ensures TurnAccepted(s, r, s', a) ==> s'.exports == s.exports
  {
  }

  lemma SelectionResultKeepsRecords(s: Store, r: ResultEnvelope, s': Store)
    requires ApplySelectionResult(s, r) == Success(s')
    ensures s'.exports == s.exports
  {
    hide ApplySelectionResult, OnlyNoted, Refuted, SelectionAccepted;
    SelectionResultEffect(s, r, s');
    NotedKeepsRecords(s, r, s');
    SelectionKeepsRecords(s, r, s');
  }

  lemma TurnResultKeepsRecords(s: Store, r: ResultEnvelope, s': Store)
    requires ApplyTurnResult(s, r) == Success(s')
    ensures s'.exports == s.exports
  {
    hide ApplyTurnResult, OnlyNoted, Refuted, TurnAccepted;
    var a := TurnResultEffect(s, r, s');
    NotedKeepsRecords(s, r, s');
    AcceptedKeepsRecords(s, r, s', a);
  }

  lemma RichResultKeepsRecords(s: Store, r: ResultEnvelope, rebuilt: Option<Action>, s': Store)
    requires ApplyRichTurnResult(s, r, rebuilt) == Success(s')
    ensures s'.exports == s.exports
  {
    hide ApplyRichTurnResult, OnlyNoted, Refuted, TurnAccepted;
    var a := RichResultEffect(s, r, rebuilt, s');
    NotedKeepsRecords(s, r, s');
    AcceptedKeepsRecords(s, r, s', a);
  }

  lemma JobCommandsKeepRecords(s: Store, c: Command, s': Store)
    requires Execute(s, c) == Success(s') && CallsProvider(c)
    ensures s'.exports == s.exports
  {
    hide ApplySelectionResult, ApplyTurnResult, ApplyRichTurnResult, ReserveSelectionAttempt, RequestTurnAdvice;
    hide RequestRichTurnAdvice, NewMatch, AbortMatch, UpdateMetadata, EndMatch, CommitExport, NewMatchAfterExport;
    hide ConfirmSelectionFacts, ApplySelection, StartTurnCapture, ConfirmTurnFacts, RecordAction, NextTurn;
    hide CommitNextTurn, AppendConfirmedState, StartAttempt, FinishAttempt, MarkDispatched, FailJob;
    hide RecoverAfterRestart;
    match c {
      case CApplySelectionResult(result) => SelectionResultKeepsRecords(s, result, s');
      case CApplyTurnResult(result) => TurnResultKeepsRecords(s, result, s');
      case CApplyRichTurnResult(result, rebuilt) => RichResultKeepsRecords(s, result, rebuilt, s');
      case CReserveSelectionAttempt(command) => var i, j, key := ReserveSelectionEffect(s, command, s');
      case CRequestTurnAdvice(command) => var i, j, row := RequestTurnEffect(s, command, s');
      case CRequestRichTurnAdvice(command, gate) => var i, j, row := RequestRichEffect(s, command, gate, s');
      case _ =>
    }
  }

  lemma TurnCommandsKeepRecords(s: Store, c: Command, s': Store)
    requires Execute(s, c) == Success(s') && PlaysTurn(c)
    ensures s'.exports == s.exports
  {
    hide ApplySelection, ConfirmTurnFacts, RecordAction, StartTurnCapture, NextTurn, CommitNextTurn;
    hide NewMatch, AbortMatch, UpdateMetadata, EndMatch, CommitExport, NewMatchAfterExport, ConfirmSelectionFacts;
    hide AppendConfirmedState, ApplySelectionResult, ApplyTurnResult, ApplyRichTurnResult, ReserveSelectionAttempt;
    hide RequestTurnAdvice, RequestRichTurnAdvice, StartAttempt, FinishAttempt, MarkDispatched, FailJob;
    match c {
      case CApplySelection(three, lead, confirmed) => var i, row := ApplySelectionEffect(s, three, lead, confirmed, s');
      case CConfirmTurnFacts(facts, confirmed) => var i, f := ConfirmTurnFactsEffect(s, facts, confirmed, s');
      case CRecordAction(action, confirmed, rich) => var i, a := RecordActionEffect(s, action, confirmed, rich, s');
      case CStartTurnCapture => var i, turn := StartTurnEffect(s, s');
      case CNextTurn => var i, turn := NextTurnEffect(s, s');
      case CCommitNextTurn(plan) => var i, turn := CommitNextTurnEffect(s, plan, s');
      case _ =>
    }
  }

  lemma OtherCommandsKeepRecords(s: Store, c: Command, s': Store)
    requires Execute(s, c) == Success(s') && !c.CCommitExport?
    ensures s'.exports == s.exports
  {
    hide ApplySelection, ApplySelectionResult, ApplyTurnResult, ApplyRichTurnResult, ReserveSelectionAttempt;
    hide RequestTurnAdvice, RequestRichTurnAdvice, ConfirmTurnFacts, RecordAction, StartTurnCapture, NextTurn;
    hide CommitNextTurn;
    if CallsProvider(c) {
      JobCommandsKeepRecords(s, c, s');
    } else if PlaysTurn(c) {
      TurnCommandsKeepRecords(s, c, s');
    }
  }

  lemma CommandKeepsWorld(w: World, c: Command)
    requires WorldOk(w) && !c.CCommitExport?
    ensures WorldOk(w.(store := Step(w.store, c))) && Later(w.store, Step(w.store, c))
    ensures Step(w.store, c).exports == w.store.exports
  {
    hide Inv, BuildPayload, Later, Execute, FileCanonical;
    StepSteps(w.store, c);
    EvolvedIsLater(w.store, Step(w.store, c));
    if Execute(w.store, c).Success? {
      OtherCommandsKeepRecords(w.store, c, Step(w.store, c));
    }
    WorldMovesOn(w, Step(w.store, c));
  }

  lemma PreparedIsCanonical(w: World, rich: RichInput)
    requires Inv(w.store) && Prepare(w, rich).Writes?
    ensures var p := Prepare(w, rich);
            && FileCanonical(w.store, p.session, p.document) && p.document.matchId == p.session
            && w.store.slot == Some(p.session) && w.store.sessions[p.session].state == MatchEnded
            && p.session !in w.store.exports
  {
    hide BattleInv, JobRows, LaneInv, ContentInv;
    MatchIdIsRow(w.store, Prepare(w, rich).session);
  }

  lemma MatchIdIsRow(s: Store, i: nat)
    requires Inv(s) && i < |s.sessions|
    ensures s.sessions[i].matchId == i
  {
  }

  lemma BeginKeepsWorld(w: World, e: Id, rich: RichInput)
    requires WorldOk(w)
    ensures WorldOk(Perform(w, Begin(e, rich))) && Perform(w, Begin(e, rich)).store == w.store
  {
    hide Inv, FileCanonical, Prepare, Step;
    if e !in w.exporters && Prepare(w, rich).Writes? {
      PreparedIsCanonical(w, rich);
      var w' := Perform(w, Begin(e, rich));
      forall f | f in w'.exporters ensures ExporterOk(w', w'.exporters[f]) {
        if f != e {
          assert ExporterOk(w, w.exporters[f]);
        }
      }
    }
  }

  /** A commit writes the one record that was not there, or leaves the repository alone. */
  lemma CommitLater(w: World, x: Exporter, s': Store)
    requires Inv(w.store) && CommitExport(w.store, x.session, x.document, OnDisk(w, x.document.matchId)) == Success(s')
    ensures Inv(s') && Later(w.store, s')
    ensures s'.exports == w.store.exports
            || (x.session !in w.store.exports && s'.exports == w.store.exports[x.session := x.document])
  {
    hide Inv, Later, Evolves;
    ExportSteps(w.store, x.session, x.document, OnDisk(w, x.document.matchId), s');
    EvolvedIsLater(w.store, s');
  }

  lemma EffectKeepsWorld(w: World, x: Exporter)
    requires WorldOk(w) && ExporterOk(w, x)
    ensures WorldOk(Effect(w, x)) && Later(w.store, Effect(w, x).store)
  {
    hide Inv, Later, FileCanonical, CommitExport;
    SelfIsLater(w.store);
    match x.stage {
      case SawNoFile =>
        var w' := Effect(w, x);
        forall e | e in w'.exporters ensures ExporterOk(w', w'.exporters[e]) {
          assert ExporterOk(w, w.exporters[e]);
        }
      case ReadBack =>
        var c := CommitExport(w.store, x.session, x.document, OnDisk(w, x.document.matchId));
        if c.Success? {
          CommitLater(w, x, c.value);
          WorldMovesOn(w, c.value);
        }
      case _ =>
    }
  }

  lemma AdvanceKeepsWorld(w: World, e: Id)
    requires WorldOk(w) && e in w.exporters
    ensures WorldOk(Advanced(w, e)) && Later(w.store, Advanced(w, e).store)
  {
    hide Inv, Later, FileCanonical, CommitExport;
    var x, w' := w.exporters[e], Advanced(w, e);
    EffectKeepsWorld(w, x);
    forall f | f in w'.exporters ensures ExporterOk(w', w'.exporters[f]) {
      assert ExporterOk(w, w.exporters[f]) && ExporterOk(Effect(w, x), w.exporters[f]);
    }
  }

  lemma {:induction false} WorldRunKeeps(w: World, acts: seq<Act>)
    requires WorldOk(w)
    ensures WorldOk(PerformAll(w, acts)) && Later(w.store, PerformAll(w, acts).store)
    decreases |acts|
  {
    hide WorldOk, Step, Advanced, Later, Prepare;
    SelfIsLater(w.store);
    if acts != [] {
      var w' := Perform(w, acts[0]);
      match acts[0] {
        case Do(command) =>
          if !command.CCommitExport? {
            CommandKeepsWorld(w, command);
          }
        case Begin(e, rich) => BeginKeepsWorld(w, e, rich);
        case Proceed(e) =>
          if e in w.exporters {
            AdvanceKeepsWorld(w, e);
          }
        case Kill(e) => KillKeepsWorld(w, e);
      }
      WorldRunKeeps(w', acts[1..]);
      LaterChains(w.store, w'.store, PerformAll(w', acts[1..]).store);
    }
  }

  lemma KillKeepsWorld(w: World, e: Id)
    requires WorldOk(w)
    ensures WorldOk(w.(exporters := w.exporters - {e}))
  {
    hide Inv, FileCanonical;
    var w' := w.(exporters := w.exporters - {e});
    forall f | f in w'.exporters ensures ExporterOk(w', w'.exporters[f]) {
      assert ExporterOk(w, w.exporters[f]);
    }
  }

  lemma NewWorldOk()
    ensures WorldOk(NEW_WORLD)
  {
    hide Inv;
    EmptyStoreOk();
  }

  ghost predicate Reached(w: World) {
    exists acts :: w == PerformAll(NEW_WORLD, acts)
  }

  lemma ReachedIsSound(w: World)
    requires Reached(w)
    ensures WorldOk(w)
  {
    hide PerformAll, WorldOk;
    var acts :| w == PerformAll(NEW_WORLD, acts);
    NewWorldOk();
    WorldRunKeeps(NEW_WORLD, acts);
  }

  /**
   What an exported document may say: every field is the rows', with rich blocks only in a match that has a confirmed
   state, and provenance only in one with a pinned generation.
   */
  predicate DocumentSays(s: Store, i: nat, file: ExportPayload) {
    && i < |s.sessions| && i in s.outcomes && PayloadSays(s, i, s.outcomes[i], file.(rich := None))
    && (file.rich.Some? ==>
          exists k :: && 0 <= k < |s.states| && s.states[k].identity.session == i
                      && s.states[k].identity.matchId == s.sessions[i].matchId
                      && s.states[k].identity.generation == s.sessions[i].generation)
    && (file.rich.Some? && s.sessions[i].intelPin == PinUnavailable ==> file.rich.value.intel == None)
  }

  lemma CanonicalSays(s: Store, i: nat, file: ExportPayload)
    requires Inv(s) && FileCanonical(s, i, file)
    ensures DocumentSays(s, i, file)
  {
    hide Inv, BuildPayload, PayloadSays;
    PayloadBuilds(s, i, s.outcomes[i]);
  }

  /**
   However commands, exports and crashes interleave, an export path holds nothing or the match's own document, saying
   of every field what the rows do; so does its record. Where there is no rich part the two are equal.
   */
  lemma ExportPathIsCanonical(w: World, i: Id)
    requires Reached(w)
    ensures i in w.files ==> DocumentSays(w.store, i, w.files[i])
    ensures i in w.store.exports ==> i in w.files && DocumentSays(w.store, i, w.store.exports[i])
    ensures i in w.store.exports && w.files[i].rich == w.store.exports[i].rich ==> w.files[i] == w.store.exports[i]
    ensures i in w.store.exports && !UsesRich(w.store, i) ==> w.files[i] == w.store.exports[i]
  {
    hide Reached, Inv, BuildPayload, DocumentSays;
    ReachedIsSound(w);
    if i in w.files {
      CanonicalSays(w.store, i, w.files[i]);
    }
    if i in w.store.exports {
      CanonicalSays(w.store, i, w.store.exports[i]);
    }
  }

  /** A match is exported once: a record that is there is there for good, whatever is still under way. */
  lemma RecordIsFinal(w: World, acts: seq<Act>, i: nat)
    requires Reached(w) && i in w.store.exports
    ensures i in PerformAll(w, acts).store.exports && PerformAll(w, acts).store.exports[i] == w.store.exports[i]
  {
    hide Reached, PerformAll, WorldOk;
    ReachedIsSound(w);
    WorldRunKeeps(w, acts);
  }

  // ---- when the file is the recorded one ----------------------------------------------------

  predicate Agrees(w: World) {
    forall i :: i in w.store.exports ==> i in w.files && w.files[i] == w.store.exports[i]
  }

  /**
   What would have to be looked at again right before a step: before the replace, that the match is not recorded yet or
   the file is this document already; before the commit, that the file still is, if the commit's guards let it through.
   */
  predicate Undisputed(w: World, x: Exporter) {
    var file := OnDisk(w, x.document.matchId);
    match x.stage
    case SawNoFile => x.session in w.store.exports ==> file == Some(x.document)
    case ReadBack => AboutToRecord(w.store, x.session) ==> file == Some(x.document)
    case _ => true
  }

  /** The guards of the closing transaction. */
  predicate AboutToRecord(s: Store, i: nat) {
    s.slot == Some(i) && i < |s.sessions| && s.sessions[i].state == MatchEnded && i !in s.exports
  }

  /** A step keeps file and record equal exactly when nobody disputes it. */
  lemma AdvanceAgreesIff(w: World, e: Id)
    requires Reached(w) && Agrees(w) && e in w.exporters
    ensures Agrees(Advanced(w, e)) <==> Undisputed(w, w.exporters[e])
  {
    hide Reached, Inv, FileCanonical;
    ReachedIsSound(w);
    var x := w.exporters[e];
    assert ExporterOk(w, x);
    if x.stage.ReadBack? {
      hide CommitExport;
      CommitWrites(w, x);
    }
  }

  /** The commit writes exactly when its guards hold. */
  lemma CommitWrites(w: World, x: Exporter)
    ensures Effect(w, x.(stage := ReadBack)).store.exports ==
            if AboutToRecord(w.store, x.session) then w.store.exports[x.session := x.document] else w.store.exports
    ensures Effect(w, x.(stage := ReadBack)).files == w.files
  {
  }

  // ---- exports that overlap -----------------------------------------------------------------

  /** Exports of one match under way, whose path holds nothing, have built the same document. */
  predicate SameDocuments(w: World) {
    forall e, f :: e in w.exporters && f in w.exporters ==>
      var x, y := w.exporters[e], w.exporters[f];
      x.session == y.session && x.session !in w.files ==> x.document == y.document
  }

  /** The file is what the call has seen of it, or already what the call is about to write. */
  predicate FileSuits(w: World, x: Exporter) {
    var file := OnDisk(w, x.session);
    match x.stage
    case Built => true
    case SawNoFile => file == None || file == Some(x.document)
    case _ => file == Some(x.document)
  }

  predicate Concurring(w: World) {
    Agrees(w) && SameDocuments(w) && forall e :: e in w.exporters ==> FileSuits(w, w.exporters[e])
  }

  /** An export that begins while its path holds nothing finds those of its match under way with its own document. */
  predicate Concurs(w: World, act: Act) {
    act.Begin? && act.exporter !in w.exporters && Prepare(w, act.rich).Writes? ==>
      var begun := Prepare(w, act.rich);
      begun.session in w.files
      || forall e :: e in w.exporters && w.exporters[e].session == begun.session ==>
           w.exporters[e].document == begun.document
  }

  predicate AllConcur(w: World, acts: seq<Act>)
    decreases |acts|
  {
    acts == [] || (Concurs(w, acts[0]) && AllConcur(Perform(w, acts[0]), acts[1..]))
  }

  lemma WriteConcurs(w: World, e: Id)
    requires WorldOk(w) && Concurring(w) && e in w.exporters && w.exporters[e].stage == SawNoFile
    ensures Concurring(Advanced(w, e))
  {
    hide Inv, FileCanonical;
    var x, w' := w.exporters[e], Advanced(w, e);
    assert ExporterOk(w, x) && FileSuits(w, x);
    forall f | f in w'.exporters ensures FileSuits(w', w'.exporters[f]) {
      assert ExporterOk(w, w.exporters[f]) && FileSuits(w, w.exporters[f]);
    }
  }

  lemma CommitConcurs(w: World, e: Id)
    requires WorldOk(w) && Concurring(w) && e in w.exporters && w.exporters[e].stage == ReadBack
    ensures Concurring(Advanced(w, e))
  {
    hide Inv, FileCanonical, CommitExport, AboutToRecord;
    var x, w' := w.exporters[e], Advanced(w, e);
    CommitWrites(w, x);
    assert ExporterOk(w, x) && FileSuits(w, x);
    forall f | f in w'.exporters ensures FileSuits(w', w'.exporters[f]) {
      assert FileSuits(w, w.exporters[f]);
    }
  }

  lemma LookConcurs(w: World, e: Id)
    requires WorldOk(w) && Concurring(w) && e in w.exporters
    requires w.exporters[e].stage == Built || w.exporters[e].stage == Placed
    ensures Concurring(Advanced(w, e))
  {
    hide Inv, FileCanonical, CommitExport;
    var x, w' := w.exporters[e], Advanced(w, e);
    assert ExporterOk(w, x) && FileSuits(w, x);
    forall f | f in w'.exporters ensures FileSuits(w', w'.exporters[f]) {
      assert FileSuits(w, w.exporters[f]);
    }
  }

  lemma AdvanceConcurs(w: World, e: Id)
    requires WorldOk(w) && Concurring(w) && e in w.exporters
    ensures Concurring(Advanced(w, e))
  {
    hide WorldOk, Concurring, Advanced;
    match w.exporters[e].stage
    case SawNoFile => WriteConcurs(w, e);
    case ReadBack => CommitConcurs(w, e);
    case _ => LookConcurs(w, e);
  }

  lemma BeginConcurs(w: World, e: Id, rich: RichInput)
    requires Concurring(w) && Concurs(w, Begin(e, rich))
    ensures Concurring(Perform(w, Begin(e, rich)))
  {
    hide Prepare, Step;
  }

  lemma {:induction false} ConcurringRun(w: World, acts: seq<Act>)
    requires WorldOk(w) && Concurring(w) && AllConcur(w, acts)
    ensures Concurring(PerformAll(w, acts))
    decreases |acts|
  {
    hide WorldOk, Step, Advanced, Prepare, Later, Concurs;
    if acts != [] {
      WorldRunKeeps(w, [acts[0]]);
      PerformFirst(w, acts[0], []);
      assert [acts[0]] + [] == [acts[0]];
      PerformNone(Perform(w, acts[0]));
      match acts[0] {
        case Do(command) =>
          if !command.CCommitExport? {
            CommandKeepsWorld(w, command);
          }
        case Begin(e, rich) => BeginConcurs(w, e, rich);
        case Proceed(e) =>
          if e in w.exporters {
            AdvanceConcurs(w, e);
          }
        case Kill(e) =>
      }
      ConcurringRun(Perform(w, acts[0]), acts[1..]);
    }
  }

  /** However they overlap and crash, exports that build the same document leave file and record equal. */
  lemma ConcurringExportsAgree(acts: seq<Act>)
    requires AllConcur(NEW_WORLD, acts)
    ensures Agrees(PerformAll(NEW_WORLD, acts))
  {
    hide PerformAll, AllConcur, WorldOk;
    NewWorldOk();
    ConcurringRun(NEW_WORLD, acts);
  }

  /** Every export starts when no other is under way. */
  predicate OneAtATime(w: World, acts: seq<Act>)
    decreases |acts|
  {
    acts == [] || ((acts[0].Begin? ==> w.exporters == map[]) && OneAtATime(Perform(w, acts[0]), acts[1..]))
  }

  lemma {:induction false} OneAtATimeConcurs(w: World, acts: seq<Act>)
    requires OneAtATime(w, acts)
    ensures AllConcur(w, acts)
    decreases |acts|
  {
    hide Perform, Prepare;
    if acts != [] {
      OneAtATimeConcurs(Perform(w, acts[0]), acts[1..]);
    }
  }

  /** In particular, exports that never overlap do. */
  lemma OneAtATimeAgrees(acts: seq<Act>)
    requires OneAtATime(NEW_WORLD, acts)
    ensures Agrees(PerformAll(NEW_WORLD, acts))
  {
    hide PerformAll, OneAtATime, AllConcur;
    OneAtATimeConcurs(NEW_WORLD, acts);
    ConcurringExportsAgree(acts);
  }

  // ---- one undisturbed call -----------------------------------------------------------------

  lemma EndedHasNoRecord(s: Store, i: nat)
    requires Inv(s) && i < |s.sessions| && s.sessions[i].state == MatchEnded
    ensures i in s.outcomes && i !in s.exports && s.sessions[i].matchId == i
  {
  }

  predicate ExportDone(w: World, i: nat, document: ExportPayload) {
    && w.store.slot == Some(i) && i < |w.store.sessions| && w.store.sessions[i].state == MatchExported
    && w.store.sessions[i].matchId == i
    && i in w.store.exports && w.store.exports[i] == document && i in w.files && w.files[i] == document
  }

  lemma CommitDone(w: World, i: nat, document: ExportPayload)
    requires w.store.slot == Some(i) && i < |w.store.sessions| && w.store.sessions[i].state == MatchEnded
    requires i !in w.store.exports && w.store.sessions[i].matchId == i && document.matchId == i && OnDisk(w, i) == Some(document)
    ensures var x := Exporter(i, document, ReadBack);
            After(w, x) == Stops(Exported(document)) && ExportDone(Effect(w, x), i, document)
  {
  }

  lemma FinishCompletes(w: World, i: nat, document: ExportPayload)
    requires w.store.slot == Some(i) && i < |w.store.sessions| && w.store.sessions[i].state == MatchEnded
    requires i !in w.store.exports && w.store.sessions[i].matchId == i && document.matchId == i && document.rich == None
    requires i in w.files ==> w.files[i] == document
    ensures var f := Finish(w, Exporter(i, document, Built), None); f.1 == Exported(document) && ExportDone(f.0, i, document)
  {
    hide CommitExport, ExportDone;
    var placed := w.(files := w.files[i := document]);
    CommitDone(placed, i, document);
    assert i in w.files ==> placed == w;
    var x := Exporter(i, document, ReadBack);
    assert Finish(placed, x, None) == (Effect(placed, x), Exported(document));
    assert Finish(placed, x.(stage := Placed), None) == Finish(placed, x, None);
    assert i !in w.files ==> Finish(w, x.(stage := SawNoFile), None) == Finish(placed, x.(stage := Placed), None);
  }

  lemma ExportedAgain(w: World, i: nat, rich: RichInput, document: ExportPayload)
    requires ExportDone(w, i, document)
    ensures ExportMatch(w, rich, None) == (w, Exported(document))
  {
    hide Document, Finish;
  }

  /** Asked again, an exported match changes nothing; the answer is its record exactly if the file still is that. */
  lemma RepeatAnswersIff(w: World, i: nat, rich: RichInput, crash: Option<Stage>)
    requires w.store.slot == Some(i) && i < |w.store.sessions| && w.store.sessions[i].state == MatchExported
    requires i in w.store.exports
    ensures var path, answer := w.store.sessions[i].matchId, ExportMatch(w, rich, crash);
            && answer.0 == w
            && (answer.1 == Exported(w.store.exports[i]) <==> path in w.files && w.files[path] == w.store.exports[i])
            && (answer.1 != Exported(w.store.exports[i]) ==>
                  answer.1 == Rejected(NotVerified(if path in w.files then ExportHashMismatch
                                                   else ExportFileUnreadable)))
  {
    hide Document, Finish;
  }

  /**
   Whatever ran before, crashed or is still under way, one undisturbed call exports a finished match that uses no
   rich state: it is MATCH_EXPORTED, its one record is the canonical document and so is the file. Calling again
   changes nothing.
   */
  lemma UndisturbedExportCompletes(w: World, i: nat, rich: RichInput)
    requires Reached(w) && w.store.slot == Some(i) && i < |w.store.sessions|
    requires w.store.sessions[i].state == MatchEnded && !UsesRich(w.store, i)
    ensures i in w.store.outcomes && BuildPayload(w.store, i, w.store.outcomes[i]).Success?
    ensures var document := BuildPayload(w.store, i, w.store.outcomes[i]).value;
            var w' := ExportMatch(w, rich, None).0;
            && PayloadSays(w.store, i, w.store.outcomes[i], document)
            && ExportMatch(w, rich, None).1 == Exported(document) && ExportDone(w', i, document)
            && ExportMatch(w', rich, None) == (w', Exported(document))
  {
    hide Reached, BuildPayload, PayloadSays, Inv, UsesRich, Finish, ExportDone;
    ReachedIsSound(w);
    EndedHasNoRecord(w.store, i);
    PayloadBuilds(w.store, i, w.store.outcomes[i]);
    var document := BuildPayload(w.store, i, w.store.outcomes[i]).value;
    assert i in w.files ==> FileCanonical(w.store, i, w.files[i]);
    LegacyPayload(w.store, i, document);
    assert Document(w.store, i, rich) == Success(document);
    FinishCompletes(w, i, document);
    ExportedAgain(ExportMatch(w, rich, None).0, i, rich, document);
  }

  lemma LegacyPayload(s: Store, i: nat, document: ExportPayload)
    requires i < |s.sessions| && i in s.outcomes && BuildPayload(s, i, s.outcomes[i]) == Success(document)
    ensures document.rich == None && document.matchId == s.sessions[i].matchId
  {
    hide TurnPayloads, ListActions, ListTurns;
  }

  // ---- two exports at once ------------------------------------------------------------------

  /** Two exports under way: both look for the file, e writes and commits, then f writes. */
  function Overlap(e: Id, f: Id): seq<Act> {
    [Proceed(e), Proceed(f), Proceed(e), Proceed(e), Proceed(e), Proceed(f)]
  }

  lemma OverlapUnrolled(w: World, e: Id, f: Id)
    ensures var w2 := Perform(Perform(w, Proceed(e)), Proceed(f));
            var w5 := Perform(Perform(Perform(w2, Proceed(e)), Proceed(e)), Proceed(e));
            PerformAll(w, Overlap(e, f)) == Perform(w5, Proceed(f))
  {
    hide Perform, PerformAll;
    var w1 := Perform(w, Proceed(e));
    var w2 := Perform(w1, Proceed(f));
    var w3 := Perform(w2, Proceed(e));
    var w4 := Perform(w3, Proceed(e));
    var w5 := Perform(w4, Proceed(e));
    var acts := Overlap(e, f);
    assert acts[0..] == acts;
    forall k | 0 <= k < 6 ensures acts[k..] == [acts[k]] + acts[k + 1..] {
    }
    PerformFirst(w, acts[0], acts[1..]);
    PerformFirst(w1, acts[1], acts[2..]);
    PerformFirst(w2, acts[2], acts[3..]);
    PerformFirst(w3, acts[3], acts[4..]);
    PerformFirst(w4, acts[4], acts[5..]);
    PerformFirst(w5, acts[5], acts[6..]);
    assert acts[6..] == [];
    PerformNone(Perform(w5, acts[5]));
  }

  /** Recorded as `a`, though the path holds `b`. */
  predicate Torn(w: World, i: nat, a: ExportPayload, b: ExportPayload) {
    && w.store.slot == Some(i) && i < |w.store.sessions| && w.store.sessions[i].state == MatchExported
    && w.store.sessions[i].matchId == i
    && i in w.store.exports && w.store.exports[i] == a && i in w.files && w.files[i] == b
  }

  predicate ReadyToExport(w: World, i: nat) {
    AboutToRecord(w.store, i) && w.store.sessions[i].matchId == i
  }

  predicate AtStage(w: World, e: Id, i: nat, document: ExportPayload, stage: Stage) {
    e in w.exporters && w.exporters[e] == Exporter(i, document, stage) && document.matchId == i
  }

  lemma BothSeeNoFile(w: World, i: nat, e: Id, f: Id, a: ExportPayload, b: ExportPayload)
    requires i !in w.files && e != f && AtStage(w, e, i, a, Built) && AtStage(w, f, i, b, Built)
    ensures var w' := Perform(Perform(w, Proceed(e)), Proceed(f));
            w'.store == w.store && AtStage(w', e, i, a, SawNoFile) && AtStage(w', f, i, b, SawNoFile)
  {
    hide Perform, CommitExport;
    AdvancedBy(w, e);
    AdvancedBy(Advanced(w, e), f);
  }

  lemma OnePlaces(w: World, i: nat, e: Id, f: Id, a: ExportPayload, b: ExportPayload)
    requires e != f && AtStage(w, e, i, a, SawNoFile) && AtStage(w, f, i, b, SawNoFile)
    ensures var w' := Perform(Perform(w, Proceed(e)), Proceed(e));
            && w'.store == w.store && OnDisk(w', i) == Some(a)
            && AtStage(w', e, i, a, ReadBack) && AtStage(w', f, i, b, SawNoFile)
  {
    hide Perform, CommitExport;
    AdvancedBy(w, e);
    AdvancedBy(Advanced(w, e), e);
  }

  /** The one commits its record; the other, which still believes there is no file, writes its own. */
  lemma OneCommits(w: World, i: nat, e: Id, f: Id, a: ExportPayload, b: ExportPayload)
    requires ReadyToExport(w, i) && OnDisk(w, i) == Some(a)
    requires e != f && AtStage(w, e, i, a, ReadBack) && AtStage(w, f, i, b, SawNoFile)
    ensures Torn(Perform(Perform(w, Proceed(e)), Proceed(f)), i, a, b)
  {
    hide Perform, CommitExport;
    CommitDone(w, i, a);
    AdvancedBy(w, e);
    AdvancedBy(Advanced(w, e), f);
    assert Advanced(w, e).exporters[f] == Exporter(i, b, SawNoFile);
  }

  lemma OverlapTears(w: World, i: nat, e: Id, f: Id, a: ExportPayload, b: ExportPayload)
    requires ReadyToExport(w, i) && i !in w.files && e != f && AtStage(w, e, i, a, Built) && AtStage(w, f, i, b, Built)
    ensures Torn(PerformAll(w, Overlap(e, f)), i, a, b)
  {
    hide Perform, PerformAll, Overlap, Torn, AtStage;
    OverlapUnrolled(w, e, f);
    var w2 := Perform(Perform(w, Proceed(e)), Proceed(f));
    BothSeeNoFile(w, i, e, f, a, b);
    var w4 := Perform(Perform(w2, Proceed(e)), Proceed(e));
    OnePlaces(w2, i, e, f, a, b);
    OneCommits(w4, i, e, f, a, b);
  }

  /** Where records agree with their files, a finished match whose path holds nothing is yet to be recorded. */
  lemma NoFileNoRecord(w: World, i: nat)
    requires Inv(w.store) && Agrees(w) && i !in w.files && i < |w.store.sessions| && Over(w.store.sessions[i])
    ensures ReadyToExport(w, i)
  {
    hide SelectionRows, TurnRows, FactRows, AdviceRows, ActionRows, LaneInv, ContentInv, JobRows;
  }

  predicate NoneBegins(acts: seq<Act>) {
    forall k :: 0 <= k < |acts| ==> !acts[k].Begin?
  }

  lemma {:induction false} NoneBeginsConcurs(w: World, acts: seq<Act>)
    requires NoneBegins(acts)
    ensures AllConcur(w, acts)
    decreases |acts|
  {
    hide Perform, Prepare;
    if acts != [] {
      NoneBeginsConcurs(Perform(w, acts[0]), acts[1..]);
    }
  }

  /**
   Of calls that have built their documents and gone no further: whatever commands and crashes come between their
   steps, in whatever order these are taken, file and record end up equal, if and only if the calls of each match
   whose path still holds nothing have built the same document.
   */
  lemma UnderWayAgreesIff(w: World)
    requires Reached(w) && Agrees(w) && forall e :: e in w.exporters ==> w.exporters[e].stage == Built
    ensures (forall acts :: NoneBegins(acts) ==> Agrees(PerformAll(w, acts))) <==> SameDocuments(w)
  {
    hide Reached, WorldOk, PerformAll, Agrees, NoneBegins;
    ReachedIsSound(w);
    if SameDocuments(w) {
      forall acts | NoneBegins(acts) ensures Agrees(PerformAll(w, acts)) {
        NoneBeginsConcurs(w, acts);
        ConcurringRun(w, acts);
      }
    } else {
      var e, f :| && e in w.exporters && f in w.exporters && w.exporters[e].session == w.exporters[f].session
                  && w.exporters[e].session !in w.files && w.exporters[e].document != w.exporters[f].document;
      DifferentDocumentsTear(w, e, f);
      assert NoneBegins(Overlap(e, f)) by {
        OverlapBeginsNone(e, f);
      }
    }
  }

  lemma OverlapBeginsNone(e: Id, f: Id)
    ensures NoneBegins(Overlap(e, f))
  {
  }

  lemma DifferentDocumentsTear(w: World, e: Id, f: Id)
    requires WorldOk(w) && Agrees(w) && e in w.exporters && f in w.exporters
    requires w.exporters[e].stage == Built && w.exporters[f].stage == Built
    requires w.exporters[e].session == w.exporters[f].session && w.exporters[e].session !in w.files
    requires w.exporters[e].document != w.exporters[f].document
    ensures !Agrees(PerformAll(w, Overlap(e, f)))
    ensures var x := w.exporters[e];
            Torn(PerformAll(w, Overlap(e, f)), x.session, x.document, w.exporters[f].document)
  {
    hide Inv, FileCanonical, PerformAll, Overlap;
    var x, y := w.exporters[e], w.exporters[f];
    assert ExporterOk(w, x) && ExporterOk(w, y);
    assert x.session < |w.store.sessions| && Over(w.store.sessions[x.session]) by {
      CanonicalIsOver(w.store, x.session, x.document);
    }
    NoFileNoRecord(w, x.session);
    OverlapTears(w, x.session, e, f, x.document, y.document);
  }

  lemma CanonicalIsOver(s: Store, i: nat, file: ExportPayload)
    requires FileCanonical(s, i, file)
    ensures i < |s.sessions| && Over(s.sessions[i])
  {
  }

  /** Two exports begun on the same rows, and their overlap. */
  function Race(e: Id, f: Id, a: RichInput, b: RichInput): seq<Act> {
    [Begin(e, a)] + ([Begin(f, b)] + Overlap(e, f))
  }

  lemma RaceStart(w: World, i: nat, e: Id, f: Id, a: RichInput, b: RichInput)
    requires Inv(w.store) && ReadyToExport(w, i) && UsesRich(w.store, i) && w.store.sessions[i].intelPin.Pinned?
    requires e != f && e !in w.exporters && f !in w.exporters
    requires a.blocks.Some? && b.blocks == a.blocks && a.intel != b.intel
    ensures Document(w.store, i, a).Success? && Document(w.store, i, b).Success?
    ensures Document(w.store, i, a) != Document(w.store, i, b)
    ensures var w' := Perform(Perform(w, Begin(e, a)), Begin(f, b));
            && w'.store == w.store && w'.files == w.files
            && AtStage(w', e, i, Document(w.store, i, a).value, Built)
            && AtStage(w', f, i, Document(w.store, i, b).value, Built)
  {
    hide Inv, BuildPayload, UsesRich, Step, Advanced;
    EndedHasNoRecord(w.store, i);
    PayloadBuilds(w.store, i, w.store.outcomes[i]);
    LegacyPayload(w.store, i, BuildPayload(w.store, i, w.store.outcomes[i]).value);
    DocumentsDifferIff(w.store, i, a, b);
  }

  /**
   So for a match with rich state and a pinned generation the file need not be the recorded one. Two exports on the
   same rows overlap, and only one of them can read the pinned generation, which takes a read that fails for a moment,
   as a generation once readable stays so. The path ends with another file than the record's hash names, and every
   later call for the match is refused.
   */
  lemma RacingExportsDisagree(w: World, i: nat, e: Id, f: Id, a: RichInput, b: RichInput)
    requires Reached(w) && w.store.slot == Some(i) && i < |w.store.sessions| && w.store.sessions[i].state == MatchEnded
    requires UsesRich(w.store, i) && w.store.sessions[i].intelPin.Pinned? && i !in w.files
    requires e != f && e !in w.exporters && f !in w.exporters
    requires a.blocks.Some? && b.blocks == a.blocks && a.intel != b.intel
    ensures var w' := PerformAll(w, Race(e, f, a, b));
            && i in w'.store.exports && i in w'.files && w'.files[i] != w'.store.exports[i]
            && forall rich :: ExportMatch(w', rich, None) == (w', Rejected(NotVerified(ExportHashMismatch)))
  {
    hide Reached, Inv, BuildPayload, UsesRich, Document, PerformAll, Perform, Overlap, FileCanonical;
    ReachedIsSound(w);
    EndedHasNoRecord(w.store, i);
    RaceStart(w, i, e, f, a, b);
    var w1 := Perform(w, Begin(e, a));
    var w2 := Perform(w1, Begin(f, b));
    PerformFirst(w, Begin(e, a), [Begin(f, b)] + Overlap(e, f));
    PerformFirst(w1, Begin(f, b), Overlap(e, f));
    OverlapTears(w2, i, e, f, Document(w.store, i, a).value, Document(w.store, i, b).value);
  }
}
