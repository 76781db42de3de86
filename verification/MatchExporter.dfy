/** export_match step by step (application/match_service.py:132-225, 253-394), with its two crash points. */
module MatchExporter {
  import opened Basics
  import opened TurnState
  import opened Records
  import opened Store
  import opened Commands
  import opened Export
  import opened ExportCrash
  import opened Application
  import Guarantees
  import Invariant
  import Promises

  lemma FinishUnfolds(w: World, i: nat, document: ExportPayload, crash: Option<Stage>)
    requires crash != Some(Built) && (crash == Some(SawNoFile) ==> document.matchId in w.files)
    ensures var placed := w.(files := w.files[document.matchId := document]);
            OnDisk(w, document.matchId) == None || OnDisk(w, document.matchId) == Some(document) ==>
              Finish(w, Exporter(i, document, Built), crash) == Finish(placed, Exporter(i, document, Placed), crash)
  {
    hide CommitExport;
    var x := Exporter(i, document, Built);
    var placed := w.(files := w.files[document.matchId := document]);
    if document.matchId !in w.files {
      assert Finish(w, x, crash) == Finish(w, x.(stage := SawNoFile), crash);
    } else if w.files[document.matchId] == document {
      assert placed == w;
    }
  }

  class MatchApplication {
    const battle: BattleApplication
    var files: map<Id, ExportPayload>

    function Contents(): World
      reads this, battle
    {
      World(battle.repository, files, map[])
    }

    constructor ()
      ensures Contents() == NEW_WORLD && battle.Valid() && fresh(battle)
    {
      battle := new BattleApplication();
      files := map[];
    }

    /** The turns' payloads, appended to a local list one by one. */
    method BuildTurns(build: Option<TeamBuild>, listed: seq<TurnId>) returns (r: Result<seq<ExportedTurn>, ExportError>)
      ensures r == TurnPayloads(battle.repository, build, listed)
    {
      var s := battle.repository;
      var payloads := [];
      var k := 0;
      assert listed[0..] == listed;
      CollectedEnds([], TurnPayloads(s, build, listed));
      while k < |listed|
        invariant 0 <= k <= |listed| && |payloads| == k
        invariant TurnPayloads(s, build, listed) == Collected(payloads, TurnPayloads(s, build, listed[k..]))
      {
        CollectedOne(s, build, listed, k, payloads);
        var turn := listed[k];
        var board, advice := LatestFacts(s.facts, turn), LatestAdvice(s.advices, turn);
        var action := ActionFor(s.actions, turn);
        if board.None? {
          return Failure(TurnFactsMissing);
        }
        if action.None? {
          return Failure(ActualActionMissing);
        }
        var f := s.facts[board.value];
        var payload := ExportedTurn(turn.number, f, None, s.actions[action.value], None);
        if advice.Some? {
          payload := payload.(advice := Some(s.advices[advice.value]));
        }
        if build.Some? {
          if f.selfActive !in build.value.members {
            return Failure(MemberNotInBuild);
          }
          payload := payload.(activeBuild := Some(f.selfActive));
        }
        payloads := payloads + [payload];
        k := k + 1;
      }
      CollectedEnds(payloads, Success([]));
      return Success(payloads);
    }

    method BuildExportPayload(i: nat, outcome: OutcomeRecord) returns (r: Result<ExportPayload, ExportError>)
      requires i < |battle.repository.sessions|
      ensures r == BuildPayload(battle.repository, i, outcome)
    {
      var s := battle.repository;
      var session := s.sessions[i];
      if session.reviewedSelection.None? {
        return Failure(ReviewedSelectionMissing);
      }
      if session.applied.None? {
        return Failure(SelectionNotApplied);
      }
      if session.reviewedSelection.value >= |s.selectionFacts| || session.applied.value >= |s.applied| {
        return Failure(RowMissing);
      }
      var selection, chosen := s.selectionFacts[session.reviewedSelection.value], s.applied[session.applied.value];
      var built := BuildTurns(selection.build, ListTurns(s.turns, i));
      if built.Failure? {
        return built.PropagateFailure();
      }
      var builds := None;
      if selection.build.Some? {
        var k := 0;
        while k < |chosen.three|
          invariant 0 <= k <= |chosen.three|
          invariant forall j :: 0 <= j < k ==> chosen.three[j] in selection.build.value.members
        {
          if chosen.three[k] !in selection.build.value.members {
            return Failure(MemberNotInBuild);
          }
          k := k + 1;
        }
        builds := Some(chosen.three);
      }
      return Success(ExportPayload(i, session.matchId, session.generation, outcome, selection, chosen.three, chosen.lead,
                                   builds, built.value, ListActions(s.actions, i), None));
    }

    /** The document to be written, or the reason there is none. */
    method BuildDocument(i: nat, rich: RichInput) returns (r: Result<ExportPayload, ExportRefusal>)
      requires i < |battle.repository.sessions|
      ensures r == Document(battle.repository, i, rich)
    {
      if i !in battle.repository.outcomes {
        return Failure(OutcomeMissing);
      }
      var legacy := BuildExportPayload(i, battle.repository.outcomes[i]);
      if legacy.Failure? {
        return Failure(PayloadFailed(legacy.error));
      }
      if !UsesRich(battle.repository, i) {
        return Success(legacy.value);
      }
      if rich.blocks.None? {
        return Failure(RichFailed);
      }
      var intel := IntelProvenance(battle.repository.sessions[i].intelPin, rich.intel);
      return Success(legacy.value.(rich := Some(RichPart(rich.blocks.value, intel))));
    }

    /** The file step: the path's file must already be this document, or is written now. */
    method PlaceFile(document: ExportPayload) returns (placed: bool)
      modifies this`files
      ensures placed <==> document.matchId !in old(files) || old(files)[document.matchId] == document
      ensures files == if placed then old(files)[document.matchId := document] else old(files)
    {
      if document.matchId in files {
        return files[document.matchId] == document;
      }
      files := files[document.matchId := document];
      return true;
    }

    method ExportMatchCommand(rich: RichInput, crash: Option<Stage>) returns (reply: ExportCrash.Reply)
      requires battle.Valid()
      modifies this, battle
      ensures battle.Valid() && Guarantees.Later(old(battle.repository), battle.repository)
      ensures (Contents(), reply) == ExportMatch(old(Contents()), rich, crash)
    {
      hide BuildPayload, Document, CommitExport, Invariant.Inv, Guarantees.Later;
      Guarantees.SelfIsLater(battle.repository);
      var active := ActiveSession(battle.repository.sessions, battle.repository.slot);
      if active.Failure? {
        return Rejected(NoMatch);
      }
      var i := active.value;
      var session := battle.repository.sessions[i];
      if session.state == MatchExported {
        if i !in battle.repository.exports {
          return Rejected(RecordMissing);
        }
        return Verified(battle.repository.exports[i], None, OnDisk(Contents(), session.matchId));
      }
      if session.state != MatchEnded {
        return Rejected(NotEnded);
      }
      var document := BuildDocument(i, rich);
      if document.Failure? {
        return Rejected(document.error);
      }
      if i in battle.repository.exports {
        return Verified(battle.repository.exports[i], Some(document.value), OnDisk(Contents(), session.matchId));
      }
      reply := FinishExport(i, document.value, crash);
    }

    /** The rest of the call once its document is decided. */
    method FinishExport(i: nat, document: ExportPayload, crash: Option<Stage>) returns (reply: ExportCrash.Reply)
      requires battle.Valid()
      modifies this, battle
      ensures battle.Valid() && Guarantees.Later(old(battle.repository), battle.repository)
      ensures (Contents(), reply) == Finish(old(Contents()), Exporter(i, document, Built), crash)
    {
      hide CommitExport, Invariant.Inv, Guarantees.Later, Promises.ExportRecorded;
      Guarantees.SelfIsLater(battle.repository);
      if crash == Some(Built) || (crash == Some(SawNoFile) && document.matchId !in files) {
        return Crashed;
      }
      FinishUnfolds(Contents(), i, document, crash);
      var placed := PlaceFile(document);
      if !placed {
        return Rejected(ContentMismatch);
      }
      FinishPlaced(Contents(), i, document, crash);
      hide Finish;
      if crash == Some(Placed) || crash == Some(ReadBack) {
        return Crashed;
      }
      var committed := battle.CommitExportRecord(i, document, OnDisk(Contents(), document.matchId));
      return if committed == Done then Exported(document) else Rejected(CommitFailed(committed.error));
    }
  }
}
