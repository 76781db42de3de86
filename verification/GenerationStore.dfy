/**
 The opponent-intel generation store (opponent_intel_db/generation_store.py): committing and materializing
 generations file by file, with crashes anywhere and readers in between.

 A file's hash is its contents, which is what an injective hash amounts to. Every write goes through an atomic
 replace, so one write is one step.
 */
module GenerationStore {
  import opened Basics

  type Bytes = seq<nat>

  /** generation_manifest.json, and current_generation.json, which is a copy of one. */
  datatype Manifest = Manifest(id: Id, snapshot: Bytes, catalog: Bytes, meta: Id)

  datatype Folder = Folder(snapshot: Option<Bytes>, catalog: Option<Bytes>, manifest: Option<Manifest>)

  datatype Disk = Disk(generations: map<Id, Folder>, staging: map<Id, Folder>, pointer: Option<Manifest>)

  datatype Stage = MadeFolder | WroteSnapshot | WroteCatalog | WroteManifest

  /** A folder's contents once its writer has reached a stage. */
  function FolderAt(m: Manifest, stage: Stage): Folder {
    Folder(if stage.MadeFolder? then None else Some(m.snapshot),
           if stage.MadeFolder? || stage.WroteSnapshot? then None else Some(m.catalog),
           if stage.WroteManifest? then Some(m) else None)
  }

  function Next(stage: Stage): Stage {
    match stage
    case MadeFolder => WroteSnapshot
    case WroteSnapshot => WroteCatalog
    case _ => WroteManifest
  }

  // ---- reading ------------------------------------------------------------------------------

  datatype ReadError = NotFound | IdMismatch | FilesMissing | SnapshotHashMismatch | CatalogHashMismatch | NotArchived

  function CheckFiles(folder: Folder, m: Manifest): Result<Manifest, ReadError> {
    if folder.snapshot.None? || folder.catalog.None? then Failure(FilesMissing)
    else if folder.snapshot.value != m.snapshot then Failure(SnapshotHashMismatch)
    else if folder.catalog.value != m.catalog then Failure(CatalogHashMismatch)
    else Success(m)
  }

  /** read_generation: by id alone, whichever generation is current. */
  function ReadGeneration(generations: map<Id, Folder>, id: Id): Result<Manifest, ReadError> {
    if id !in generations || generations[id].manifest.None? then Failure(NotFound)
    else
      var m := generations[id].manifest.value;
      if m.id != id then Failure(IdMismatch) else CheckFiles(generations[id], m)
  }

  /** read_current_generation by one caller that nobody interrupts. */
  function ReadCurrent(d: Disk): Result<Option<Manifest>, ReadError> {
    if d.pointer.None? then Success(None)
    else
      var m := d.pointer.value;
      if m.id !in d.generations then Failure(FilesMissing)
      else
        var checked :- CheckFiles(d.generations[m.id], m);
        Success(Some(checked))
  }

  /** Read by id, on any disk: the folder is complete and both files are the ones its manifest names. */
  lemma ReadsIff(generations: map<Id, Folder>, id: Id, m: Manifest)
    ensures ReadGeneration(generations, id) == Success(m) <==>
              && id in generations && m.id == id
              && generations[id] == Folder(Some(m.snapshot), Some(m.catalog), Some(m))
  {
  }

  /** Read through the pointer, on any disk: the two files are the ones the pointer itself names. */
  lemma ReadsCurrentIff(d: Disk, m: Manifest)
    ensures ReadCurrent(d) == Success(Some(m)) <==>
              && d.pointer == Some(m) && m.id in d.generations
              && d.generations[m.id].snapshot == Some(m.snapshot) && d.generations[m.id].catalog == Some(m.catalog)
    ensures ReadCurrent(d) == Success(None) <==> d.pointer == None
  {
  }

  // ---- archiving an id that is already there --------------------------------------------------

  /** Found before anything is written: both files must be the ones to archive. */
  function Existing(generations: map<Id, Folder>, m: Manifest): Result<Manifest, ReadError> {
    match ReadGeneration(generations, m.id)
    case Failure(error) => Failure(error)
    case Success(there) =>
      if there.snapshot != m.snapshot then Failure(SnapshotHashMismatch)
      else if there.catalog != m.catalog then Failure(CatalogHashMismatch)
      else Success(there)
  }

  /** Found after the files could not be put in place: only the snapshots are compared. */
  function LostRace(generations: map<Id, Folder>, m: Manifest): Result<Manifest, ReadError> {
    if m.id !in generations then Failure(NotArchived)
    else
      match ReadGeneration(generations, m.id)
      case Failure(error) => Failure(error)
      case Success(there) => if there.snapshot != m.snapshot then Failure(NotArchived) else Success(there)
  }

  /** Both checks ask for a readable generation of the id with this snapshot; only the first looks at the catalog. */
  lemma ArchivedIff(generations: map<Id, Folder>, m: Manifest, there: Manifest)
    ensures Existing(generations, m) == Success(there) <==>
              && ReadGeneration(generations, m.id) == Success(there)
              && there.snapshot == m.snapshot && there.catalog == m.catalog
    ensures LostRace(generations, m) == Success(there) <==>
              ReadGeneration(generations, m.id) == Success(there) && there.snapshot == m.snapshot
  {
    hide CheckFiles;
  }

  // ---- writers and readers, interleaved -----------------------------------------------------

  datatype Writer = Commit(m: Manifest, stage: Stage) | Materialize(token: Id, m: Manifest, stage: Stage)

  datatype Outcome = NoGeneration | Active(m: Manifest, snapshot: Bytes, catalog: Bytes) | Corrupt

  datatype Reader = Started | GotPointer(m: Manifest) | SawFiles(m: Manifest) | GotSnapshot(m: Manifest, bytes: Bytes)
    | Finished(outcome: Outcome)

  /** What a writer asked to archive and what it was told. */
  datatype Archiving = Archiving(m: Manifest, result: Result<Manifest, ReadError>)

  /** `published` is the history of manifests the pointer has named; `archived` has each writer's last archiving. */
  datatype System = System(disk: Disk, writers: map<Id, Writer>, readers: map<Id, Reader>, published: set<Manifest>,
                           archived: map<Id, Archiving>)

  datatype Act =
    | BeginCommit(writer: Id, m: Manifest)
    | BeginMaterialize(writer: Id, token: Id, m: Manifest)
    | Write(writer: Id)
    | Fail(writer: Id)
    | Kill(writer: Id)
    | BeginRead(reader: Id)
    | Read(reader: Id)
    | Restart

  function Without<T>(m: map<Id, T>, key: Id): map<Id, T> {
    m - {key}
  }

  function WithGeneration(s: System, id: Id, folder: Folder): System {
    s.(disk := s.disk.(generations := s.disk.generations[id := folder]))
  }

  function WithStaging(s: System, token: Id, folder: Folder): System {
    s.(disk := s.disk.(staging := s.disk.staging[token := folder]))
  }

  function Gone(s: System, writer: Id): System {
    s.(writers := Without(s.writers, writer))
  }

  /** A commit writes its files in order, then flips the pointer. */
  function WriteCommit(s: System, w: Id, m: Manifest, stage: Stage): System {
    if stage != WroteManifest then
      WithGeneration(s.(writers := s.writers[w := Commit(m, Next(stage))]), m.id, FolderAt(m, Next(stage)))
    else Gone(s.(disk := s.disk.(pointer := Some(m)), published := s.published + {m}), w)
  }

  function Told(s: System, writer: Id, m: Manifest, result: Result<Manifest, ReadError>): System {
    s.(archived := s.archived[writer := Archiving(m, result)])
  }

  /** A materialization writes to a staging folder and renames it, which fails when the target exists. */
  function WriteMaterialize(s: System, w: Id, token: Id, m: Manifest, stage: Stage): System {
    if stage != WroteManifest then
      WithStaging(s.(writers := s.writers[w := Materialize(token, m, Next(stage))]), token, FolderAt(m, Next(stage)))
    else
      var left := s.(disk := s.disk.(staging := Without(s.disk.staging, token)));
      if m.id in s.disk.generations then Told(Gone(left, w), w, m, LostRace(s.disk.generations, m))
      else Told(Gone(WithGeneration(left, m.id, FolderAt(m, WroteManifest)), w), w, m, Success(m))
  }

  /** A write or the rename raises: the folder is removed, and an archiving looks whether another has done its work. */
  function CleanUp(s: System, w: Id, writer: Writer): System {
    match writer
    case Commit(m, _) => s.(disk := s.disk.(generations := Without(s.disk.generations, m.id)))
    case Materialize(token, m, _) =>
      Told(s.(disk := s.disk.(staging := Without(s.disk.staging, token))), w, m, LostRace(s.disk.generations, m))
  }

  function Resume(d: Disk, reader: Reader): Reader {
    match reader
    case Started => if d.pointer.None? then Finished(NoGeneration) else GotPointer(d.pointer.value)
    case GotPointer(m) =>
      if m.id in d.generations && d.generations[m.id].snapshot.Some? && d.generations[m.id].catalog.Some?
      then SawFiles(m) else Finished(Corrupt)
    case SawFiles(m) =>
      if m.id in d.generations && d.generations[m.id].snapshot.Some?
      then GotSnapshot(m, d.generations[m.id].snapshot.value) else Finished(Corrupt)
    case GotSnapshot(m, bytes) =>
      if m.id in d.generations && d.generations[m.id].catalog.Some? && bytes == m.snapshot
         && d.generations[m.id].catalog.value == m.catalog
      then Finished(Active(m, bytes, d.generations[m.id].catalog.value)) else Finished(Corrupt)
    case Finished(outcome) => reader
  }

  /** Step by step or at once, a reader nobody disturbs comes to the same end, whatever state the disk is in. */
  lemma QuietReaderIsReadCurrent(d: Disk)
    ensures Resume(d, Resume(d, Resume(d, Resume(d, Started)))) ==
            Finished(match ReadCurrent(d)
                     case Failure(_) => Corrupt
                     case Success(None) => NoGeneration
                     case Success(Some(m)) => Active(m, m.snapshot, m.catalog))
  {
  }

  /** Whatever happened to the disk between its steps, a reader serves no bytes but those the pointer it read names. */
  lemma ServedIsNamed(d: Disk, reader: Reader, m: Manifest, snapshot: Bytes, catalog: Bytes)
    requires !reader.Finished?
    ensures Resume(d, reader) == Finished(Active(m, snapshot, catalog)) <==>
              && reader == GotSnapshot(m, m.snapshot) && snapshot == m.snapshot && catalog == m.catalog
              && m.id in d.generations && d.generations[m.id].catalog == Some(m.catalog)
  {
  }

  /** A commit's id is a fresh uuid: no folder and no running writer has it. */
  predicate FreshId(s: System, id: Id) {
    id !in s.disk.generations && forall w :: w in s.writers ==> s.writers[w].m.id != id
  }

  predicate FreshToken(s: System, token: Id) {
    token !in s.disk.staging
  }

  function Step(s: System, act: Act): System {
    match act
    case BeginCommit(w, m) =>
      if w in s.writers || !FreshId(s, m.id) then s
      else WithGeneration(s.(writers := s.writers[w := Commit(m, MadeFolder)]), m.id, FolderAt(m, MadeFolder))
    case BeginMaterialize(w, token, m) =>
      if w in s.writers then s
      else if m.id in s.disk.generations then Told(s, w, m, Existing(s.disk.generations, m))
      else if !FreshToken(s, token) then s
      else WithStaging(s.(writers := s.writers[w := Materialize(token, m, MadeFolder)]), token, FolderAt(m, MadeFolder))
    case Write(w) =>
      if w !in s.writers then s
      else
        (match s.writers[w]
         case Commit(m, stage) => WriteCommit(s, w, m, stage)
         case Materialize(token, m, stage) => WriteMaterialize(s, w, token, m, stage))
    case Fail(w) =>
      if w !in s.writers || (s.writers[w].Commit? && s.writers[w].stage == WroteManifest) then s
      else Gone(CleanUp(s, w, s.writers[w]), w)
    case Kill(w) => if w !in s.writers then s else Gone(s, w)
    case BeginRead(r) => if r in s.readers then s else s.(readers := s.readers[r := Started])
    case Read(r) =>
      if r !in s.readers then s else s.(readers := s.readers[r := Resume(s.disk, s.readers[r])])
    case Restart => s.(writers := map[], readers := map[])
  }

  function Run(s: System, acts: seq<Act>): System
    decreases |acts|
  {
    if acts == [] then s else Run(Step(s, acts[0]), acts[1..])
  }

  const EMPTY_SYSTEM := System(Disk(map[], map[], None), map[], map[], {}, map[])

  // ---- the invariant ------------------------------------------------------------------------

  /** A writer alone owns its folder, which is exactly as far as the writer is. */
  predicate WriterOk(s: System, w: Id)
    requires w in s.writers
  {
    match s.writers[w]
    case Commit(m, stage) =>
      && m.id in s.disk.generations && s.disk.generations[m.id] == FolderAt(m, stage) && m !in s.published
    case Materialize(token, m, stage) => token in s.disk.staging && s.disk.staging[token] == FolderAt(m, stage)
  }

  predicate SameFolder(a: Writer, b: Writer) {
    (a.Commit? && b.Commit? && a.m.id == b.m.id) || (a.Materialize? && b.Materialize? && a.token == b.token)
  }

  predicate PublishedOk(d: Disk, m: Manifest) {
    m.id in d.generations && d.generations[m.id] == FolderAt(m, WroteManifest)
  }

  predicate ReaderOk(published: set<Manifest>, reader: Reader) {
    match reader
    case Started => true
    case GotPointer(m) => m in published
    case SawFiles(m) => m in published
    case GotSnapshot(m, bytes) => m in published && bytes == m.snapshot
    case Finished(NoGeneration) => true
    case Finished(Active(m, snapshot, catalog)) => m in published && snapshot == m.snapshot && catalog == m.catalog
    case Finished(Corrupt) => false
  }

  /** A folder with a manifest is complete, and is the folder of the manifest's id. */
  predicate FolderOk(id: Id, folder: Folder) {
    folder.manifest.Some? ==> folder.manifest.value.id == id && folder == FolderAt(folder.manifest.value, WroteManifest)
  }

  predicate SystemOk(s: System) {
    && (forall w :: w in s.writers ==> WriterOk(s, w))
    && (forall v, w :: v in s.writers && w in s.writers && v != w ==> !SameFolder(s.writers[v], s.writers[w]))
    && (forall m :: m in s.published ==> PublishedOk(s.disk, m))
    && (s.disk.pointer.None? <==> s.published == {})
    && (s.disk.pointer.Some? ==> s.disk.pointer.value in s.published)
    && (forall r :: r in s.readers ==> ReaderOk(s.published, s.readers[r]))
    && (forall id :: id in s.disk.generations ==> FolderOk(id, s.disk.generations[id]))
  }

  lemma BeginCommitKeeps(s: System, w: Id, m: Manifest)
    requires SystemOk(s)
    ensures SystemOk(Step(s, BeginCommit(w, m)))
  {
  }

  lemma ToldKeeps(s: System, w: Id, m: Manifest, result: Result<Manifest, ReadError>)
    requires SystemOk(s)
    ensures SystemOk(Told(s, w, m, result))
  {
    hide FolderAt, PublishedOk, FolderOk, ReaderOk, SameFolder;
    var s' := Told(s, w, m, result);
    forall v | v in s'.writers ensures WriterOk(s', v) {
      assert WriterOk(s, v);
    }
  }

  lemma StagingKeeps(s: System, w: Id, token: Id, m: Manifest)
    requires SystemOk(s) && w !in s.writers && FreshToken(s, token)
    ensures SystemOk(WithStaging(s.(writers := s.writers[w := Materialize(token, m, MadeFolder)]), token,
                                 FolderAt(m, MadeFolder)))
  {
    hide FolderAt, PublishedOk, FolderOk, ReaderOk;
    var s' := WithStaging(s.(writers := s.writers[w := Materialize(token, m, MadeFolder)]), token,
                          FolderAt(m, MadeFolder));
    forall v | v in s'.writers ensures WriterOk(s', v) && (v != w ==> !SameFolder(s'.writers[v], s'.writers[w])) {
      if v != w {
        assert WriterOk(s, v);
      }
    }
    forall p | p in s'.published ensures PublishedOk(s'.disk, p) {
      PublishedStays(s.disk, s'.disk, p);
    }
  }

  lemma PublishedStays(d: Disk, d': Disk, m: Manifest)
    requires PublishedOk(d, m) && d'.generations == d.generations
    ensures PublishedOk(d', m)
  {
  }

  lemma BeginMaterializeKeeps(s: System, w: Id, token: Id, m: Manifest)
    requires SystemOk(s)
    ensures SystemOk(Step(s, BeginMaterialize(w, token, m)))
  {
    hide SystemOk, Told, WithStaging, FolderAt, Existing, FreshToken;
    if w !in s.writers {
      if m.id in s.disk.generations {
        ToldKeeps(s, w, m, Existing(s.disk.generations, m));
      } else if FreshToken(s, token) {
        StagingKeeps(s, w, token, m);
      }
    }
  }

  lemma FileWritten(s: System, w: Id, m: Manifest, stage: Stage)
    requires SystemOk(s) && w in s.writers && s.writers[w] == Commit(m, stage) && stage != WroteManifest
    ensures SystemOk(WriteCommit(s, w, m, stage))
  {
    assert WriterOk(s, w);
    var s' := WriteCommit(s, w, m, stage);
    forall v | v in s'.writers ensures WriterOk(s', v) {
      if v != w {
        assert WriterOk(s, v) && !SameFolder(s.writers[v], s.writers[w]);
      }
    }
    forall p | p in s'.published ensures PublishedOk(s'.disk, p) {
      assert PublishedOk(s.disk, p);
    }
  }

  lemma PointerFlipped(s: System, w: Id, m: Manifest)
    requires SystemOk(s) && w in s.writers && s.writers[w] == Commit(m, WroteManifest)
    ensures SystemOk(WriteCommit(s, w, m, WroteManifest))
  {
    assert WriterOk(s, w);
    var s' := WriteCommit(s, w, m, WroteManifest);
    forall v | v in s'.writers ensures WriterOk(s', v) {
      assert WriterOk(s, v) && !SameFolder(s.writers[v], s.writers[w]);
    }
  }

  lemma FileStaged(s: System, w: Id, token: Id, m: Manifest, stage: Stage)
    requires SystemOk(s) && w in s.writers && s.writers[w] == Materialize(token, m, stage) && stage != WroteManifest
    ensures SystemOk(WriteMaterialize(s, w, token, m, stage))
  {
    var s' := WriteMaterialize(s, w, token, m, stage);
    forall v | v in s'.writers ensures WriterOk(s', v) {
      if v != w {
        assert WriterOk(s, v) && !SameFolder(s.writers[v], s.writers[w]);
      }
    }
  }

  lemma FolderRenamed(s: System, w: Id, token: Id, m: Manifest)
    requires SystemOk(s) && w in s.writers && s.writers[w] == Materialize(token, m, WroteManifest)
    ensures SystemOk(WriteMaterialize(s, w, token, m, WroteManifest))
  {
    hide SystemOk, Told, LostRace, FolderAt;
    RenamedKeeps(s, w, token, m);
    ToldKeeps(Renamed(s, w, token, m), w, m,
              if m.id in s.disk.generations then LostRace(s.disk.generations, m) else Success(m));
  }

  function Renamed(s: System, w: Id, token: Id, m: Manifest): System {
    var left := s.(disk := s.disk.(staging := Without(s.disk.staging, token)));
    Gone(if m.id in s.disk.generations then left else WithGeneration(left, m.id, FolderAt(m, WroteManifest)), w)
  }

  lemma RenamedKeeps(s: System, w: Id, token: Id, m: Manifest)
    requires SystemOk(s) && w in s.writers && s.writers[w] == Materialize(token, m, WroteManifest)
    ensures SystemOk(Renamed(s, w, token, m))
  {
    hide FolderAt, ReaderOk, FolderOk;
    var s' := Renamed(s, w, token, m);
    forall v | v in s'.writers ensures WriterOk(s', v) {
      assert WriterOk(s, v) && !SameFolder(s.writers[v], s.writers[w]);
    }
    forall p | p in s'.published ensures PublishedOk(s'.disk, p) {
      assert PublishedOk(s.disk, p);
    }
    WholeFolder(m);
  }

  lemma WholeFolder(m: Manifest)
    ensures FolderOk(m.id, FolderAt(m, WroteManifest))
  {
  }

  lemma WriteKeeps(s: System, w: Id)
    requires SystemOk(s)
    ensures SystemOk(Step(s, Write(w)))
  {
    hide SystemOk, WriteCommit, WriteMaterialize;
    if w in s.writers {
      match s.writers[w]
      case Commit(m, stage) =>
        if stage == WroteManifest {
          PointerFlipped(s, w, m);
        } else {
          FileWritten(s, w, m, stage);
        }
      case Materialize(token, m, stage) =>
        if stage == WroteManifest {
          FolderRenamed(s, w, token, m);
        } else {
          FileStaged(s, w, token, m, stage);
        }
    }
  }

  lemma FailKeeps(s: System, w: Id)
    requires SystemOk(s)
    ensures SystemOk(Step(s, Act.Fail(w)))
  {
    if w in s.writers && !(s.writers[w].Commit? && s.writers[w].stage == WroteManifest) {
      assert WriterOk(s, w);
      var s' := Step(s, Act.Fail(w));
      forall v | v in s'.writers ensures WriterOk(s', v) {
        assert WriterOk(s, v) && !SameFolder(s.writers[v], s.writers[w]);
      }
      forall p | p in s'.published ensures PublishedOk(s'.disk, p) {
        assert PublishedOk(s.disk, p);
      }
    }
  }

  lemma ReadKeeps(s: System, r: Id)
    requires SystemOk(s)
    ensures SystemOk(Step(s, Read(r)))
  {
  }

  lemma OthersKeep(s: System, act: Act)
    requires SystemOk(s) && (act.Kill? || act.BeginRead? || act.Restart?)
    ensures SystemOk(Step(s, act))
  {
  }

  lemma StepKeeps(s: System, act: Act)
    requires SystemOk(s)
    ensures SystemOk(Step(s, act))
  {
    hide SystemOk, Step;
    match act
    case BeginCommit(w, m) => BeginCommitKeeps(s, w, m);
    case BeginMaterialize(w, token, m) => BeginMaterializeKeeps(s, w, token, m);
    case Write(w) => WriteKeeps(s, w);
    case Fail(w) => FailKeeps(s, w);
    case Read(r) => ReadKeeps(s, r);
    case _ => OthersKeep(s, act);
  }

  lemma {:induction false} RunKeeps(s: System, acts: seq<Act>)
    requires SystemOk(s)
    ensures SystemOk(Run(s, acts))
    decreases |acts|
  {
    hide SystemOk, Step;
    if acts != [] {
      StepKeeps(s, acts[0]);
      RunKeeps(Step(s, acts[0]), acts[1..]);
    }
  }

  lemma ReachableSystem(acts: seq<Act>)
    ensures SystemOk(Run(EMPTY_SYSTEM, acts))
  {
    hide Run;
    RunKeeps(EMPTY_SYSTEM, acts);
  }

  // ---- readers ------------------------------------------------------------------------------

  /**
   However commits, failures, crashes and other readers are interleaved with it, file by file, a reader ends
   with the snapshot and catalog of one published generation, or with none; never with a mix or a hash error.
   */
  lemma ReadersSeeOneGeneration(acts: seq<Act>, s: System, r: Id)
    requires s == Run(EMPTY_SYSTEM, acts) && r in s.readers && s.readers[r].Finished?
    ensures match s.readers[r].outcome
            case NoGeneration => true
            case Active(m, snapshot, catalog) => m in s.published && snapshot == m.snapshot && catalog == m.catalog
            case Corrupt => false
  {
    hide Run;
    ReachableSystem(acts);
    assert ReaderOk(s.published, s.readers[r]);
  }

  /** A reader that finds nothing started before the first commit's flip. */
  lemma NothingOnlyBeforeTheFirst(acts: seq<Act>, s: System, r: Id)
    requires s == Run(EMPTY_SYSTEM, acts) && r in s.readers && !s.readers[r].Finished?
    ensures Step(s, Read(r)).readers[r] == Finished(NoGeneration) ==> s.published == {}
  {
    hide Run;
    ReachableSystem(acts);
  }

  /** A caller nobody interrupts reads the last published generation, and none exactly before the first. */
  lemma CurrentIsReadable(acts: seq<Act>, s: System)
    requires s == Run(EMPTY_SYSTEM, acts)
    ensures ReadCurrent(s.disk).Success?
    ensures ReadCurrent(s.disk).value == s.disk.pointer
    ensures s.disk.pointer.None? <==> s.published == {}
    ensures s.disk.pointer.Some? ==> s.disk.pointer.value in s.published
  {
    hide Run;
    ReachableSystem(acts);
    if s.disk.pointer.Some? {
      assert PublishedOk(s.disk, s.disk.pointer.value);
    }
  }

  // ---- pins ---------------------------------------------------------------------------------

  lemma StepKeepsReadable(s: System, act: Act, id: Id)
    requires SystemOk(s) && ReadGeneration(s.disk.generations, id).Success?
    ensures id in Step(s, act).disk.generations && Step(s, act).disk.generations[id] == s.disk.generations[id]
  {
    match act {
      case Write(w) =>
        if w in s.writers {
          assert WriterOk(s, w);
        }
      case Fail(w) =>
        if w in s.writers {
          assert WriterOk(s, w);
        }
      case _ =>
    }
  }

  /** Once a generation id reads successfully, every later run of writers, flips and crashes reads the same bytes. */
  lemma {:induction false} PinnedReadsNeverChange(s: System, later: seq<Act>, id: Id)
    requires SystemOk(s) && ReadGeneration(s.disk.generations, id).Success?
    ensures ReadGeneration(Run(s, later).disk.generations, id) == ReadGeneration(s.disk.generations, id)
    decreases |later|
  {
    hide SystemOk, Step;
    if later != [] {
      StepKeepsReadable(s, later[0], id);
      StepKeeps(s, later[0]);
      PinnedReadsNeverChange(Step(s, later[0]), later[1..], id);
    }
  }

  /** What a match can pin, the published generation, is readable by its id for good. */
  lemma PublishedIsPinnable(acts: seq<Act>, s: System, later: seq<Act>, m: Manifest)
    requires s == Run(EMPTY_SYSTEM, acts) && m in s.published
    ensures ReadGeneration(Run(s, later).disk.generations, m.id) == Success(m)
  {
    hide Run;
    ReachableSystem(acts);
    assert PublishedOk(s.disk, m);
    PinnedReadsNeverChange(s, later, m.id);
  }

  // ---- archivings ---------------------------------------------------------------------------

  /** A success names what the id reads as, which has the snapshot that was to be archived. */
  predicate ArchivingOk(d: Disk, a: Archiving) {
    a.result.Success? ==> ReadGeneration(d.generations, a.m.id) == a.result && a.result.value.snapshot == a.m.snapshot
  }

  predicate ArchivesOk(s: System) {
    forall w :: w in s.archived ==> ArchivingOk(s.disk, s.archived[w])
  }

  lemma SameFolderReads(d: Disk, d': Disk, id: Id)
    requires id in d.generations && id in d'.generations && d'.generations[id] == d.generations[id]
    ensures ReadGeneration(d'.generations, id) == ReadGeneration(d.generations, id)
  {
  }

  /** The one archiving a step may conclude is told the truth about the disk it leaves. */
  lemma ToldTruth(s: System, act: Act, w: Id)
    requires w in Step(s, act).archived
    ensures (w in s.archived && Step(s, act).archived[w] == s.archived[w])
            || ArchivingOk(Step(s, act).disk, Step(s, act).archived[w])
  {
    hide ReadGeneration, Existing, LostRace, FreshId, FreshToken, Resume, FolderAt;
    match act {
      case BeginMaterialize(_, _, m) => VerdictsHold(s.disk.generations, m);
      case Write(v) =>
        if v in s.writers && s.writers[v].Materialize? {
          VerdictsHold(s.disk.generations, s.writers[v].m);
          RenamedReads(s.disk.generations, s.writers[v].m);
        }
      case Fail(v) =>
        if v in s.writers && s.writers[v].Materialize? {
          VerdictsHold(s.disk.generations, s.writers[v].m);
        }
      case _ =>
    }
  }

  lemma VerdictsHold(generations: map<Id, Folder>, m: Manifest)
    ensures forall d: Disk :: d.generations == generations ==>
              ArchivingOk(d, Archiving(m, Existing(generations, m))) && ArchivingOk(d, Archiving(m, LostRace(generations, m)))
  {
  }

  lemma RenamedReads(generations: map<Id, Folder>, m: Manifest)
    ensures ReadGeneration(generations[m.id := FolderAt(m, WroteManifest)], m.id) == Success(m)
  {
  }

  lemma StepKeepsArchives(s: System, act: Act)
    requires SystemOk(s) && ArchivesOk(s)
    ensures ArchivesOk(Step(s, act))
  {
    hide SystemOk, Step, ReadGeneration;
    var s' := Step(s, act);
    forall w | w in s'.archived ensures ArchivingOk(s'.disk, s'.archived[w]) {
      ToldTruth(s, act, w);
      if w in s.archived && s'.archived[w] == s.archived[w] && s.archived[w].result.Success? {
        assert ArchivingOk(s.disk, s.archived[w]);
        StepKeepsReadable(s, act, s.archived[w].m.id);
        ReadableIsThere(s.disk, s.archived[w].m.id);
        SameFolderReads(s.disk, s'.disk, s.archived[w].m.id);
      }
    }
  }

  lemma ReadableIsThere(d: Disk, id: Id)
    requires ReadGeneration(d.generations, id).Success?
    ensures id in d.generations
  {
  }

  lemma {:induction false} RunKeepsArchives(s: System, acts: seq<Act>)
    requires SystemOk(s) && ArchivesOk(s)
    ensures ArchivesOk(Run(s, acts))
    decreases |acts|
  {
    hide SystemOk, ArchivesOk, Step;
    if acts != [] {
      StepKeeps(s, acts[0]);
      StepKeepsArchives(s, acts[0]);
      RunKeepsArchives(Step(s, acts[0]), acts[1..]);
    }
  }

  /** A successful archiving, a lost race included, names a generation of its id and snapshot, readable for good. */
  lemma ArchivedReadsBack(acts: seq<Act>, s: System, later: seq<Act>, w: Id)
    requires s == Run(EMPTY_SYSTEM, acts) && w in s.archived && s.archived[w].result.Success?
    ensures var a := s.archived[w];
            ReadGeneration(Run(s, later).disk.generations, a.m.id) == a.result && a.result.value.snapshot == a.m.snapshot
  {
    hide Run, SystemOk;
    ReachableSystem(acts);
    EmptyArchives();
    RunKeepsArchives(EMPTY_SYSTEM, acts);
    assert ArchivingOk(s.disk, s.archived[w]);
    PinnedReadsNeverChange(s, later, s.archived[w].m.id);
  }

  lemma EmptyArchives()
    ensures SystemOk(EMPTY_SYSTEM) && ArchivesOk(EMPTY_SYSTEM)
  {
  }

  /**
   A lost race that is taken for a success is one exactly when the check made before writing would have passed
   too.
   */
  lemma LostRaceIsExactIff(generations: map<Id, Folder>, m: Manifest)
    requires LostRace(generations, m).Success?
    ensures LostRace(generations, m).value.catalog == m.catalog <==> Existing(generations, m).Success?
  {
  }

  lemma RunOn(s: System, act: Act, rest: seq<Act>)
    ensures Run(s, [act] + rest) == Run(Step(s, act), rest)
  {
    hide Step;
    assert ([act] + rest)[1..] == rest;
  }

  lemma NothingRuns(s: System)
    ensures Run(s, []) == s
  {
  }

  /** Two archivings under one id, so far. */
  function Rivals(a: Manifest, b: Manifest, p: Stage, q: Stage): System {
    System(Disk(map[], map[0 := FolderAt(a, p), 1 := FolderAt(b, q)], None),
           map[0 := Materialize(0, a, p), 1 := Materialize(1, b, q)], map[], {}, map[])
  }

  function RivalActs(a: Manifest, b: Manifest): seq<Act> {
    [BeginMaterialize(0, 0, a), BeginMaterialize(1, 1, b)]
    + ([Write(0), Write(0), Write(0)] + ([Write(1), Write(1), Write(1)] + [Write(0), Write(1)]))
  }

  lemma FirstWrites(a: Manifest, b: Manifest, p: Stage, q: Stage)
    requires p != WroteManifest
    ensures Step(Rivals(a, b, p, q), Write(0)) == Rivals(a, b, Next(p), q)
  {
    hide FolderAt, Next;
    assert Step(Rivals(a, b, p, q), Write(0)).disk.staging == Rivals(a, b, Next(p), q).disk.staging;
    assert Step(Rivals(a, b, p, q), Write(0)).writers == Rivals(a, b, Next(p), q).writers;
  }

  lemma SecondWrites(a: Manifest, b: Manifest, p: Stage, q: Stage)
    requires q != WroteManifest
    ensures Step(Rivals(a, b, p, q), Write(1)) == Rivals(a, b, p, Next(q))
  {
    hide FolderAt, Next;
    assert Step(Rivals(a, b, p, q), Write(1)).disk.staging == Rivals(a, b, p, Next(q)).disk.staging;
    assert Step(Rivals(a, b, p, q), Write(1)).writers == Rivals(a, b, p, Next(q)).writers;
  }

  lemma RivalsBegin(a: Manifest, b: Manifest)
    ensures Step(Step(EMPTY_SYSTEM, BeginMaterialize(0, 0, a)), BeginMaterialize(1, 1, b))
         == Rivals(a, b, MadeFolder, MadeFolder)
  {
    var s := Step(Step(EMPTY_SYSTEM, BeginMaterialize(0, 0, a)), BeginMaterialize(1, 1, b));
    assert s.disk.staging == Rivals(a, b, MadeFolder, MadeFolder).disk.staging;
    assert s.writers == Rivals(a, b, MadeFolder, MadeFolder).writers;
  }

  lemma RivalsEnd(a: Manifest, b: Manifest)
    requires a.id == b.id && a.snapshot == b.snapshot
    ensures var s := Step(Step(Rivals(a, b, WroteManifest, WroteManifest), Write(0)), Write(1));
            1 in s.archived && s.archived[1] == Archiving(b, Success(a))
  {
    var s := Step(Rivals(a, b, WroteManifest, WroteManifest), Write(0));
    assert s.disk.generations == map[a.id := FolderAt(a, WroteManifest)];
    assert 1 in s.writers && s.writers[1] == Materialize(1, b, WroteManifest);
  }

  lemma ThreeWrites(a: Manifest, b: Manifest, rest: seq<Act>)
    ensures Run(Rivals(a, b, MadeFolder, MadeFolder), [Write(0), Write(0), Write(0)] + rest)
         == Run(Rivals(a, b, WroteManifest, MadeFolder), rest)
    ensures Run(Rivals(a, b, WroteManifest, MadeFolder), [Write(1), Write(1), Write(1)] + rest)
         == Run(Rivals(a, b, WroteManifest, WroteManifest), rest)
  {
    hide Run, Step, Rivals;
    var v, w := Write(0), Write(1);
    assert [v, v, v] + rest == [v] + ([v] + ([v] + rest)) && [w, w, w] + rest == [w] + ([w] + ([w] + rest));
    FirstWrites(a, b, MadeFolder, MadeFolder);
    FirstWrites(a, b, WroteSnapshot, MadeFolder);
    FirstWrites(a, b, WroteCatalog, MadeFolder);
    SecondWrites(a, b, WroteManifest, MadeFolder);
    SecondWrites(a, b, WroteManifest, WroteSnapshot);
    SecondWrites(a, b, WroteManifest, WroteCatalog);
    RunOn(Rivals(a, b, MadeFolder, MadeFolder), v, [v] + ([v] + rest));
    RunOn(Rivals(a, b, WroteSnapshot, MadeFolder), v, [v] + rest);
    RunOn(Rivals(a, b, WroteCatalog, MadeFolder), v, rest);
    RunOn(Rivals(a, b, WroteManifest, MadeFolder), w, [w] + ([w] + rest));
    RunOn(Rivals(a, b, WroteManifest, WroteSnapshot), w, [w] + rest);
    RunOn(Rivals(a, b, WroteManifest, WroteCatalog), w, rest);
  }

  /**
   Under an id of the caller's choice, the loser of a race is told it archived a pair whose catalog is another
   one.
   */
  lemma LoserGetsOtherCatalog(a: Manifest, b: Manifest)
    requires a.id == b.id && a.snapshot == b.snapshot && a.catalog != b.catalog
    ensures var s := Run(EMPTY_SYSTEM, RivalActs(a, b));
            1 in s.archived && s.archived[1] == Archiving(b, Success(a))
  {
    hide Run, Step, Rivals;
    var begun := Rivals(a, b, MadeFolder, MadeFolder);
    var done := Rivals(a, b, WroteManifest, WroteManifest);
    var tail := [Write(1), Write(1), Write(1)] + [Write(0), Write(1)];
    var rest := [Write(0), Write(0), Write(0)] + tail;
    assert RivalActs(a, b) == [BeginMaterialize(0, 0, a)] + ([BeginMaterialize(1, 1, b)] + rest);
    RunOn(EMPTY_SYSTEM, BeginMaterialize(0, 0, a), [BeginMaterialize(1, 1, b)] + rest);
    RunOn(Step(EMPTY_SYSTEM, BeginMaterialize(0, 0, a)), BeginMaterialize(1, 1, b), rest);
    RivalsBegin(a, b);
    ThreeWrites(a, b, tail);
    ThreeWrites(a, b, [Write(0), Write(1)]);
    assert [Write(0), Write(1)] == [Write(0)] + ([Write(1)] + []);
    RunOn(done, Write(0), [Write(1)] + []);
    RunOn(Step(done, Write(0)), Write(1), []);
    NothingRuns(Step(Step(done, Write(0)), Write(1)));
    RivalsEnd(a, b);
  }

  // ---- the store as an object ---------------------------------------------------------------

  /** How a call ends: it completes, raises after writing some files, or the process dies. */
  datatype Fate = Completes | Raises(stage: Stage) | Dies(stage: Stage)

  function Reached(fate: Fate): Stage {
    match fate
    case Completes => WroteManifest
    case Raises(stage) => stage
    case Dies(stage) => stage
  }

  function Rank(stage: Stage): nat {
    match stage case MadeFolder => 0 case WroteSnapshot => 1 case WroteCatalog => 2 case WroteManifest => 3
  }

  class IntelDirectory {
    var generations: map<Id, Folder>
    var staging: map<Id, Folder>
    var pointer: Option<Manifest>

    function Contents(): Disk
      reads this
    {
      Disk(generations, staging, pointer)
    }

    constructor ()
      ensures Contents() == EMPTY_SYSTEM.disk
    {
      generations, staging, pointer := map[], map[], None;
    }

    /** The next file of a folder, in the order snapshot, catalog, manifest. */
    method WriteNext(folder: Folder, m: Manifest, stage: Stage) returns (r: Folder)
      requires folder == FolderAt(m, stage) && stage != WroteManifest
      ensures r == FolderAt(m, Next(stage))
      ensures stage == MadeFolder ==> folder == Folder(None, None, None) && r == Folder(Some(m.snapshot), None, None)
      ensures stage == WroteSnapshot ==> r == Folder(Some(m.snapshot), Some(m.catalog), None)
      ensures stage == WroteCatalog ==> r == Folder(Some(m.snapshot), Some(m.catalog), Some(m))
    {
      match stage
      case MadeFolder => r := folder.(snapshot := Some(m.snapshot));
      case WroteSnapshot => r := folder.(catalog := Some(m.catalog));
      case _ => r := folder.(manifest := Some(m));
    }

    /** commit_generation. Raising removes the folder; dying leaves it, and the pointer, as they are. */
    method CommitGeneration(m: Manifest, fate: Fate) returns (ok: bool)
      requires m.id !in generations
      requires fate.Raises? ==> fate.stage != WroteManifest
      modifies this
      ensures ok <==> fate == Completes
      ensures fate == Completes ==>
                && pointer == Some(m) && staging == old(staging)
                && generations == old(generations)[m.id := Folder(Some(m.snapshot), Some(m.catalog), Some(m))]
      ensures fate.Raises? ==> Contents() == old(Contents())
      ensures fate.Dies? ==>
                Contents() == old(Contents()).(generations := old(generations)[m.id := FolderAt(m, fate.stage)])
    {
      var stage := MadeFolder;
      generations := generations[m.id := Folder(None, None, None)];
      while stage != Reached(fate)
        invariant Rank(stage) <= Rank(Reached(fate))
        invariant Contents() == old(Contents()).(generations := old(generations)[m.id := FolderAt(m, stage)])
        decreases 3 - Rank(stage)
      {
        var folder := WriteNext(generations[m.id], m, stage);
        generations := generations[m.id := folder];
        stage := Next(stage);
      }
      match fate {
        case Raises(_) =>
          generations := generations - {m.id};
          return false;
        case Dies(_) =>
          return false;
        case Completes =>
          pointer := Some(m);
          return true;
      }
    }

    /**
     materialize_generation: idempotent, never touching the pointer or an existing generation. `rival` is what another
     process puts under the id while this one writes its files. The rename then fails, as it does when it raises on
     its own, and only the snapshots are compared.
     */
    method MaterializeGeneration(m: Manifest, token: Id, fate: Fate, rival: Option<Manifest>)
        returns (r: Result<Manifest, ReadError>)
      requires token !in staging && (rival.Some? ==> rival.value.id == m.id)
      modifies this
      ensures pointer == old(pointer)
      ensures forall id :: id in old(generations) ==> id in generations && generations[id] == old(generations)[id]
      ensures m.id in old(generations) ==> Contents() == old(Contents()) && r == Existing(generations, m)
      ensures m.id !in old(generations) ==>
                match rival
                case None => if fate == Completes then generations == old(generations)[m.id := FolderAt(m, WroteManifest)]
                             else generations == old(generations)
                case Some(other) => generations == old(generations)[m.id := FolderAt(other, WroteManifest)]
      ensures !fate.Dies? ==> staging == old(staging)
      ensures m.id !in old(generations) && fate == Completes && rival.None? ==> r == Success(m)
      ensures m.id !in old(generations) ==>
                (r.Success? <==>
                   if rival.Some? then !fate.Dies? && rival.value.snapshot == m.snapshot else fate == Completes)
      ensures r.Success? ==> ReadGeneration(generations, m.id) == r && r.value.snapshot == m.snapshot
      ensures r.Success? ==>
                (r.value.catalog == m.catalog
                 <==> m.id in old(generations) || rival.None? || rival.value.catalog == m.catalog)
    {
      if m.id in generations {
        var existing := ReadGeneration(generations, m.id);
        if existing.Failure? {
          return existing;
        }
        if existing.value.snapshot != m.snapshot {
          return Failure(SnapshotHashMismatch);
        }
        return if existing.value.catalog != m.catalog then Failure(CatalogHashMismatch) else existing;
      }
      var stage := MadeFolder;
      staging := staging[token := Folder(None, None, None)];
      while stage != Reached(fate)
        invariant Rank(stage) <= Rank(Reached(fate))
        invariant Contents() == old(Contents()).(staging := old(staging)[token := FolderAt(m, stage)])
        decreases 3 - Rank(stage)
      {
        var folder := WriteNext(staging[token], m, stage);
        staging := staging[token := folder];
        stage := Next(stage);
      }
      if rival.Some? {
        generations := generations[m.id := FolderAt(rival.value, WroteManifest)];
      }
      if fate.Dies? {
        return Failure(NotArchived);
      }
      if fate == Completes && m.id !in generations {
        generations := generations[m.id := staging[token]];
        staging := staging - {token};
        return Success(m);
      }
      staging := staging - {token};
      if m.id !in generations {
        return Failure(NotArchived);
      }
      var there := ReadGeneration(generations, m.id);
      if there.Failure? {
        return there;
      }
      return if there.value.snapshot != m.snapshot then Failure(NotArchived) else there;
    }
  }
}
