/**
 From stored bytes to the intel a match reasons under (opponent_intel_db/runtime_intel.py and the loader of
 application/turn_provider_export_bridge.py:249-323): validating a snapshot/catalog pair, choosing what a new match
 pins, and loading what an existing match pinned.
 */
module RuntimeIntel {
  import opened Basics
  import opened Text
  import opened GenerationStore
  import opened IntelContext
  import Records
  import Store
  import Commands
  import Guarantees

  const SNAPSHOT_SCHEMA := "opponent-intel-snapshot.v1"
  const CATALOG_SCHEMA := "opponent-intel-move-catalog.v1"

  /** A catalog entry; a name that is no string, or a count that is no integer, is None. */
  datatype RawEntry = NotAnEntry | RawEntry(name: Option<string>, count: Option<int>)

  datatype RawCatalog = RawCatalog(schemaVersion: string, moves: Option<seq<RawEntry>>)

  /** JSON decoding of file bytes, SHA-256, and the manifest fields that the snapshot's contents determine. */
  datatype Codec = Codec(snapshot: Bytes -> Option<RawDocument>, catalog: Bytes -> Option<RawCatalog>,
                         sha: Bytes -> Id, meta: Bytes -> Id)

  // ---- the catalog --------------------------------------------------------------------------

  predicate EntryValid(e: RawEntry) {
    e.RawEntry? && e.name.Some? && !IsBlank(e.name.value) && e.count.Some? && e.count.value >= 1
  }

  predicate EntriesValid(moves: seq<RawEntry>) {
    forall k :: 0 <= k < |moves| ==> EntryValid(moves[k])
  }

  predicate NamesDistinct(moves: seq<RawEntry>)
    requires EntriesValid(moves)
  {
    forall i, j :: 0 <= i < j < |moves| ==> moves[i].name != moves[j].name
  }

  predicate CountsOf(moves: seq<RawEntry>, counts: map<string, int>)
    requires EntriesValid(moves)
  {
    && (forall k :: 0 <= k < |moves| ==>
          moves[k].name.value in counts && counts[moves[k].name.value] == moves[k].count.value)
    && (forall name :: name in counts ==> exists k :: 0 <= k < |moves| && moves[k].name.value == name)
  }

  /** _decode_catalog */
  method DecodeCatalog(catalog: RawCatalog) returns (counts: Option<map<string, int>>)
    ensures counts.Some? <==>
              && catalog.schemaVersion == CATALOG_SCHEMA && catalog.moves.Some?
              && EntriesValid(catalog.moves.value) && NamesDistinct(catalog.moves.value)
    ensures counts.Some? ==> CountsOf(catalog.moves.value, counts.value)
  {
    if catalog.schemaVersion != CATALOG_SCHEMA || catalog.moves.None? {
      return None;
    }
    hide IsBlank;
    var moves, found := catalog.moves.value, map[];
    for k := 0 to |moves|
      invariant EntriesValid(moves[..k]) && NamesDistinct(moves[..k]) && CountsOf(moves[..k], found)
    {
      var entry := moves[k];
      assert moves[..k + 1] == moves[..k] + [entry];
      if !EntryValid(entry) {
        return None;
      }
      if entry.name.value in found {
        ghost var i :| 0 <= i < k && moves[..k][i].name.value == entry.name.value;
        assert moves[i].name == moves[k].name;
        return None;
      }
      found := found[entry.name.value := entry.count.value];
    }
    assert moves[..|moves|] == moves;
    counts := Some(found);
  }

  // ---- the counts a snapshot implies --------------------------------------------------------

  function MoveNames(r: SpeciesRecord): set<string> {
    if Moves in r.ranked then set k | 0 <= k < |r.ranked[Moves]| :: r.ranked[Moves][k].name else {}
  }

  /** The species among `ids` that know a move. */
  function Carriers(species: Species, ids: set<string>, move: string): set<string>
    requires ids <= species.Keys
  {
    set id | id in ids && move in MoveNames(species[id])
  }

  predicate Tallied(species: Species, ids: set<string>, counts: map<string, int>)
    requires ids <= species.Keys
  {
    && (forall move :: move in counts ==> counts[move] == |Carriers(species, ids, move)| && counts[move] >= 1)
    && (forall id, move :: id in ids && move in MoveNames(species[id]) ==> move in counts)
  }

  /** Some of one more species' moves are counted, the others not yet. */
  predicate PartlyTallied(species: Species, ids: set<string>, id: string, todo: set<string>, counts: map<string, int>)
    requires ids <= species.Keys && id in species
  {
    && (forall move :: move in counts ==>
          && counts[move] >= 1
          && counts[move]
             == |Carriers(species, ids, move)| + if move in MoveNames(species[id]) && move !in todo then 1 else 0)
    && (forall other, move :: other in ids && move in MoveNames(species[other]) ==> move in counts)
    && (forall move :: move in MoveNames(species[id]) && move !in todo ==> move in counts)
  }

  lemma NoCarriers(species: Species, ids: set<string>, counts: map<string, int>, move: string)
    requires ids <= species.Keys && move !in counts
    requires forall other, m :: other in ids && m in MoveNames(species[other]) ==> m in counts
    ensures Carriers(species, ids, move) == {}
  {
  }

  lemma OneMoreCarrier(species: Species, ids: set<string>, id: string, move: string)
    requires ids <= species.Keys && id in species && id !in ids
    ensures |Carriers(species, ids + {id}, move)|
         == |Carriers(species, ids, move)| + if move in MoveNames(species[id]) then 1 else 0
  {
    var before := Carriers(species, ids, move);
    assert Carriers(species, ids + {id}, move) == if move in MoveNames(species[id]) then before + {id} else before;
  }

  lemma SpeciesTallied(species: Species, ids: set<string>, id: string, counts: map<string, int>)
    requires ids <= species.Keys && id in species && id !in ids
    requires PartlyTallied(species, ids, id, {}, counts)
    ensures Tallied(species, ids + {id}, counts)
  {
    forall move | move in counts ensures counts[move] == |Carriers(species, ids + {id}, move)| && counts[move] >= 1 {
      OneMoreCarrier(species, ids, id, move);
    }
  }

  /** _expected_catalog_counts: for each move, how many species list it, a species listing it twice counting once. */
  method ExpectedCounts(species: Species) returns (counts: map<string, int>)
    ensures Tallied(species, species.Keys, counts)
  {
    counts := map[];
    var left := species.Keys;
    while left != {}
      invariant left <= species.Keys && Tallied(species, species.Keys - left, counts)
      decreases left
    {
      var id :| id in left;
      ghost var ids := species.Keys - left;
      var todo := MoveNames(species[id]);
      assert PartlyTallied(species, ids, id, todo, counts);
      while todo != {}
        invariant todo <= MoveNames(species[id]) && PartlyTallied(species, ids, id, todo, counts)
        decreases todo
      {
        var move :| move in todo;
        if move !in counts {
          NoCarriers(species, ids, counts, move);
        }
        counts := counts[move := 1 + if move in counts then counts[move] else 0];
        todo := todo - {move};
      }
      SpeciesTallied(species, ids, id, counts);
      left := left - {id};
      assert species.Keys - left == ids + {id};
    }
    assert species.Keys - {} == species.Keys;
  }

  // ---- validating a pair --------------------------------------------------------------------

  predicate Decodes(raw: RawDocument) {
    forall id :: id in raw.species ==> EntryDecodes(raw.species, id)
  }

  function DecodedSpecies(raw: RawDocument): Species
    requires Decodes(raw)
  {
    map id | id in raw.species :: DecodeRecord(raw.species[id]).value
  }

  /** The catalog lists exactly the moves the species know, each with the number of species that know it. */
  predicate CatalogFits(species: Species, moves: seq<RawEntry>)
  {
    && EntriesValid(moves) && NamesDistinct(moves)
    && (forall k :: 0 <= k < |moves| ==> |Carriers(species, species.Keys, moves[k].name.value)| == moves[k].count.value)
    && (forall id, move :: id in species && move in MoveNames(species[id]) ==>
          exists k :: 0 <= k < |moves| && moves[k].name.value == move)
  }

  predicate Trusted(codec: Codec, snapshot: Bytes, catalog: Bytes) {
    var raw, listed := codec.snapshot(snapshot), codec.catalog(catalog);
    && raw.Some? && Decodes(raw.value) && raw.value.schemaVersion == SNAPSHOT_SCHEMA
    && listed.Some? && listed.value.schemaVersion == CATALOG_SCHEMA && listed.value.moves.Some?
    && CatalogFits(DecodedSpecies(raw.value), listed.value.moves.value)
  }

  function Decoded(codec: Codec, snapshot: Bytes): SnapshotDocument
    requires codec.snapshot(snapshot).Some? && Decodes(codec.snapshot(snapshot).value)
  {
    var raw := codec.snapshot(snapshot).value;
    SnapshotDocument(raw.schemaVersion, raw.source, raw.season, raw.format, raw.fetchedAt, DecodedSpecies(raw))
  }

  lemma SameCountsIff(species: Species, moves: seq<RawEntry>, listed: map<string, int>, expected: map<string, int>)
    requires EntriesValid(moves) && NamesDistinct(moves)
    requires CountsOf(moves, listed) && Tallied(species, species.Keys, expected)
    ensures listed == expected <==> CatalogFits(species, moves)
  {
    if CatalogFits(species, moves) {
      forall name | name in listed ensures name in expected && expected[name] == listed[name] {
        var k :| 0 <= k < |moves| && moves[k].name.value == name;
        var carriers := Carriers(species, species.Keys, name);
        assert |carriers| >= 1;
        var id :| id in carriers;
      }
      forall name | name in expected ensures name in listed {
        var carriers := Carriers(species, species.Keys, name);
        assert |carriers| >= 1;
        var id :| id in carriers;
      }
    } else if listed == expected {
      forall id, move | id in species && move in MoveNames(species[id])
        ensures exists k :: 0 <= k < |moves| && moves[k].name.value == move
      {
        assert move in listed;
      }
    }
  }

  /** _validated_bundle: a pair is served exactly when snapshot and catalog decode and tell the same moves. */
  method ValidatedBundle(codec: Codec, snapshot: Bytes, catalog: Bytes) returns (document: Option<SnapshotDocument>)
    ensures document.Some? <==> Trusted(codec, snapshot, catalog)
    ensures document.Some? ==> document.value == Decoded(codec, snapshot) && DocumentOk(document.value.species)
  {
    hide RecordSays, RecordOk, DecodeRecord, NormalizeKey;
    var raw, listed := codec.snapshot(snapshot), codec.catalog(catalog);
    if raw.None? {
      return None;
    }
    var decoded := DecodeDocument(raw.value);
    if decoded.Failure? || decoded.value.schemaVersion != SNAPSHOT_SCHEMA || listed.None? {
      return None;
    }
    assert decoded.value.species == DecodedSpecies(raw.value);
    var counts := DecodeCatalog(listed.value);
    if counts.None? {
      return None;
    }
    var expected := ExpectedCounts(decoded.value.species);
    SameCountsIff(decoded.value.species, listed.value.moves.value, counts.value, expected);
    document := if counts.value == expected then Some(decoded.value) else None;
  }

  /** The record lists the move under "moves". */
  predicate Knows(r: SpeciesRecord, move: string) {
    Moves in r.ranked && exists k :: 0 <= k < |r.ranked[Moves]| && r.ranked[Moves][k].name == move
  }

  function KnowerIds(species: Species, move: string): set<string> {
    set id | id in species && Knows(species[id], move)
  }

  /** Each catalog entry names a move once, with the number of species that list it, and no listed move is missing. */
  ghost predicate TellsSame(species: Species, moves: seq<RawEntry>) {
    && (forall k :: 0 <= k < |moves| ==>
          && moves[k].RawEntry? && moves[k].name.Some? && moves[k].count.Some? && !IsBlank(moves[k].name.value)
          && moves[k].count.value == |KnowerIds(species, moves[k].name.value)| >= 1)
    && (forall i, j :: 0 <= i < j < |moves| ==> moves[i].name != moves[j].name)
    && (forall id, move :: id in species && Knows(species[id], move) ==> Listed(moves, move))
  }

  predicate Listed(moves: seq<RawEntry>, move: string) {
    exists k :: 0 <= k < |moves| && moves[k].RawEntry? && moves[k].name == Some(move)
  }

  lemma KnowsIff(r: SpeciesRecord, move: string)
    ensures Knows(r, move) <==> move in MoveNames(r)
  {
  }

  lemma KnowersAreCarriers(species: Species, move: string)
    ensures Carriers(species, species.Keys, move) == KnowerIds(species, move)
  {
  }

  lemma FittingTells(species: Species, moves: seq<RawEntry>)
    requires CatalogFits(species, moves)
    ensures TellsSame(species, moves)
  {
    hide Carriers, KnowerIds, Knows, MoveNames, IsBlank;
    forall k | 0 <= k < |moves|
      ensures moves[k].RawEntry? && moves[k].name.Some? && moves[k].count.Some? && !IsBlank(moves[k].name.value)
      ensures moves[k].count.value == |KnowerIds(species, moves[k].name.value)| >= 1
    {
      assert EntryValid(moves[k]);
      KnowersAreCarriers(species, moves[k].name.value);
    }
    forall id, move | id in species && Knows(species[id], move) ensures Listed(moves, move) {
      KnowsIff(species[id], move);
      assert id in species && move in MoveNames(species[id]);
      var k :| 0 <= k < |moves| && moves[k].name.value == move;
      assert EntryValid(moves[k]) && moves[k].name == Some(move);
    }
  }

  lemma TellingFits(species: Species, moves: seq<RawEntry>)
    requires TellsSame(species, moves)
    ensures CatalogFits(species, moves)
  {
    hide Carriers, KnowerIds, Knows, MoveNames, IsBlank;
    forall k | 0 <= k < |moves|
      ensures |Carriers(species, species.Keys, moves[k].name.value)| == moves[k].count.value
    {
      KnowersAreCarriers(species, moves[k].name.value);
    }
    forall id, move | id in species && move in MoveNames(species[id])
      ensures exists k :: 0 <= k < |moves| && moves[k].name.value == move
    {
      KnowsIff(species[id], move);
      assert Listed(moves, move);
      var k :| 0 <= k < |moves| && moves[k].RawEntry? && moves[k].name == Some(move);
      assert moves[k].name.value == move;
    }
  }

  /** What the counts check accepts, said of the records' move lists and the catalog's entries alone. */
  lemma CatalogFitsIff(species: Species, moves: seq<RawEntry>)
    ensures CatalogFits(species, moves) <==> TellsSame(species, moves)
  {
    hide CatalogFits, TellsSame;
    if CatalogFits(species, moves) {
      FittingTells(species, moves);
    }
    if TellsSame(species, moves) {
      TellingFits(species, moves);
    }
  }

  /** A pair is served exactly when both files are of the known schemas, every record decodes and the counts agree. */
  lemma TrustedIff(codec: Codec, snapshot: Bytes, catalog: Bytes)
    ensures Trusted(codec, snapshot, catalog) <==>
              && codec.snapshot(snapshot).Some? && codec.catalog(catalog).Some?
              && codec.snapshot(snapshot).value.schemaVersion == "opponent-intel-snapshot.v1"
              && codec.catalog(catalog).value.schemaVersion == "opponent-intel-move-catalog.v1"
              && codec.catalog(catalog).value.moves.Some? && Decodes(codec.snapshot(snapshot).value)
              && TellsSame(DecodedSpecies(codec.snapshot(snapshot).value), codec.catalog(catalog).value.moves.value)
  {
    hide CatalogFits, TellsSame, DecodedSpecies, Decodes;
    if codec.snapshot(snapshot).Some? && codec.catalog(catalog).Some? && codec.catalog(catalog).value.moves.Some?
       && Decodes(codec.snapshot(snapshot).value)
    {
      CatalogFitsIff(DecodedSpecies(codec.snapshot(snapshot).value), codec.catalog(catalog).value.moves.value);
    }
  }

  // ---- pinning ------------------------------------------------------------------------------

  /** materialized_generation_id: the digest of the two files with a zero byte between them. */
  function PairId(codec: Codec, snapshot: Bytes, catalog: Bytes): Id {
    codec.sha(snapshot + [0] + catalog)
  }

  ghost predicate Injective(sha: Bytes -> Id) {
    forall a, b :: sha(a) == sha(b) ==> a == b
  }

  lemma ZeroComesNoSooner(s: Bytes, c: Bytes, s': Bytes, c': Bytes)
    requires s + [0] + c == s' + [0] + c' && 0 !in s'
    ensures |s| >= |s'|
  {
    var all := s + [0] + c;
    assert forall k :: 0 <= k < |s'| ==> all[k] == s'[k];
    assert all[|s|] == 0;
  }

  /** JSON text holds no zero byte, so one id never stands for two different pairs. */
  lemma PairIdsAreExact(codec: Codec, s: Bytes, c: Bytes, s': Bytes, c': Bytes)
    requires Injective(codec.sha) && 0 !in s && 0 !in s'
    ensures PairId(codec, s, c) == PairId(codec, s', c') <==> s == s' && c == c'
  {
    if PairId(codec, s, c) == PairId(codec, s', c') {
      var a, b := s + [0] + c, s' + [0] + c';
      assert a == b;
      ZeroComesNoSooner(s, c, s', c');
      ZeroComesNoSooner(s', c', s, c);
      assert a[..|s|] == s && b[..|s|] == s' && a[|s| + 1..] == c && b[|s| + 1..] == c';
    }
  }

  /** Named after its own contents, as every archived generation is. */
  predicate ContentNamed(codec: Codec, m: Manifest) {
    m.id == PairId(codec, m.snapshot, m.catalog) && 0 !in m.snapshot
  }

  lemma SameNameSamePair(codec: Codec, a: Manifest, b: Manifest)
    requires Injective(codec.sha) && ContentNamed(codec, a) && ContentNamed(codec, b) && a.id == b.id
    ensures a.snapshot == b.snapshot && a.catalog == b.catalog
  {
    PairIdsAreExact(codec, a.snapshot, a.catalog, b.snapshot, b.catalog);
  }

  predicate Holds(generations: map<Id, Folder>, codec: Codec, pin: Records.IntelPin)
    requires pin.Pinned?
  {
    var read := ReadGeneration(generations, pin.generation);
    read.Success? && codec.sha(read.value.snapshot) == pin.snapshotHash
  }

  /**
   Archiving under an id succeeds if the pair is there already; else if another process put this snapshot there in
   time; else if the call completes.
   */
  predicate Archives(generations: map<Id, Folder>, id: Id, snapshot: Bytes, catalog: Bytes, fate: Fate,
                     rival: Option<Manifest>)
  {
    if id in generations then
      var read := ReadGeneration(generations, id);
      read.Success? && read.value.snapshot == snapshot && read.value.catalog == catalog
    else if rival.Some? && rival.value.id == id then !fate.Dies? && rival.value.snapshot == snapshot
    else fate == Completes
  }

  /**
   resolve_pinnable_generation, and the pin a new match takes from it (application/service.py:184-210): the published
   generation as it is; without one, the flat pair, archived under its content id once it validates; else none.
   `rival` is what another process archives meanwhile: with ids named after contents it can only be the same pair.
   */
  method ResolveNewMatchPin(codec: Codec, directory: IntelDirectory, flatSnapshot: Option<Bytes>,
                            flatCatalog: Option<Bytes>, token: Id, fate: Fate, rival: Option<Manifest>)
      returns (pin: Records.IntelPin)
    requires token !in directory.staging
    modifies directory
    ensures directory.pointer == old(directory.pointer)
    ensures forall id :: id in old(directory.generations) ==>
                           id in directory.generations && directory.generations[id] == old(directory.generations)[id]
    ensures old(directory.pointer).Some? ==>
              && directory.Contents() == old(directory.Contents())
              && pin == if ReadCurrent(directory.Contents()).Success?
                        then Records.Pinned(directory.pointer.value.id, codec.sha(directory.pointer.value.snapshot))
                        else Records.PinUnavailable
    ensures directory.pointer.None? && pin.Pinned? ==>
              && flatSnapshot.Some? && flatCatalog.Some? && Trusted(codec, flatSnapshot.value, flatCatalog.value)
              && pin == Records.Pinned(PairId(codec, flatSnapshot.value, flatCatalog.value),
                                       codec.sha(flatSnapshot.value))
              && Holds(directory.generations, codec, pin)
    ensures old(directory.pointer).None? ==>
              (pin.Pinned? <==>
                 && flatSnapshot.Some? && flatCatalog.Some? && Trusted(codec, flatSnapshot.value, flatCatalog.value)
                 && Archives(old(directory.generations), PairId(codec, flatSnapshot.value, flatCatalog.value),
                             flatSnapshot.value, flatCatalog.value, fate, rival))
    ensures directory.pointer.None? && pin.Pinned? && Injective(codec.sha) && 0 !in flatSnapshot.value
            && (rival.Some? ==> ContentNamed(codec, rival.value)) ==>
              var read := ReadGeneration(directory.generations, pin.generation);
              read.Success? && read.value.snapshot == flatSnapshot.value && read.value.catalog == flatCatalog.value
  {
    if directory.pointer.Some? {
      var active := ReadCurrent(directory.Contents());
      return if active.Success? then Records.Pinned(active.value.value.id, codec.sha(active.value.value.snapshot))
        else Records.PinUnavailable;
    }
    if flatSnapshot.None? || flatCatalog.None? {
      return Records.PinUnavailable;
    }
    var snapshot, catalog := flatSnapshot.value, flatCatalog.value;
    var document := ValidatedBundle(codec, snapshot, catalog);
    if document.None? {
      return Records.PinUnavailable;
    }
    var m := Manifest(PairId(codec, snapshot, catalog), snapshot, catalog, codec.meta(snapshot));
    var sameId := if rival.Some? && rival.value.id == m.id then rival else None;
    if Injective(codec.sha) && 0 !in snapshot && sameId.Some? && ContentNamed(codec, sameId.value) {
      SameNameSamePair(codec, sameId.value, m);
    }
    var archived := directory.MaterializeGeneration(m, token, fate, sameId);
    pin := if archived.Success? then Records.Pinned(archived.value.id, codec.sha(archived.value.snapshot))
      else Records.PinUnavailable;
  }

  // ---- archivings that race -----------------------------------------------------------------

  /** An id the content digest never gives: a commit's uuid, which lacks the archive's prefix. */
  ghost predicate NoContentName(codec: Codec, id: Id) {
    forall s, c :: id != PairId(codec, s, c)
  }

  ghost predicate ActNames(codec: Codec, act: Act) {
    && (act.BeginMaterialize? ==> ContentNamed(codec, act.m))
    && (act.BeginCommit? ==> NoContentName(codec, act.m.id))
  }

  ghost predicate ManifestNamed(codec: Codec, m: Manifest) {
    ContentNamed(codec, m) || NoContentName(codec, m.id)
  }

  ghost predicate WriterNamed(codec: Codec, writer: Writer) {
    if writer.Commit? then NoContentName(codec, writer.m.id) else ContentNamed(codec, writer.m)
  }

  ghost predicate NamesOk(codec: Codec, s: System) {
    && (forall id :: id in s.disk.generations && s.disk.generations[id].manifest.Some? ==>
          ManifestNamed(codec, s.disk.generations[id].manifest.value))
    && (forall w :: w in s.writers ==> WriterNamed(codec, s.writers[w]))
    && (forall w :: w in s.archived ==> ContentNamed(codec, s.archived[w].m))
  }

  lemma WrittenName(m: Manifest, stage: Stage)
    ensures FolderAt(m, stage).manifest.Some? ==> FolderAt(m, stage).manifest.value == m
  {
  }

  lemma WriteKeepsNames(codec: Codec, s: System, w: Id)
    requires NamesOk(codec, s) && w in s.writers
    ensures NamesOk(codec, Step(s, Write(w)))
  {
    hide NoContentName, ContentNamed, LostRace, FolderAt, Next;
    var writer := s.writers[w];
    assert WriterNamed(codec, writer);
    WrittenName(writer.m, Next(writer.stage));
    WrittenName(writer.m, WroteManifest);
  }

  lemma FailKeepsNames(codec: Codec, s: System, w: Id)
    requires NamesOk(codec, s) && w in s.writers
    ensures NamesOk(codec, Step(s, Act.Fail(w)))
  {
    hide NoContentName, ContentNamed, LostRace;
    assert WriterNamed(codec, s.writers[w]);
  }

  lemma StepKeepsNames(codec: Codec, s: System, act: Act)
    requires NamesOk(codec, s) && ActNames(codec, act)
    ensures NamesOk(codec, Step(s, act))
  {
    hide NoContentName, ContentNamed, Existing, Resume, FreshId, FreshToken, WriteCommit, WriteMaterialize, CleanUp;
    match act {
      case Write(w) =>
        if w in s.writers {
          WriteKeepsNames(codec, s, w);
        }
      case Fail(w) =>
        if w in s.writers {
          FailKeepsNames(codec, s, w);
        }
      case _ =>
    }
  }

  lemma {:induction false} RunKeepsNames(codec: Codec, s: System, acts: seq<Act>)
    requires NamesOk(codec, s) && forall k :: 0 <= k < |acts| ==> ActNames(codec, acts[k])
    ensures NamesOk(codec, Run(s, acts))
    decreases |acts|
  {
    hide NamesOk, Step, ActNames;
    if acts != [] {
      StepKeepsNames(codec, s, acts[0]);
      RunKeepsNames(codec, Step(s, acts[0]), acts[1..]);
    }
  }

  /**
   With ids named after contents, every archiving that reports success, the loser of a race included, leaves exactly
   its own pair readable under its id, for good.
   */
  lemma ArchivedExactly(codec: Codec, acts: seq<Act>, s: System, later: seq<Act>, w: Id)
    requires Injective(codec.sha) && forall k :: 0 <= k < |acts| ==> ActNames(codec, acts[k])
    requires s == Run(EMPTY_SYSTEM, acts) && w in s.archived && s.archived[w].result.Success?
    ensures var m, read := s.archived[w].m, ReadGeneration(Run(s, later).disk.generations, s.archived[w].m.id);
            read.Success? && read.value.snapshot == m.snapshot && read.value.catalog == m.catalog
  {
    hide Run, PairId, NoContentName, ActNames;
    ArchivedReadsBack(acts, s, later, w);
    ArchivedReadsBack(acts, s, [], w);
    NothingRuns(s);
    RunKeepsNames(codec, EMPTY_SYSTEM, acts);
    var a := s.archived[w];
    var there := a.result.value;
    assert ManifestNamed(codec, there);
    if NoContentName(codec, there.id) {
      NotBoth(codec, a.m);
    }
    SameNameSamePair(codec, there, a.m);
  }

  lemma NotBoth(codec: Codec, m: Manifest)
    requires ContentNamed(codec, m)
    ensures !NoContentName(codec, m.id)
  {
  }

  // ---- loading ------------------------------------------------------------------------------

  function Loaded(codec: Codec, generations: map<Id, Folder>, id: Id): Option<Archived> {
    var read := ReadGeneration(generations, id);
    if read.Success? && Trusted(codec, read.value.snapshot, read.value.catalog)
    then Some(Archived(Decoded(codec, read.value.snapshot), id, codec.sha(read.value.snapshot)))
    else None
  }

  /** load_pinned_generation */
  method LoadPinnedGeneration(codec: Codec, directory: IntelDirectory, id: Id) returns (r: Option<Archived>)
    ensures r == Loaded(codec, directory.generations, id)
    ensures var read := ReadGeneration(directory.generations, id);
            && (r.Some? <==> read.Success? && Trusted(codec, read.value.snapshot, read.value.catalog))
            && (r.Some? ==> r.value.generation == id && r.value.hash == codec.sha(read.value.snapshot))
    ensures r.Some? ==> DocumentOk(r.value.document.species)
  {
    var read := ReadGeneration(directory.generations, id);
    if read.Failure? {
      return None;
    }
    var document := ValidatedBundle(codec, read.value.snapshot, read.value.catalog);
    r := if document.Some? then Some(Archived(document.value, id, codec.sha(read.value.snapshot))) else None;
  }

  lemma LoadedIsSound(codec: Codec, generations: map<Id, Folder>, id: Id)
    ensures Loaded(codec, generations, id).Some? ==> DocumentOk(Loaded(codec, generations, id).value.document.species)
  {
    hide RecordOk, DecodeRecord, NormalizeKey, CatalogFits;
    if Loaded(codec, generations, id).Some? {
      var raw := codec.snapshot(ReadGeneration(generations, id).value.snapshot).value;
      var species := DecodedSpecies(raw);
      forall key | key in species
        ensures RecordOk(species[key]) && NormalizeKey(key) == NormalizeKey(species[key].speciesId)
      {
        assert EntryDecodes(raw.species, key);
        DecodedRecordIsOk(raw.species[key]);
      }
    }
  }

  /** A resolved rules snapshot: its season and battle format, the two halves of the compatibility check. */
  datatype Rules = Rules(season: string, format: string)

  /** load_opponent_intel_context: the match's own pin decides; the current pointer is never looked at. */
  ghost function LoadContext(codec: Codec, generations: map<Id, Folder>, pin: Records.IntelPin, confirmed: Option<string>,
                             rules: Rules): Result<Json, ContextError>
  {
    LoadedIsSound(codec, generations, if pin.Pinned? then pin.generation else 0);
    var archived := if pin.Pinned? then Loaded(codec, generations, pin.generation) else None;
    BuildContext(confirmed, pin, archived, rules.season, rules.format)
  }

  predicate Readable(generations: map<Id, Folder>, pin: Records.IntelPin) {
    pin.Pinned? ==> ReadGeneration(generations, pin.generation).Success?
  }

  /** Whatever is built loads, and whatever loads passes the request boundary's validator. */
  lemma LoadedContextPasses(codec: Codec, generations: map<Id, Folder>, pin: Records.IntelPin, confirmed: Option<string>,
                            rules: Rules)
    ensures LoadContext(codec, generations, pin, confirmed, rules).Success? ==>
              ValidateContext(LoadContext(codec, generations, pin, confirmed, rules).value).Pass?
  {
    hide BuildContext, ValidateContext, Loaded, DocumentOk;
    LoadedIsSound(codec, generations, if pin.Pinned? then pin.generation else 0);
    var archived := if pin.Pinned? then Loaded(codec, generations, pin.generation) else None;
    if BuildContext(confirmed, pin, archived, rules.season, rules.format).Success? {
      BuiltContextPasses(confirmed, pin, archived, rules.season, rules.format);
    }
  }

  /**
   A held pin whose pair validates gives a context: no soft or hard failure is left but the builder's own
   verdicts.
   */
  lemma HeldPinLoadsIff(codec: Codec, generations: map<Id, Folder>, pin: Records.IntelPin, confirmed: Option<string>,
                        rules: Rules)
    requires pin.Pinned? && Holds(generations, codec, pin)
    ensures LoadContext(codec, generations, pin, confirmed, rules).Success? <==>
              var m := ReadGeneration(generations, pin.generation).value; Trusted(codec, m.snapshot, m.catalog)
  {
    hide BuildContext, Trusted, DocumentOk;
    LoadedIsSound(codec, generations, pin.generation);
    BuilderFailsIff(confirmed, pin, Loaded(codec, generations, pin.generation), rules.season, rules.format);
  }

  /** One commit, run to its end. */
  function Published(m: Manifest): System {
    Run(EMPTY_SYSTEM, [BeginCommit(0, m), Write(0), Write(0), Write(0), Write(0)])
  }

  /** The system while that commit is under way. */
  function Committing(m: Manifest, stage: Stage): System {
    System(Disk(map[m.id := FolderAt(m, stage)], map[], None), map[0 := Commit(m, stage)], map[], {}, map[])
  }

  lemma CommitPublishes(m: Manifest)
    ensures Published(m).disk.pointer == Some(m) && ReadGeneration(Published(m).disk.generations, m.id) == Success(m)
  {
    hide Run, Step, Committing;
    var w := Write(0);
    RunOn(EMPTY_SYSTEM, BeginCommit(0, m), [w, w, w, w]);
    RunOn(Committing(m, MadeFolder), w, [w, w, w]);
    RunOn(Committing(m, WroteSnapshot), w, [w, w]);
    RunOn(Committing(m, WroteCatalog), w, [w]);
    RunOn(Committing(m, WroteManifest), w, []);
    CommitStages(m);
    assert [BeginCommit(0, m)] + [w, w, w, w] == [BeginCommit(0, m), w, w, w, w];
    assert [w] + [w, w, w] == [w, w, w, w] && [w] + [w, w] == [w, w, w] && [w] + [w] == [w, w] && [w] + [] == [w];
    NothingRuns(Step(Committing(m, WroteManifest), w));
  }

  lemma CommitStages(m: Manifest)
    ensures Step(EMPTY_SYSTEM, BeginCommit(0, m)) == Committing(m, MadeFolder)
    ensures Step(Committing(m, MadeFolder), Write(0)) == Committing(m, WroteSnapshot)
    ensures Step(Committing(m, WroteSnapshot), Write(0)) == Committing(m, WroteCatalog)
    ensures Step(Committing(m, WroteCatalog), Write(0)) == Committing(m, WroteManifest)
    ensures Step(Committing(m, WroteManifest), Write(0)).disk == Disk(map[m.id := FolderAt(m, WroteManifest)], map[], Some(m))
  {
  }

  /** A committed generation whose snapshot is no JSON: it is current, readable and pinned, and gives no context. */
  lemma PinnedButUnloadable(codec: Codec, m: Manifest, confirmed: Option<string>, rules: Rules)
    requires codec.snapshot(m.snapshot) == None
    ensures ReadCurrent(Published(m).disk) == Success(Some(m))
    ensures var pin := Records.Pinned(m.id, codec.sha(m.snapshot));
            && Holds(Published(m).disk.generations, codec, pin)
            && LoadContext(codec, Published(m).disk.generations, pin, confirmed, rules) == Failure(GenerationNotResolved)
  {
    hide Published, Run;
    CommitPublishes(m);
  }

  /**
   A match's intel never drifts. Once its pinned generation is readable, then after any commands on the repository
   and any commits, archivings, pointer flips and crashes in the intel directory, the same confirmed species gives
   the same context.
   */
  lemma ContextNeverDrifts(codec: Codec, s: Store.Store, commands: seq<Commands.Command>, i: nat,
                           acts: seq<Act>, d: System, later: seq<Act>, confirmed: Option<string>,
                           rules: Records.RulesPin -> Rules)
    requires Guarantees.Reachable(s) && i < |s.sessions|
    requires d == Run(EMPTY_SYSTEM, acts) && Readable(d.disk.generations, s.sessions[i].intelPin)
    ensures i < |Commands.Run(s, commands).sessions|
    ensures var before, after := s.sessions[i], Commands.Run(s, commands).sessions[i];
            (LoadContext(codec, Run(d, later).disk.generations, after.intelPin, confirmed, rules(after.rulesPin))
             == LoadContext(codec, d.disk.generations, before.intelPin, confirmed, rules(before.rulesPin)))
  {
    hide Guarantees.Reachable, Commands.Run, Run, BuildContext, Trusted, ReadGeneration, SystemOk;
    Guarantees.PinsNeverMove(s, commands, i);
    var pin := s.sessions[i].intelPin;
    ReachableSystem(acts);
    if pin.Pinned? {
      PinnedReadsNeverChange(d, later, pin.generation);
    }
  }
}
