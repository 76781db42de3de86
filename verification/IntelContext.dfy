/**
 The population intel a rich request embeds (domain/opponent_intel_context.py) and the strict decoding of the
 snapshot it is built from (opponent_intel_db/normalize.py, snapshot_store.py).

 Contexts and records are JSON values; object keys are atoms rather than spelled strings. Generated ids and hashes
 are atoms too, and never empty.
 */
module IntelContext {
  import opened Basics
  import opened Text
  import Records

  datatype Category = Moves | Abilities | Items | Natures | Partners

  datatype Key = VersionKey | StatusKey | ReasonKey | AuthorityKey | ConfirmedKey | ResolvedKey | CompatibilityKey
    | SnapshotKey | PopulationKey | SpeciesIdKey | DisplayNameKey | NameKey | PercentageKey | GenerationIdKey
    | SnapshotHashKey | SchemaVersionKey | SourceKey | SourceUrlKey | SeasonKey | FormatKey | FetchedAtKey
    | UpdatedAtKey | RankingKey | SpreadsKey | CategoryKey(category: Category) | OtherKey(name: string)

  datatype Json = Null | Flag(bit: bool) | Num(number: real) | NotFinite | Str(text: string) | Ref(id: Id)
    | List(items: seq<Json>) | Obj(fields: map<Key, Json>)

  // ---- species names ------------------------------------------------------------------------

  /** normalize_species_key */
  function NormalizeKey(s: string): string {
    Hyphenate(Lower(Strip(s)))
  }

  predicate Trimmed(s: string) {
    s == "" || (!IsSpace(s[0]) && !IsSpace(s[|s| - 1]))
  }

  lemma NormalizedIsTrimmed(s: string)
    ensures Trimmed(NormalizeKey(s)) && Lower(NormalizeKey(s)) == NormalizeKey(s)
    ensures Hyphenate(NormalizeKey(s)) == NormalizeKey(s)
    ensures NormalizeKey(s) == "" <==> IsBlank(s)
  {
  }

  /** The equivalence the codec and the context builder share is a proper canonical form. */
  lemma NormalizeTwice(s: string)
    ensures NormalizeKey(NormalizeKey(s)) == NormalizeKey(s) && NormalizeKey(Strip(s)) == NormalizeKey(s)
  {
    NormalizedIsTrimmed(s);
    StripFixed(NormalizeKey(s));
    StripFixed(Strip(s));
  }

  lemma FoldedSpace(c: char)
    ensures IsSpace(LowerChar(c)) <==> IsSpace(c)
  {
  }

  /** Case folding neither adds nor removes outer white space. */
  lemma {:induction false} StripOfLower(s: string)
    ensures Strip(Lower(s)) == Lower(Strip(s))
    decreases |s|
  {
    hide IsSpace, LowerChar;
    if s != "" {
      FoldedSpace(s[0]);
      FoldedSpace(s[|s| - 1]);
      if IsSpace(s[0]) {
        StripOfLower(s[1..]);
        assert Lower(s)[1..] == Lower(s[1..]);
      } else if IsSpace(s[|s| - 1]) {
        StripOfLower(s[..|s| - 1]);
        assert Lower(s)[..|s| - 1] == Lower(s[..|s| - 1]);
      }
    }
  }

  /** A key whose lower-case form is already canonical text is its own normal form. */
  lemma LowerIsNormal(id: string, key: string)
    requires Lower(id) == NormalizeKey(key)
    ensures NormalizeKey(id) == NormalizeKey(key)
  {
    NormalizedIsTrimmed(key);
    StripOfLower(id);
    StripFixed(NormalizeKey(key));
  }

  // ---- decoding a snapshot ------------------------------------------------------------------

  datatype RankedEntry = RankedEntry(name: string, percentage: Option<real>)

  datatype SpeciesRecord = SpeciesRecord(
    speciesId: string, displayName: string, season: string, format: string, source: string, sourceUrl: string,
    sourceUpdatedAt: Option<string>, fetchedAt: string, ranking: Json, ranked: map<Category, seq<RankedEntry>>,
    spreads: seq<Json>)

  datatype DecodeError = NotObject | MissingString | BadUpdatedAt | BadRanking | NotList | BadName | BadPercentage
    | BadSpread | KeyMismatch

  function Get(j: Json, key: Key): Json
    requires j.Obj?
  {
    if key in j.fields then j.fields[key] else Null
  }

  function RequiredText(j: Json, key: Key): Result<string, DecodeError>
    requires j.Obj?
  {
    if !Get(j, key).Str? || IsBlank(Get(j, key).text) then Failure(MissingString) else Success(Get(j, key).text)
  }

  /** _validate_percentage: JSON true and false are numbers to it. */
  function DecodePercentage(j: Json): Result<Option<real>, DecodeError> {
    match j
    case Null => Success(None)
    case Flag(bit) => Success(Some(if bit then 1.0 else 0.0))
    case Num(number) => if 0.0 <= number <= 100.0 then Success(Some(number)) else Failure(BadPercentage)
    case _ => Failure(BadPercentage)
  }

  function DecodeEntry(j: Json): Result<RankedEntry, DecodeError> {
    if !j.Obj? then Failure(NotObject)
    else if !Get(j, NameKey).Str? || IsBlank(Get(j, NameKey).text) then Failure(BadName)
    else
      var percentage :- DecodePercentage(Get(j, PercentageKey));
      Success(RankedEntry(Get(j, NameKey).text, percentage))
  }

  function DecodeEntries(items: seq<Json>): Result<seq<RankedEntry>, DecodeError> {
    if items == [] then Success([])
    else
      var init :- DecodeEntries(items[..|items| - 1]);
      var last :- DecodeEntry(items[|items| - 1]);
      Success(init + [last])
  }

  /** _ranked_entries_from_json: an absent category is an empty one, a null category is an error. */
  function DecodeCategory(j: Json, category: Category): Result<seq<RankedEntry>, DecodeError>
    requires j.Obj?
  {
    if CategoryKey(category) !in j.fields then Success([])
    else if !j.fields[CategoryKey(category)].List? then Failure(NotList)
    else DecodeEntries(j.fields[CategoryKey(category)].items)
  }

  function DecodeSpreads(j: Json): Result<seq<Json>, DecodeError>
    requires j.Obj?
  {
    if SpreadsKey !in j.fields then Success([])
    else if !j.fields[SpreadsKey].List? then Failure(NotList)
    else if exists k :: 0 <= k < |j.fields[SpreadsKey].items| && !j.fields[SpreadsKey].items[k].Obj?
      then Failure(BadSpread)
    else Success(j.fields[SpreadsKey].items)
  }

  /** float(ranking): a number or nothing, JSON true and false being numbers. */
  function DecodeRanking(j: Json): Result<Json, DecodeError> {
    match j
    case Flag(bit) => Success(Num(if bit then 1.0 else 0.0))
    case Null => Success(j)
    case Num(_) => Success(j)
    case NotFinite => Success(j)
    case _ => Failure(BadRanking)
  }

  /** SpeciesStatsRecord.from_json_dict */
  function DecodeRecord(j: Json): Result<SpeciesRecord, DecodeError> {
    if !j.Obj? then Failure(NotObject)
    else
      var speciesId :- RequiredText(j, SpeciesIdKey);
      var displayName :- RequiredText(j, DisplayNameKey);
      var season :- RequiredText(j, SeasonKey);
      var format :- RequiredText(j, FormatKey);
      var source :- RequiredText(j, SourceKey);
      var sourceUrl :- RequiredText(j, SourceUrlKey);
      var fetchedAt :- RequiredText(j, FetchedAtKey);
      var updated := Get(j, UpdatedAtKey);
      :- Need(updated.Null? || updated.Str?, BadUpdatedAt);
      var ranking :- DecodeRanking(Get(j, RankingKey));
      var moves :- DecodeCategory(j, Moves);
      var items :- DecodeCategory(j, Items);
      var abilities :- DecodeCategory(j, Abilities);
      var natures :- DecodeCategory(j, Natures);
      var partners :- DecodeCategory(j, Partners);
      var spreads :- DecodeSpreads(j);
      Success(SpeciesRecord(speciesId, displayName, season, format, source, sourceUrl,
                            if updated.Str? then Some(updated.text) else None, fetchedAt, ranking,
                            map[Moves := moves, Items := items, Abilities := abilities, Natures := natures,
                                Partners := partners],
                            spreads))
  }

  datatype SnapshotDocument = SnapshotDocument(schemaVersion: string, source: string, season: string, format: string,
                                               fetchedAt: string, species: map<string, SpeciesRecord>)

  datatype RawDocument = RawDocument(schemaVersion: string, source: string, season: string, format: string,
                                     fetchedAt: string, species: map<string, Json>)

  predicate EntryOk(e: RankedEntry) {
    !IsBlank(e.name) && (e.percentage.Some? ==> 0.0 <= e.percentage.value <= 100.0)
  }

  predicate RecordOk(r: SpeciesRecord) {
    && !IsBlank(r.speciesId) && !IsBlank(r.displayName)
    && (forall c: Category :: c in r.ranked)
    && (forall c: Category, k: nat :: c in r.ranked && k < |r.ranked[c]| ==> EntryOk(r.ranked[c][k]))
  }

  /** What the decoder promises of a document: sound records, each under a key that names its own species. */
  predicate DocumentOk(species: map<string, SpeciesRecord>) {
    forall id :: id in species ==> RecordOk(species[id]) && NormalizeKey(id) == NormalizeKey(species[id].speciesId)
  }

  // ---- what a decoded record says -----------------------------------------------------------

  predicate TextIs(j: Json, key: Key, text: string) {
    j.Obj? && key in j.fields && j.fields[key] == Str(text) && !IsBlank(text)
  }

  predicate NumberIs(j: Json, number: real) {
    j == Num(number) || (j == Flag(true) && number == 1.0) || (j == Flag(false) && number == 0.0)
  }

  predicate PercentageSays(j: Json, percentage: Option<real>) {
    match percentage
    case None => j == Null
    case Some(p) => NumberIs(j, p) && 0.0 <= p <= 100.0
  }

  /** The entry's name and percentage are what a list item holds at the keys of those names. */
  predicate EntrySays(j: Json, e: RankedEntry) {
    TextIs(j, NameKey, e.name) && PercentageSays(Get(j, PercentageKey), e.percentage)
  }

  predicate ListSays(items: seq<Json>, entries: seq<RankedEntry>) {
    |items| == |entries| && forall k :: 0 <= k < |items| ==> EntrySays(items[k], entries[k])
  }

  /** An absent key is an empty list. */
  predicate ListAt(j: Json, key: Key, entries: seq<RankedEntry>)
    requires j.Obj?
  {
    if key in j.fields then j.fields[key].List? && ListSays(j.fields[key].items, entries) else entries == []
  }

  predicate MaybeText(j: Json, held: Option<string>) {
    match held
    case None => j == Null
    case Some(text) => j == Str(text)
  }

  predicate RankingSays(j: Json, ranking: Json) {
    || (j == ranking && (j == Null || j == NotFinite))
    || (ranking.Num? && NumberIs(j, ranking.number))
  }

  predicate SpreadsSay(j: Json, spreads: seq<Json>)
    requires j.Obj?
  {
    if SpreadsKey in j.fields
    then j.fields[SpreadsKey] == List(spreads) && forall k :: 0 <= k < |spreads| ==> spreads[k].Obj?
    else spreads == []
  }

  /** Every field of the record is what the JSON object holds at that field's own key. */
  predicate RecordSays(j: Json, r: SpeciesRecord) {
    && j.Obj? && (forall c: Category :: c in r.ranked)
    && TextIs(j, SpeciesIdKey, r.speciesId) && TextIs(j, DisplayNameKey, r.displayName)
    && TextIs(j, SeasonKey, r.season) && TextIs(j, FormatKey, r.format) && TextIs(j, SourceKey, r.source)
    && TextIs(j, SourceUrlKey, r.sourceUrl) && TextIs(j, FetchedAtKey, r.fetchedAt)
    && MaybeText(Get(j, UpdatedAtKey), r.sourceUpdatedAt) && RankingSays(Get(j, RankingKey), r.ranking)
    && ListAt(j, CategoryKey(Moves), r.ranked[Moves]) && ListAt(j, CategoryKey(Abilities), r.ranked[Abilities])
    && ListAt(j, CategoryKey(Items), r.ranked[Items]) && ListAt(j, CategoryKey(Natures), r.ranked[Natures])
    && ListAt(j, CategoryKey(Partners), r.ranked[Partners]) && SpreadsSay(j, r.spreads)
  }

  lemma TextDecodesIff(j: Json, key: Key, text: string)
    requires j.Obj?
    ensures RequiredText(j, key) == Success(text) <==> TextIs(j, key, text)
  {
  }

  lemma EntryDecodesIff(j: Json, e: RankedEntry)
    ensures DecodeEntry(j) == Success(e) <==> EntrySays(j, e)
  {
    hide IsBlank;
  }

  lemma {:induction false} ListDecodesIff(items: seq<Json>, entries: seq<RankedEntry>)
    ensures DecodeEntries(items) == Success(entries) <==> ListSays(items, entries)
  {
    hide DecodeEntry, EntrySays;
    if items != [] && entries != [] {
      var n, m := |items| - 1, |entries| - 1;
      ListDecodesIff(items[..n], entries[..m]);
      EntryDecodesIff(items[n], entries[m]);
      assert entries == entries[..m] + [entries[m]];
    }
  }

  lemma CategoryDecodesIff(j: Json, c: Category, entries: seq<RankedEntry>)
    requires j.Obj?
    ensures DecodeCategory(j, c) == Success(entries) <==> ListAt(j, CategoryKey(c), entries)
  {
    hide DecodeEntries, ListSays;
    if CategoryKey(c) in j.fields && j.fields[CategoryKey(c)].List? {
      ListDecodesIff(j.fields[CategoryKey(c)].items, entries);
    }
  }

  lemma SpreadsDecodeIff(j: Json, spreads: seq<Json>)
    requires j.Obj?
    ensures DecodeSpreads(j) == Success(spreads) <==> SpreadsSay(j, spreads)
  {
  }

  lemma RankingDecodesIff(j: Json, ranking: Json)
    ensures DecodeRanking(j) == Success(ranking) <==> RankingSays(j, ranking)
  {
  }

  /** The decoder accepts an object exactly when some record says what it holds, key by key, and returns that record. */
  lemma RecordDecodesIff(j: Json, r: SpeciesRecord)
    ensures DecodeRecord(j) == Success(r) <==> RecordSays(j, r)
  {
    hide RequiredText, DecodeRanking, DecodeCategory, DecodeSpreads, TextIs, ListAt, SpreadsSay, RankingSays;
    if j.Obj? && forall c: Category :: c in r.ranked {
      TextDecodesIff(j, SpeciesIdKey, r.speciesId);
      TextDecodesIff(j, DisplayNameKey, r.displayName);
      TextDecodesIff(j, SeasonKey, r.season);
      TextDecodesIff(j, FormatKey, r.format);
      TextDecodesIff(j, SourceKey, r.source);
      TextDecodesIff(j, SourceUrlKey, r.sourceUrl);
      TextDecodesIff(j, FetchedAtKey, r.fetchedAt);
      RankingDecodesIff(Get(j, RankingKey), r.ranking);
      CategoryDecodesIff(j, Moves, r.ranked[Moves]);
      CategoryDecodesIff(j, Items, r.ranked[Items]);
      CategoryDecodesIff(j, Abilities, r.ranked[Abilities]);
      CategoryDecodesIff(j, Natures, r.ranked[Natures]);
      CategoryDecodesIff(j, Partners, r.ranked[Partners]);
      SpreadsDecodeIff(j, r.spreads);
      FiveCategories(r.ranked);
    }
    if DecodeRecord(j) == Success(r) {
      forall c: Category ensures c in r.ranked {
        match c case Moves => case Items => case Abilities => case Natures => case Partners =>
      }
    }
  }

  lemma FiveCategories(ranked: map<Category, seq<RankedEntry>>)
    requires forall c: Category :: c in ranked
    ensures ranked == map[Moves := ranked[Moves], Items := ranked[Items], Abilities := ranked[Abilities],
                          Natures := ranked[Natures], Partners := ranked[Partners]]
  {
    forall c: Category | c in ranked ensures c in {Moves, Items, Abilities, Natures, Partners} {
      match c case Moves => case Items => case Abilities => case Natures => case Partners =>
    }
  }

  lemma SaidEntriesAreOk(j: Json, key: Key, entries: seq<RankedEntry>)
    requires j.Obj? && ListAt(j, key, entries)
    ensures forall k :: 0 <= k < |entries| ==> EntryOk(entries[k])
  {
    forall k | 0 <= k < |entries| ensures EntryOk(entries[k]) {
      assert EntrySays(j.fields[key].items[k], entries[k]);
    }
  }

  lemma DecodedRecordIsOk(j: Json)
    requires DecodeRecord(j).Success?
    ensures RecordOk(DecodeRecord(j).value) && RecordSays(j, DecodeRecord(j).value)
  {
    hide DecodeRecord, ListAt, EntryOk;
    var r := DecodeRecord(j).value;
    RecordDecodesIff(j, r);
    forall c: Category, k: nat | k < |r.ranked[c]| ensures EntryOk(r.ranked[c][k]) {
      assert ListAt(j, CategoryKey(c), r.ranked[c]) by {
        match c case Moves => case Items => case Abilities => case Natures => case Partners =>
      }
      SaidEntriesAreOk(j, CategoryKey(c), r.ranked[c]);
    }
  }

  /** One species entry decodes, under a key that agrees with it. */
  predicate EntryDecodes(species: map<string, Json>, id: string)
    requires id in species
  {
    DecodeRecord(species[id]).Success? && NormalizeKey(id) == NormalizeKey(DecodeRecord(species[id]).value.speciesId)
  }

  /** An entry decodes exactly when a record says what it holds, and the key names that record's species. */
  lemma KeyedEntryDecodesIff(species: map<string, Json>, id: string)
    requires id in species
    ensures EntryDecodes(species, id) <==>
              exists r :: RecordSays(species[id], r) && NormalizeKey(id) == NormalizeKey(r.speciesId)
  {
    hide DecodeRecord, RecordSays, NormalizeKey;
    forall r ensures DecodeRecord(species[id]) == Success(r) <==> RecordSays(species[id], r) {
      RecordDecodesIff(species[id], r);
    }
  }

  /** SnapshotDocument.from_json_dict: one bad record, or one record under another species' key, spoils it all. */
  method DecodeDocument(raw: RawDocument) returns (r: Result<SnapshotDocument, DecodeError>)
    ensures r.Success? <==> forall id :: id in raw.species ==> EntryDecodes(raw.species, id)
    ensures r.Success? ==>
              && r.value == SnapshotDocument(raw.schemaVersion, raw.source, raw.season, raw.format, raw.fetchedAt,
                                             r.value.species)
              && r.value.species.Keys == raw.species.Keys && DocumentOk(r.value.species)
              && forall id :: id in raw.species ==>
                   && r.value.species[id] == DecodeRecord(raw.species[id]).value
                   && RecordSays(raw.species[id], r.value.species[id])
  {
    hide DecodeRecord, NormalizeKey, RecordOk, RecordSays;
    var species, todo := map[], raw.species.Keys;
    while todo != {}
      invariant todo <= raw.species.Keys && species.Keys == raw.species.Keys - todo
      invariant forall id :: id in species ==>
                  && EntryDecodes(raw.species, id) && species[id] == DecodeRecord(raw.species[id]).value
                  && RecordSays(raw.species[id], species[id])
      invariant DocumentOk(species)
      decreases todo
    {
      var id :| id in todo;
      var record := DecodeRecord(raw.species[id]);
      if record.Failure? {
        assert !EntryDecodes(raw.species, id);
        return Failure(record.error);
      }
      if NormalizeKey(id) != NormalizeKey(record.value.speciesId) {
        assert !EntryDecodes(raw.species, id);
        return Failure(KeyMismatch);
      }
      DecodedRecordIsOk(raw.species[id]);
      species, todo := species[id := record.value], todo - {id};
    }
    r := Success(SnapshotDocument(raw.schemaVersion, raw.source, raw.season, raw.format, raw.fetchedAt, species));
  }

  // ---- resolving a species ------------------------------------------------------------------

  const UNKNOWN := "UNKNOWN"

  /** Code point order, the order of sorted(). */
  predicate Less(a: string, b: string) {
    b != "" && (a == "" || a[0] < b[0] || (a[0] == b[0] && Less(a[1..], b[1..])))
  }

  lemma {:induction false} LessIsTotal(a: string, b: string)
    ensures Less(a, b) || Less(b, a) || a == b
    ensures !(Less(a, b) && Less(b, a)) && !Less(a, a)
  {
    if a != "" {
      LessIsTotal(a[1..], a[1..]);
      if b != "" {
        LessIsTotal(a[1..], b[1..]);
        assert a == [a[0]] + a[1..] && b == [b[0]] + b[1..];
      }
    }
  }

  lemma {:induction false} LessIsTransitive(a: string, b: string, c: string)
    requires Less(a, b) && Less(b, c)
    ensures Less(a, c)
  {
    if a != "" && a[0] == b[0] == c[0] {
      LessIsTransitive(a[1..], b[1..], c[1..]);
    }
  }

  predicate IsLeast(ids: set<string>, least: string) {
    least in ids && forall id :: id in ids && id != least ==> Less(least, id)
  }

  lemma {:induction false} LeastExists(ids: set<string>)
    requires ids != {}
    ensures exists least :: IsLeast(ids, least)
  {
    var some :| some in ids;
    if ids == {some} {
      assert IsLeast(ids, some);
    } else {
      var rest := ids - {some};
      assert ids == rest + {some};
      LeastExists(rest);
      var least :| IsLeast(rest, least);
      LessIsTotal(some, least);
      if Less(some, least) {
        forall id | id in ids && id != some ensures Less(some, id) {
          if id != least {
            LessIsTransitive(some, least, id);
          }
        }
        assert IsLeast(ids, some);
      } else {
        assert IsLeast(ids, least);
      }
    }
  }

  ghost function Least(ids: set<string>): (least: string)
    requires ids != {}
    ensures IsLeast(ids, least)
  {
    LeastExists(ids);
    var least :| IsLeast(ids, least);
    least
  }

  /** sorted(species) */
  ghost function SortedIds(ids: set<string>): (r: seq<string>)
    ensures forall id :: id in r <==> id in ids
    ensures forall i, j :: 0 <= i < j < |r| ==> Less(r[i], r[j])
    decreases |ids|
  {
    if ids == {} then []
    else
      var least := Least(ids);
      [least] + SortedIds(ids - {least})
  }

  /** The first id of a scan that passes a test. */
  function FirstWhere(ids: seq<string>, test: string -> bool): (r: Option<string>)
    ensures r.None? <==> forall k :: 0 <= k < |ids| ==> !test(ids[k])
    ensures r.Some? ==> r.value in ids && test(r.value)
  {
    if ids == [] then None
    else if test(ids[0]) then Some(ids[0])
    else FirstWhere(ids[1..], test)
  }

  lemma {:induction false} FirstIsEarliest(ids: seq<string>, test: string -> bool, k: nat)
    requires FirstWhere(ids, test).Some? && k < |ids| && test(ids[k])
    ensures exists i :: 0 <= i <= k && ids[i] == FirstWhere(ids, test).value
  {
    if !test(ids[0]) {
      FirstIsEarliest(ids[1..], test, k - 1);
      var i :| 0 <= i <= k - 1 && ids[1..][i] == FirstWhere(ids[1..], test).value;
      assert ids[i + 1] == FirstWhere(ids, test).value;
    }
  }

  type Species = map<string, SpeciesRecord>

  function IsNamed(species: Species, key: string): string -> bool {
    id => id in species && Strip(species[id].displayName) == key
  }

  function IsFolded(species: Species, key: string): string -> bool {
    id => id in species && (Lower(id) == NormalizeKey(key) || Lower(Strip(species[id].displayName)) == Lower(key))
  }

  predicate NoSpecies(key: string) {
    key == "" || key == UNKNOWN
  }

  /** resolve_species_record, as the id it resolves to: exact id, normalized id, display name, case-folded. */
  ghost function ResolveSpecies(species: Species, name: string): (r: Option<string>)
    ensures r.Some? ==> r.value in species
  {
    var key, ids := Strip(name), SortedIds(species.Keys);
    if NoSpecies(key) then None
    else if key in species then Some(key)
    else if NormalizeKey(key) in species then Some(NormalizeKey(key))
    else
      var named := FirstWhere(ids, IsNamed(species, key));
      if named.Some? then named else FirstWhere(ids, IsFolded(species, key))
  }

  /** species_identity_matches */
  predicate IdentityMatches(name: string, speciesId: string, displayName: string) {
    var key, display := Strip(name), Strip(displayName);
    && !NoSpecies(key)
    && (key == Strip(speciesId) || NormalizeKey(key) == NormalizeKey(speciesId)
        || (display != "" && (key == display || Lower(key) == Lower(display))))
  }

  predicate Accepted(species: Species, name: string, id: string) {
    id in species && IdentityMatches(name, species[id].speciesId, species[id].displayName)
  }

  /** Whichever of the four rules resolves a name, the identity check accepts the record. */
  lemma ResolvedIsAccepted(species: Species, name: string)
    requires DocumentOk(species) && ResolveSpecies(species, name).Some?
    ensures Accepted(species, name, ResolveSpecies(species, name).value)
  {
    hide SortedIds, RecordOk;
    var key, id := Strip(name), ResolveSpecies(species, name).value;
    NormalizeTwice(name);
    NormalizeTwice(key);
    assert NormalizeKey(id) == NormalizeKey(species[id].speciesId);
    if key !in species && NormalizeKey(key) !in species {
      assert IsNamed(species, key)(id) || IsFolded(species, key)(id);
      if Lower(id) == NormalizeKey(key) {
        LowerIsNormal(id, key);
      } else if key != "" {
        assert Lower(key) != "";
      }
    }
  }

  lemma FirstIsLeast(ids: seq<string>, test: string -> bool, k: nat)
    requires forall i, j :: 0 <= i < j < |ids| ==> Less(ids[i], ids[j])
    requires FirstWhere(ids, test).Some? && k < |ids| && test(ids[k])
    ensures var first := FirstWhere(ids, test).value; first == ids[k] || Less(first, ids[k])
  {
    hide Less, FirstWhere;
    FirstIsEarliest(ids, test, k);
    var i :| 0 <= i <= k && ids[i] == FirstWhere(ids, test).value;
  }

  /** Where two records fit the third or fourth rule, the one with the least id is taken, whatever the dict's order. */
  lemma ScansTakeTheLeast(species: Species, test: string -> bool, id: string)
    requires FirstWhere(SortedIds(species.Keys), test).Some? && id in species && test(id)
    ensures var first := FirstWhere(SortedIds(species.Keys), test).value; first == id || Less(first, id)
  {
    hide Less, FirstWhere;
    var ids := SortedIds(species.Keys);
    var k: nat :| k < |ids| && ids[k] == id;
    FirstIsLeast(ids, test, k);
  }

  /** The record's key is the confirmed name itself, is canonical up to case, or its display name fits. */
  predicate Findable(species: Species, name: string, id: string)
    requires id in species
  {
    || id == Strip(name) || Lower(id) == NormalizeKey(id)
    || Lower(Strip(species[id].displayName)) == Lower(Strip(name))
  }

  /** An accepted record either has the confirmed name's normal form for a key, or shows its display name. */
  lemma AcceptedSpelling(species: Species, name: string, id: string)
    requires DocumentOk(species) && Accepted(species, name, id)
    ensures NormalizeKey(id) == NormalizeKey(Strip(name)) || Lower(Strip(species[id].displayName)) == Lower(Strip(name))
  {
    hide RecordOk;
    NormalizeTwice(species[id].speciesId);
    NormalizeTwice(name);
    assert NormalizeKey(id) == NormalizeKey(species[id].speciesId);
  }

  lemma ResolvedIsFindable(species: Species, name: string)
    requires ResolveSpecies(species, name).Some?
    ensures Findable(species, name, ResolveSpecies(species, name).value)
  {
    hide SortedIds;
    var key, id := Strip(name), ResolveSpecies(species, name).value;
    if key !in species {
      if Lower(id) == NormalizeKey(key) {
        LowerIsNormal(id, key);
      } else if NormalizeKey(key) in species {
        NormalizedIsTrimmed(key);
      } else {
        assert IsNamed(species, key)(id) || IsFolded(species, key)(id);
      }
    }
  }

  lemma UnresolvedFitsNoRule(species: Species, name: string, id: string)
    requires ResolveSpecies(species, name).None? && id in species && !NoSpecies(Strip(name))
    ensures Strip(name) !in species && !IsFolded(species, Strip(name))(id)
  {
    hide Strip, NormalizeKey, Lower, IsFolded, IsNamed;
    var k :| 0 <= k < |SortedIds(species.Keys)| && SortedIds(species.Keys)[k] == id;
    assert !IsFolded(species, Strip(name))(SortedIds(species.Keys)[k]);
  }

  lemma UnresolvedIsNotFindable(species: Species, name: string, id: string)
    requires DocumentOk(species) && ResolveSpecies(species, name).None? && Accepted(species, name, id)
    ensures !Findable(species, name, id)
  {
    hide RecordOk, ResolveSpecies, Strip, NormalizeKey, Lower;
    AcceptedSpelling(species, name, id);
    UnresolvedFitsNoRule(species, name, id);
  }

  /**
   The identity check is documented as the exact inverse of the resolver. It accepts more: the resolver misses a
   species the check accepts exactly when no accepted record is findable, its key being written with blanks.
   */
  lemma ResolverMissesIff(species: Species, name: string)
    requires DocumentOk(species) && exists id :: Accepted(species, name, id)
    ensures ResolveSpecies(species, name).None? <==> forall id :: Accepted(species, name, id) ==> !Findable(species, name, id)
  {
    hide DocumentOk, IdentityMatches, Findable, ResolveSpecies;
    if ResolveSpecies(species, name).Some? {
      ResolvedIsAccepted(species, name);
      ResolvedIsFindable(species, name);
    } else {
      forall id | Accepted(species, name, id) ensures !Findable(species, name, id) {
        UnresolvedIsNotFindable(species, name, id);
      }
    }
  }

  /** For documents keyed by canonical ids the check is the exact inverse it is meant to be. */
  lemma CanonicalKeysResolveIff(species: Species, name: string)
    requires DocumentOk(species) && forall id :: id in species ==> Lower(id) == NormalizeKey(id)
    ensures ResolveSpecies(species, name).Some? <==> exists id :: Accepted(species, name, id)
  {
    hide SortedIds, RecordOk, IdentityMatches, ResolveSpecies;
    if ResolveSpecies(species, name).Some? {
      ResolvedIsAccepted(species, name);
    }
    forall id | Accepted(species, name, id) ensures ResolveSpecies(species, name).Some? {
      ResolverMissesIff(species, name);
      assert Findable(species, name, id);
    }
  }

  lemma BlankAndHyphen()
    ensures Strip("A B") == "A B" && Strip("a-b") == "a-b" && Lower("A B") == "a b" && Lower("a-b") == "a-b"
    ensures NormalizeKey("A B") == "a-b" && NormalizeKey("a-b") == "a-b"
  {
    StripFixed("A B");
    StripFixed("a-b");
    assert Lower("A B") == "a b" && Lower("a-b") == "a-b";
    assert Hyphenate("a b") == "a-b" && Hyphenate("a-b") == "a-b";
  }

  /** So a name the check would accept can go unresolved: "a-b" against a document keyed "A B". */
  lemma BlankKeyIsMissed(r: SpeciesRecord)
    requires RecordOk(r) && r.speciesId == "A B" && r.displayName == "A B"
    ensures var species := map["A B" := r];
            DocumentOk(species) && Accepted(species, "a-b", "A B") && ResolveSpecies(species, "a-b").None?
  {
    hide Strip, Lower, NormalizeKey, RecordOk, ResolveSpecies;
    var species := map["A B" := r];
    BlankAndHyphen();
    assert "a b"[1] != "a-b"[1] && "A B"[1] != "a-b"[1];
    assert Accepted(species, "a-b", "A B");
    ResolverMissesIff(species, "a-b");
  }

  // ---- the context --------------------------------------------------------------------------

  const CONTEXT_VERSION := "maple-opponent-intel-context.v1"
  const AUTHORITY := "POPULATION_PRIOR"
  const AVAILABLE := "AVAILABLE"
  const UNAVAILABLE := "UNAVAILABLE"
  const MISMATCHED := "MISMATCHED"
  const MATCHED := "MATCHED"
  const PIN_UNAVAILABLE := "INTEL_PIN_UNAVAILABLE"
  const NOT_CONFIRMED := "OPPONENT_ACTIVE_NOT_CONFIRMED"
  const NOT_IN_SNAPSHOT := "SPECIES_NOT_IN_SNAPSHOT"
  const INCOMPATIBLE := "COMPATIBILITY_MISMATCHED"
  const SEASON_MISMATCH := "SEASON_MISMATCH"
  const FORMAT_MISMATCH := "FORMAT_MISMATCH"
  const TOP_N := 8

  datatype ContextError = GenerationNotResolved | GenerationDiffers | SnapshotHashMismatch | ContextNotObject | MissingKeys
    | UnknownKeys | BadVersion | BadAuthority | BadStatus | BadCompatibility | UnearnedPopulation | UnearnedSpecies
    | CompatibilityNotMatched | UnearnedReason | NoConfirmedSpecies | BadResolvedSpecies | WrongSpecies
    | NoSnapshotIdentity | BadCategories | CategoryNotList | CategoryTooLong | BadEntryShape | BadEntryName
    | BadEntryPercentage | EntryPercentageOutOfRange

  function OrNull(s: Option<string>): Json {
    if s.Some? then Str(s.value) else Null
  }

  function WriteEntry(e: RankedEntry): Json {
    Obj(map[NameKey := Str(e.name), PercentageKey := if e.percentage.Some? then Num(e.percentage.value) else Null])
  }

  /** _top_entries: the snapshot's own first eight, in its order, verbatim. */
  function TopEntries(entries: seq<RankedEntry>): Json {
    var n := if |entries| <= TOP_N then |entries| else TOP_N;
    List(seq(n, k requires 0 <= k < n => WriteEntry(entries[k])))
  }

  function WritePopulation(r: SpeciesRecord): Json
    requires forall c: Category :: c in r.ranked
  {
    Obj(map[CategoryKey(Moves) := TopEntries(r.ranked[Moves]), CategoryKey(Abilities) := TopEntries(r.ranked[Abilities]),
            CategoryKey(Items) := TopEntries(r.ranked[Items]), CategoryKey(Natures) := TopEntries(r.ranked[Natures]),
            CategoryKey(Partners) := TopEntries(r.ranked[Partners])])
  }

  function WriteIdentity(d: SnapshotDocument, generation: Id, hash: Id, updatedAt: Option<string>): Json {
    Obj(map[SchemaVersionKey := Str(d.schemaVersion), GenerationIdKey := Ref(generation), SnapshotHashKey := Ref(hash),
            SourceKey := Str(d.source), SeasonKey := Str(d.season), FormatKey := Str(d.format),
            FetchedAtKey := Str(d.fetchedAt), UpdatedAtKey := OrNull(updatedAt)])
  }

  function WriteContext(status: string, reason: Option<string>, confirmed: Option<string>, resolved: Json,
                        compatibility: (string, Option<string>), snapshot: Json, population: Json): Json {
    Obj(map[VersionKey := Str(CONTEXT_VERSION), StatusKey := Str(status), ReasonKey := OrNull(reason),
            AuthorityKey := Str(AUTHORITY), ConfirmedKey := OrNull(confirmed), ResolvedKey := resolved,
            CompatibilityKey := Obj(map[StatusKey := Str(compatibility.0), ReasonKey := OrNull(compatibility.1)]),
            SnapshotKey := snapshot, PopulationKey := population])
  }

  /** evaluate_rules_compatibility */
  function Compatibility(d: SnapshotDocument, season: string, format: string): (string, Option<string>) {
    if Strip(d.season) != Strip(season) then (MISMATCHED, Some(SEASON_MISMATCH))
    else if Upper(Strip(d.format)) != Upper(Strip(format)) then (MISMATCHED, Some(FORMAT_MISMATCH))
    else (MATCHED, None)
  }

  /** The archived generation a pin led to: its document, id and snapshot hash. */
  datatype Archived = Archived(document: SnapshotDocument, generation: Id, hash: Id)

  /** build_opponent_intel_context */
  ghost function BuildContext(confirmed: Option<string>, pin: Records.IntelPin, archived: Option<Archived>,
                              season: string, format: string): Result<Json, ContextError>
    requires archived.Some? ==> DocumentOk(archived.value.document.species)
  {
    if pin.PinUnavailable? then
      Success(WriteContext(UNAVAILABLE, Some(PIN_UNAVAILABLE), confirmed, Null, (UNAVAILABLE, Some(PIN_UNAVAILABLE)), Null, Null))
    else if archived.None? then Failure(GenerationNotResolved)
    else if archived.value.generation != pin.generation then Failure(GenerationDiffers)
    else if archived.value.hash != pin.snapshotHash then Failure(SnapshotHashMismatch)
    else
      var d := archived.value.document;
      var compatibility := Compatibility(d, season, format);
      var identity := WriteIdentity(d, pin.generation, pin.snapshotHash, None);
      if compatibility.0 != MATCHED then
        Success(WriteContext(MISMATCHED, Some(INCOMPATIBLE), confirmed, Null, compatibility, identity, Null))
      else if confirmed.None? || confirmed.value == "" || confirmed.value == UNKNOWN then
        Success(WriteContext(UNAVAILABLE, Some(NOT_CONFIRMED), confirmed, Null, compatibility, identity, Null))
      else
        var id := ResolveSpecies(d.species, confirmed.value);
        if id.None? then
          Success(WriteContext(UNAVAILABLE, Some(NOT_IN_SNAPSHOT), confirmed, Null, compatibility, identity, Null))
        else
          var r := d.species[id.value];
          Success(WriteContext(AVAILABLE, None, confirmed,
                               Obj(map[SpeciesIdKey := Str(r.speciesId), DisplayNameKey := Str(r.displayName)]),
                               compatibility, WriteIdentity(d, pin.generation, pin.snapshotHash, r.sourceUpdatedAt),
                               WritePopulation(r)))
  }

  // ---- the validator ------------------------------------------------------------------------

  const CONTEXT_KEYS: set<Key> := {VersionKey, StatusKey, ReasonKey, AuthorityKey, ConfirmedKey, ResolvedKey,
                                   CompatibilityKey, SnapshotKey, PopulationKey}
  const CATEGORY_KEYS: set<Key> := {CategoryKey(Moves), CategoryKey(Abilities), CategoryKey(Items), CategoryKey(Natures),
                                    CategoryKey(Partners)}

  predicate TextAt(j: Json, key: Key)
    requires j.Obj? && key in j.fields
  {
    j.fields[key].Str? && !IsBlank(j.fields[key].text)
  }

  function ValidateEntry(e: Json): Check<ContextError> {
    if !e.Obj? || e.fields.Keys != {NameKey, PercentageKey} then Fail(BadEntryShape)
    else if !TextAt(e, NameKey) then Fail(BadEntryName)
    else
      var percentage := e.fields[PercentageKey];
      if percentage.Null? then Pass
      else if !percentage.Num? && !percentage.NotFinite? then Fail(BadEntryPercentage)
      else if percentage.NotFinite? || percentage.number < 0.0 || percentage.number > 100.0 then Fail(EntryPercentageOutOfRange)
      else Pass
  }

  function ValidateItems(items: seq<Json>): Check<ContextError> {
    if items == [] then Pass
    else if ValidateEntry(items[0]).Fail? then ValidateEntry(items[0])
    else ValidateItems(items[1..])
  }

  /** _validate_entries */
  function ValidateEntries(entries: Json): Check<ContextError> {
    if !entries.List? then Fail(CategoryNotList)
    else if |entries.items| > TOP_N then Fail(CategoryTooLong)
    else ValidateItems(entries.items)
  }

  function ValidateCategories(population: Json, categories: seq<Category>): Check<ContextError>
    requires population.Obj? && forall k :: 0 <= k < |categories| ==> CategoryKey(categories[k]) in population.fields
  {
    if categories == [] then Pass
    else
      var first := ValidateEntries(population.fields[CategoryKey(categories[0])]);
      if first.Fail? then first else ValidateCategories(population, categories[1..])
  }

  predicate Truthy(j: Json) {
    match j
    case Null => false
    case Flag(bit) => bit
    case Num(number) => number != 0.0
    case NotFinite => true
    case Str(text) => text != ""
    case Ref(_) => true
    case List(items) => items != []
    case Obj(fields) => fields != map[]
  }

  function ValidateAvailable(c: Json): Check<ContextError>
    requires c.Obj? && c.fields.Keys == CONTEXT_KEYS
    requires c.fields[CompatibilityKey].Obj? && StatusKey in c.fields[CompatibilityKey].fields
  {
    var f := c.fields;
    var resolved := f[ResolvedKey];
    if f[CompatibilityKey].fields[StatusKey] != Str(MATCHED) then Fail(CompatibilityNotMatched)
    else if f[ReasonKey] != Null then Fail(UnearnedReason)
    else if !TextAt(c, ConfirmedKey) then Fail(NoConfirmedSpecies)
    else if !resolved.Obj? || resolved.fields.Keys != {SpeciesIdKey, DisplayNameKey} then Fail(BadResolvedSpecies)
    else if !TextAt(resolved, SpeciesIdKey) || !TextAt(resolved, DisplayNameKey) then Fail(BadResolvedSpecies)
    else if !IdentityMatches(f[ConfirmedKey].text, resolved.fields[SpeciesIdKey].text, resolved.fields[DisplayNameKey].text)
      then Fail(WrongSpecies)
    else if !f[SnapshotKey].Obj? || !Truthy(Get(f[SnapshotKey], GenerationIdKey)) then Fail(NoSnapshotIdentity)
    else if !f[PopulationKey].Obj? || f[PopulationKey].fields.Keys != CATEGORY_KEYS then Fail(BadCategories)
    else ValidateCategories(f[PopulationKey], [Moves, Abilities, Items, Natures, Partners])
  }

  /** validate_opponent_intel_context */
  function ValidateContext(c: Json): Check<ContextError> {
    if !c.Obj? then Fail(ContextNotObject)
    else if !(CONTEXT_KEYS <= c.fields.Keys) then Fail(MissingKeys)
    else if !(c.fields.Keys <= CONTEXT_KEYS) then Fail(UnknownKeys)
    else
      var f := c.fields;
      if f[VersionKey] != Str(CONTEXT_VERSION) then Fail(BadVersion)
      else if f[AuthorityKey] != Str(AUTHORITY) then Fail(BadAuthority)
      else if f[StatusKey] !in [Str(AVAILABLE), Str(UNAVAILABLE), Str(MISMATCHED)] then Fail(BadStatus)
      else if !f[CompatibilityKey].Obj? || f[CompatibilityKey].fields.Keys != {StatusKey, ReasonKey} then Fail(BadCompatibility)
      else if f[CompatibilityKey].fields[StatusKey] !in [Str(MATCHED), Str(MISMATCHED), Str(UNAVAILABLE)]
        then Fail(BadCompatibility)
      else if f[StatusKey] != Str(AVAILABLE) then
        if f[PopulationKey] != Null then Fail(UnearnedPopulation)
        else if f[ResolvedKey] != Null then Fail(UnearnedSpecies)
        else Pass
      else ValidateAvailable(c)
  }

  // ---- the builder satisfies the validator --------------------------------------------------

  lemma {:induction false} ItemsPass(items: seq<Json>)
    requires forall k :: 0 <= k < |items| ==> ValidateEntry(items[k]).Pass?
    ensures ValidateItems(items).Pass?
  {
    if items != [] {
      ItemsPass(items[1..]);
    }
  }

  lemma WrittenEntryPasses(e: RankedEntry)
    requires EntryOk(e)
    ensures ValidateEntry(WriteEntry(e)).Pass?
  {
  }

  lemma TopEntriesPass(entries: seq<RankedEntry>)
    requires forall k: nat :: k < |entries| ==> EntryOk(entries[k])
    ensures ValidateEntries(TopEntries(entries)).Pass?
  {
    hide ValidateEntry, WriteEntry, EntryOk;
    forall k | 0 <= k < |TopEntries(entries).items| ensures ValidateEntry(TopEntries(entries).items[k]).Pass? {
      WrittenEntryPasses(entries[k]);
    }
    ItemsPass(TopEntries(entries).items);
  }

  lemma PopulationPasses(r: SpeciesRecord)
    requires RecordOk(r)
    ensures WritePopulation(r).Obj? && WritePopulation(r).fields.Keys == CATEGORY_KEYS
    ensures ValidateCategories(WritePopulation(r), [Moves, Abilities, Items, Natures, Partners]).Pass?
  {
    hide ValidateEntries, TopEntries, EntryOk;
    forall c: Category ensures ValidateEntries(TopEntries(r.ranked[c])).Pass? {
      assert forall k: nat :: k < |r.ranked[c]| ==> EntryOk(r.ranked[c][k]);
      TopEntriesPass(r.ranked[c]);
    }
    var p := WritePopulation(r);
    assert ValidateCategories(p, [Partners]).Pass?;
    assert [Natures, Partners][1..] == [Partners];
    assert ValidateCategories(p, [Natures, Partners]).Pass?;
    assert [Items, Natures, Partners][1..] == [Natures, Partners];
    assert ValidateCategories(p, [Items, Natures, Partners]).Pass?;
    assert [Abilities, Items, Natures, Partners][1..] == [Items, Natures, Partners];
    assert ValidateCategories(p, [Abilities, Items, Natures, Partners]).Pass?;
    assert [Moves, Abilities, Items, Natures, Partners][1..] == [Abilities, Items, Natures, Partners];
  }

  lemma ContextFields(status: string, reason: Option<string>, confirmed: Option<string>, resolved: Json,
                      compatibility: (string, Option<string>), snapshot: Json, population: Json)
    ensures var c := WriteContext(status, reason, confirmed, resolved, compatibility, snapshot, population);
            && c.Obj? && c.fields.Keys == CONTEXT_KEYS
            && c.fields[VersionKey] == Str(CONTEXT_VERSION) && c.fields[AuthorityKey] == Str(AUTHORITY)
            && c.fields[StatusKey] == Str(status) && c.fields[ReasonKey] == OrNull(reason)
            && c.fields[ConfirmedKey] == OrNull(confirmed) && c.fields[ResolvedKey] == resolved
            && c.fields[CompatibilityKey] == Obj(map[StatusKey := Str(compatibility.0), ReasonKey := OrNull(compatibility.1)])
            && c.fields[SnapshotKey] == snapshot && c.fields[PopulationKey] == population
  {
  }

  lemma SoftContextPasses(status: string, reason: string, confirmed: Option<string>,
                          compatibility: (string, Option<string>), snapshot: Json)
    requires status in [UNAVAILABLE, MISMATCHED] && compatibility.0 in [MATCHED, MISMATCHED, UNAVAILABLE]
    ensures ValidateContext(WriteContext(status, Some(reason), confirmed, Null, compatibility, snapshot, Null)).Pass?
  {
    var c := WriteContext(status, Some(reason), confirmed, Null, compatibility, snapshot, Null);
    assert c.fields.Keys == CONTEXT_KEYS;
    assert c.fields[CompatibilityKey].fields.Keys == {StatusKey, ReasonKey};
    assert |UNAVAILABLE| == 11 && |MISMATCHED| == 10 && |AVAILABLE| == 9;
  }

  lemma AvailablePasses(c: Json, confirmed: string, r: SpeciesRecord)
    requires c.Obj? && c.fields.Keys == CONTEXT_KEYS
    requires c.fields[CompatibilityKey] == Obj(map[StatusKey := Str(MATCHED), ReasonKey := Null])
    requires c.fields[ReasonKey] == Null && c.fields[ConfirmedKey] == Str(confirmed) && !IsBlank(confirmed)
    requires c.fields[ResolvedKey] == Obj(map[SpeciesIdKey := Str(r.speciesId), DisplayNameKey := Str(r.displayName)])
    requires IdentityMatches(confirmed, r.speciesId, r.displayName) && RecordOk(r)
    requires c.fields[SnapshotKey].Obj? && Truthy(Get(c.fields[SnapshotKey], GenerationIdKey))
    requires c.fields[PopulationKey] == WritePopulation(r)
    ensures ValidateAvailable(c).Pass?
  {
    hide IdentityMatches, ValidateCategories, WritePopulation, Truthy, IsBlank, RecordOk;
    assert !IsBlank(r.speciesId) && !IsBlank(r.displayName) by {
      RecordIsNamed(r);
    }
    assert c.fields[ResolvedKey].fields.Keys == {SpeciesIdKey, DisplayNameKey};
    PopulationPasses(r);
  }

  lemma RecordIsNamed(r: SpeciesRecord)
    requires RecordOk(r)
    ensures !IsBlank(r.speciesId) && !IsBlank(r.displayName) && forall c: Category :: c in r.ranked
  {
  }

  lemma AvailableIsValidatedFully(c: Json)
    requires c.Obj? && c.fields.Keys == CONTEXT_KEYS
    requires c.fields[VersionKey] == Str(CONTEXT_VERSION) && c.fields[AuthorityKey] == Str(AUTHORITY)
    requires c.fields[StatusKey] == Str(AVAILABLE)
    requires c.fields[CompatibilityKey] == Obj(map[StatusKey := Str(MATCHED), ReasonKey := Null])
    ensures ValidateContext(c) == ValidateAvailable(c)
  {
    hide ValidateAvailable;
    assert c.fields[CompatibilityKey].fields.Keys == {StatusKey, ReasonKey};
  }

  lemma AvailableContextPasses(confirmed: string, species: Species, id: string, snapshot: Json)
    requires DocumentOk(species) && Accepted(species, confirmed, id)
    requires snapshot.Obj? && Truthy(Get(snapshot, GenerationIdKey))
    ensures var r := species[id];
            ValidateContext(WriteContext(AVAILABLE, None, Some(confirmed),
                                         Obj(map[SpeciesIdKey := Str(r.speciesId), DisplayNameKey := Str(r.displayName)]),
                                         (MATCHED, None), snapshot, WritePopulation(r))).Pass?
  {
    hide IdentityMatches, WritePopulation, ValidateAvailable, ValidateContext, Truthy, RecordOk, WriteContext, IsBlank;
    var r := species[id];
    RecordIsNamed(r);
    var resolved := Obj(map[SpeciesIdKey := Str(r.speciesId), DisplayNameKey := Str(r.displayName)]);
    var c := WriteContext(AVAILABLE, None, Some(confirmed), resolved, (MATCHED, None), snapshot, WritePopulation(r));
    ContextFields(AVAILABLE, None, Some(confirmed), resolved, (MATCHED, None), snapshot, WritePopulation(r));
    AcceptedIsNotBlank(species, confirmed, id);
    AvailableIsValidatedFully(c);
    AvailablePasses(c, confirmed, r);
  }

  lemma AcceptedIsNotBlank(species: Species, name: string, id: string)
    requires Accepted(species, name, id)
    ensures !IsBlank(name)
  {
  }

  /** Every context the builder returns for a decoded snapshot passes the validator. */
  lemma BuiltContextPasses(confirmed: Option<string>, pin: Records.IntelPin, archived: Option<Archived>,
                           season: string, format: string)
    requires archived.Some? ==> DocumentOk(archived.value.document.species)
    requires BuildContext(confirmed, pin, archived, season, format).Success?
    ensures ValidateContext(BuildContext(confirmed, pin, archived, season, format).value).Pass?
  {
    hide ValidateContext, WriteContext, ResolveSpecies, DocumentOk, Accepted;
    if pin.PinUnavailable? {
      SoftContextPasses(UNAVAILABLE, PIN_UNAVAILABLE, confirmed, (UNAVAILABLE, Some(PIN_UNAVAILABLE)), Null);
    } else {
      var d := archived.value.document;
      var compatibility := Compatibility(d, season, format);
      var identity := WriteIdentity(d, pin.generation, pin.snapshotHash, None);
      assert compatibility.0 in [MATCHED, MISMATCHED];
      if compatibility.0 != MATCHED {
        SoftContextPasses(MISMATCHED, INCOMPATIBLE, confirmed, compatibility, identity);
      } else {
        assert |MATCHED| == 7 && |MISMATCHED| == 10;
        assert compatibility == (MATCHED, None);
        SoftContextPasses(UNAVAILABLE, NOT_CONFIRMED, confirmed, compatibility, identity);
        SoftContextPasses(UNAVAILABLE, NOT_IN_SNAPSHOT, confirmed, compatibility, identity);
        if confirmed.Some? && ResolveSpecies(d.species, confirmed.value).Some? {
          var id := ResolveSpecies(d.species, confirmed.value).value;
          ResolvedIsAccepted(d.species, confirmed.value);
          AvailableContextPasses(confirmed.value, d.species, id,
                                 WriteIdentity(d, pin.generation, pin.snapshotHash, d.species[id].sourceUpdatedAt));
        }
      }
    }
  }

  // ---- what a context says ------------------------------------------------------------------

  lemma EntryReadsBack(e: RankedEntry)
    requires EntryOk(e)
    ensures DecodeEntry(WriteEntry(e)) == Success(e)
  {
  }

  lemma {:induction false} WrittenEntriesReadBack(items: seq<Json>, entries: seq<RankedEntry>)
    requires |items| == |entries| && forall k :: 0 <= k < |items| ==> items[k] == WriteEntry(entries[k])
    requires forall k :: 0 <= k < |entries| ==> EntryOk(entries[k])
    ensures DecodeEntries(items) == Success(entries)
  {
    hide DecodeEntry, WriteEntry, EntryOk;
    if items != [] {
      var n := |items| - 1;
      EntryReadsBack(entries[n]);
      WrittenEntriesReadBack(items[..n], entries[..n]);
      assert entries == entries[..n] + [entries[n]];
    }
  }

  /** The population carried is the record's own: read by the snapshot's decoder, its first eight of each category. */
  lemma PopulationReadsBack(r: SpeciesRecord, c: Category)
    requires RecordOk(r)
    ensures DecodeCategory(WritePopulation(r), c)
         == Success(r.ranked[c][..if |r.ranked[c]| <= TOP_N then |r.ranked[c]| else TOP_N])
  {
    hide EntryOk, WriteEntry;
    var entries := r.ranked[c];
    var n := if |entries| <= TOP_N then |entries| else TOP_N;
    assert WritePopulation(r).fields[CategoryKey(c)] == TopEntries(entries) by {
      match c case Moves => case Items => case Abilities => case Natures => case Partners =>
    }
    forall k | 0 <= k < n ensures EntryOk(entries[..n][k]) {
      assert EntryOk(r.ranked[c][k]);
    }
    WrittenEntriesReadBack(TopEntries(entries).items, entries[..n]);
  }

  predicate Compatible(d: SnapshotDocument, season: string, format: string) {
    Strip(d.season) == Strip(season) && Upper(Strip(d.format)) == Upper(Strip(format))
  }

  lemma IdentitySaysPin(d: SnapshotDocument, generation: Id, hash: Id, updatedAt: Option<string>)
    ensures var identity := WriteIdentity(d, generation, hash, updatedAt);
            && identity.Obj? && Get(identity, GenerationIdKey) == Ref(generation)
            && Get(identity, SnapshotHashKey) == Ref(hash)
  {
  }

  lemma CompatibleIff(d: SnapshotDocument, season: string, format: string)
    ensures Compatibility(d, season, format).0 == MATCHED <==> Compatible(d, season, format)
  {
    hide Strip, Upper;
    assert |MATCHED| != |MISMATCHED|;
  }

  lemma NoNameResolves(species: Species)
    ensures ResolveSpecies(species, "").None? && ResolveSpecies(species, UNKNOWN).None?
  {
    hide SortedIds, NormalizeKey;
    StripFixed("");
    StripFixed(UNKNOWN);
  }

  lemma RecordOfDocument(species: Species, id: string)
    requires DocumentOk(species) && id in species
    ensures forall c: Category :: c in species[id].ranked
  {
    RecordIsNamed(species[id]);
  }

  lemma PopulationIsObject(r: SpeciesRecord)
    requires forall c: Category :: c in r.ranked
    ensures WritePopulation(r).Obj?
  {
  }

  /** Population is claimed exactly for a pinned, compatible snapshot that has the confirmed species. */
  lemma AvailableIff(confirmed: Option<string>, pin: Records.IntelPin, archived: Option<Archived>,
                     season: string, format: string, c: Json)
    requires archived.Some? ==> DocumentOk(archived.value.document.species)
    requires BuildContext(confirmed, pin, archived, season, format) == Success(c)
    ensures c.Obj? && CONTEXT_KEYS <= c.fields.Keys
    ensures c.fields[StatusKey] == Str(AVAILABLE) <==>
              && pin.Pinned? && confirmed.Some? && Compatible(archived.value.document, season, format)
              && ResolveSpecies(archived.value.document.species, confirmed.value).Some?
    ensures c.fields[PopulationKey] != Null <==> c.fields[StatusKey] == Str(AVAILABLE)
    ensures c.fields[SnapshotKey] != Null ==>
              && c.fields[SnapshotKey].Obj? && pin.Pinned?
              && Get(c.fields[SnapshotKey], GenerationIdKey) == Ref(pin.generation)
              && Get(c.fields[SnapshotKey], SnapshotHashKey) == Ref(pin.snapshotHash)
  {
    hide WriteContext, ResolveSpecies, WritePopulation, WriteIdentity, Compatibility, Compatible, DocumentOk;
    assert |UNAVAILABLE| == 11 && |MISMATCHED| == 10 && |AVAILABLE| == 9;
    if pin.PinUnavailable? {
      ContextFields(UNAVAILABLE, Some(PIN_UNAVAILABLE), confirmed, Null, (UNAVAILABLE, Some(PIN_UNAVAILABLE)), Null, Null);
    } else {
      var d := archived.value.document;
      var compatibility := Compatibility(d, season, format);
      var identity := WriteIdentity(d, pin.generation, pin.snapshotHash, None);
      IdentitySaysPin(d, pin.generation, pin.snapshotHash, None);
      CompatibleIff(d, season, format);
      NoNameResolves(d.species);
      ContextFields(MISMATCHED, Some(INCOMPATIBLE), confirmed, Null, compatibility, identity, Null);
      ContextFields(UNAVAILABLE, Some(NOT_CONFIRMED), confirmed, Null, compatibility, identity, Null);
      ContextFields(UNAVAILABLE, Some(NOT_IN_SNAPSHOT), confirmed, Null, compatibility, identity, Null);
      if compatibility.0 == MATCHED && confirmed.Some? && ResolveSpecies(d.species, confirmed.value).Some? {
        var r := d.species[ResolveSpecies(d.species, confirmed.value).value];
        RecordOfDocument(d.species, ResolveSpecies(d.species, confirmed.value).value);
        PopulationIsObject(r);
        IdentitySaysPin(d, pin.generation, pin.snapshotHash, r.sourceUpdatedAt);
        ContextFields(AVAILABLE, None, confirmed,
                      Obj(map[SpeciesIdKey := Str(r.speciesId), DisplayNameKey := Str(r.displayName)]), compatibility,
                      WriteIdentity(d, pin.generation, pin.snapshotHash, r.sourceUpdatedAt), WritePopulation(r));
      }
    }
  }

  /** The builder fails exactly when a pin leads nowhere, to another generation or to other bytes. */
  lemma BuilderFailsIff(confirmed: Option<string>, pin: Records.IntelPin, archived: Option<Archived>,
                        season: string, format: string)
    requires archived.Some? ==> DocumentOk(archived.value.document.species)
    ensures BuildContext(confirmed, pin, archived, season, format).Failure? <==>
              && pin.Pinned?
              && (archived.Some? ==> archived.value.generation != pin.generation || archived.value.hash != pin.snapshotHash)
  {
    hide DocumentOk, ResolveSpecies, WriteContext, WriteIdentity;
  }
}
