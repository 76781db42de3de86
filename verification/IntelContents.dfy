/**
 What the opponent intel of a request says, spelled out down to its keys and texts: which species a name finds
 (domain/opponent_intel_context.py:209-249), each form of context there is (:309-501) and what a checked one may hold
 (:504-600).
 */
module IntelContents {
  import opened Basics
  import opened Text
  import opened IntelContext
  import opened GenerationStore
  import opened RuntimeIntel
  import Records

  // ---- the resolver -------------------------------------------------------------------------

  predicate ShowsName(species: Species, key: string, id: string) {
    id in species && Strip(species[id].displayName) == key
  }

  predicate FoldsTo(species: Species, key: string, id: string) {
    id in species && (Lower(id) == NormalizeKey(key) || Lower(Strip(species[id].displayName)) == Lower(key))
  }

  ghost predicate LeastShown(species: Species, key: string, id: string) {
    ShowsName(species, key, id) && forall other :: ShowsName(species, key, other) && other != id ==> Less(id, other)
  }

  ghost predicate LeastFolded(species: Species, key: string, id: string) {
    FoldsTo(species, key, id) && forall other :: FoldsTo(species, key, other) && other != id ==> Less(id, other)
  }

  /** The record a stripped name stands for: the first rule that fits decides, ties going to the least id. */
  ghost predicate StandsFor(species: Species, key: string, id: string) {
    && key != "" && key != "UNKNOWN" && id in species
    && if key in species then id == key
       else if NormalizeKey(key) in species then id == NormalizeKey(key)
       else if exists other :: ShowsName(species, key, other) then LeastShown(species, key, id)
       else LeastFolded(species, key, id)
  }

  lemma ScanFindsLeast(species: Species, test: string -> bool, id: string)
    requires id in species && test(id)
    ensures FirstWhere(SortedIds(species.Keys), test).Some?
    ensures var first := FirstWhere(SortedIds(species.Keys), test).value; first == id || Less(first, id)
  {
    hide Less, FirstWhere;
    var ids := SortedIds(species.Keys);
    var k: nat :| k < |ids| && ids[k] == id;
    ScansTakeTheLeast(species, test, id);
  }

  lemma ShownIsFound(species: Species, key: string, id: string)
    ensures FirstWhere(SortedIds(species.Keys), IsNamed(species, key)) == Some(id) <==> LeastShown(species, key, id)
    ensures FirstWhere(SortedIds(species.Keys), IsNamed(species, key)).Some? <==>
              exists other :: ShowsName(species, key, other)
  {
    hide Less, SortedIds, Strip;
    var found := FirstWhere(SortedIds(species.Keys), IsNamed(species, key));
    forall other | ShowsName(species, key, other)
      ensures found.Some? && (found.value == other || Less(found.value, other))
    {
      hide FirstWhere;
      ScanFindsLeast(species, IsNamed(species, key), other);
    }
    if found.Some? {
      assert ShowsName(species, key, found.value);
      LessIsTotal(found.value, id);
    }
  }

  lemma FoldedIsFound(species: Species, key: string, id: string)
    ensures FirstWhere(SortedIds(species.Keys), IsFolded(species, key)) == Some(id) <==> LeastFolded(species, key, id)
  {
    hide Less, SortedIds, Strip, Lower, NormalizeKey;
    var found := FirstWhere(SortedIds(species.Keys), IsFolded(species, key));
    forall other | FoldsTo(species, key, other)
      ensures found.Some? && (found.value == other || Less(found.value, other))
    {
      hide FirstWhere;
      ScanFindsLeast(species, IsFolded(species, key), other);
    }
    if found.Some? {
      assert FoldsTo(species, key, found.value);
      LessIsTotal(found.value, id);
    }
  }

  /** resolve_species_record finds exactly the record the name stands for, whatever the order of the dict. */
  lemma ResolvesIff(species: Species, name: string, id: string)
    ensures ResolveSpecies(species, name) == Some(id) <==> StandsFor(species, Strip(name), id)
  {
    hide SortedIds, FirstWhere, IsNamed, IsFolded, ShowsName, FoldsTo, LeastShown, LeastFolded, Strip, NormalizeKey;
    ShownIsFound(species, Strip(name), id);
    FoldedIsFound(species, Strip(name), id);
  }

  // ---- every form of context ----------------------------------------------------------------

  predicate Held(c: Json, key: Key, value: Json) {
    c.Obj? && key in c.fields && c.fields[key] == value
  }

  predicate HeldText(c: Json, key: Key, text: Option<string>) {
    c.Obj? && key in c.fields && MaybeText(c.fields[key], text)
  }

  /** The part every context has, with its status and the rules' verdict. */
  predicate Headed(c: Json, status: string, reason: Option<string>, confirmed: Option<string>, verdict: string,
                   verdictReason: Option<string>)
  {
    && c.Obj?
    && c.fields.Keys == {VersionKey, StatusKey, ReasonKey, AuthorityKey, ConfirmedKey, ResolvedKey, CompatibilityKey,
                         SnapshotKey, PopulationKey}
    && Held(c, VersionKey, Str("maple-opponent-intel-context.v1")) && Held(c, AuthorityKey, Str("POPULATION_PRIOR"))
    && Held(c, StatusKey, Str(status)) && HeldText(c, ReasonKey, reason) && HeldText(c, ConfirmedKey, confirmed)
    && c.fields[CompatibilityKey].Obj? && c.fields[CompatibilityKey].fields.Keys == {StatusKey, ReasonKey}
    && Held(c.fields[CompatibilityKey], StatusKey, Str(verdict))
    && HeldText(c.fields[CompatibilityKey], ReasonKey, verdictReason)
  }

  predicate ClaimsNothing(c: Json) {
    Held(c, ResolvedKey, Null) && Held(c, PopulationKey, Null)
  }

  /** The identity of the snapshot a context is about: the pin's ids and the document's own header. */
  predicate Identifies(c: Json, d: SnapshotDocument, generation: Id, hash: Id, updatedAt: Option<string>) {
    && c.Obj? && SnapshotKey in c.fields
    && var s := c.fields[SnapshotKey];
       && s.Obj?
       && s.fields.Keys == {SchemaVersionKey, GenerationIdKey, SnapshotHashKey, SourceKey, SeasonKey, FormatKey,
                            FetchedAtKey, UpdatedAtKey}
       && Held(s, SchemaVersionKey, Str(d.schemaVersion)) && Held(s, GenerationIdKey, Ref(generation))
       && Held(s, SnapshotHashKey, Ref(hash)) && Held(s, SourceKey, Str(d.source)) && Held(s, SeasonKey, Str(d.season))
       && Held(s, FormatKey, Str(d.format)) && Held(s, FetchedAtKey, Str(d.fetchedAt))
       && HeldText(s, UpdatedAtKey, updatedAt)
  }

  predicate SameSeason(d: SnapshotDocument, season: string) {
    Strip(d.season) == Strip(season)
  }

  predicate SameFormat(d: SnapshotDocument, format: string) {
    Upper(Strip(d.format)) == Upper(Strip(format))
  }

  /** A list item as shown: its name, and its percentage as a number or null. */
  predicate Shows(item: Json, shown: Json) {
    && item.Obj? && NameKey in item.fields
    && shown.Obj? && shown.fields.Keys == {NameKey, PercentageKey} && Held(shown, NameKey, item.fields[NameKey])
    && if PercentageKey !in item.fields || item.fields[PercentageKey] == Null then Held(shown, PercentageKey, Null)
       else shown.fields[PercentageKey].Num? && NumberIs(item.fields[PercentageKey], shown.fields[PercentageKey].number)
  }

  predicate ShowsFirstEight(items: seq<Json>, shown: seq<Json>) {
    && |shown| == (if |items| <= 8 then |items| else 8)
    && forall k :: 0 <= k < |shown| ==> Shows(items[k], shown[k])
  }

  /** The population at a key is the first eight items of the snapshot's list at that key, in its order. */
  predicate ListShown(j: Json, population: Json, key: Key) {
    && j.Obj? && population.Obj? && key in population.fields && population.fields[key].List?
    && if key in j.fields then j.fields[key].List? && ShowsFirstEight(j.fields[key].items, population.fields[key].items)
       else population.fields[key].items == []
  }

  /** The species and population of a context are those of one species object of the snapshot's JSON. */
  predicate ShowsSpecies(c: Json, j: Json) {
    && c.Obj? && ResolvedKey in c.fields && PopulationKey in c.fields && j.Obj?
    && SpeciesIdKey in j.fields && DisplayNameKey in j.fields
    && c.fields[ResolvedKey].Obj? && c.fields[ResolvedKey].fields.Keys == {SpeciesIdKey, DisplayNameKey}
    && Held(c.fields[ResolvedKey], SpeciesIdKey, j.fields[SpeciesIdKey])
    && Held(c.fields[ResolvedKey], DisplayNameKey, j.fields[DisplayNameKey])
    && c.fields[PopulationKey].Obj?
    && c.fields[PopulationKey].fields.Keys == {CategoryKey(Moves), CategoryKey(Abilities), CategoryKey(Items),
                                               CategoryKey(Natures), CategoryKey(Partners)}
    && ListShown(j, c.fields[PopulationKey], CategoryKey(Moves))
    && ListShown(j, c.fields[PopulationKey], CategoryKey(Abilities))
    && ListShown(j, c.fields[PopulationKey], CategoryKey(Items))
    && ListShown(j, c.fields[PopulationKey], CategoryKey(Natures))
    && ListShown(j, c.fields[PopulationKey], CategoryKey(Partners))
  }

  /** A decoded document and the JSON objects it was decoded from. */
  predicate DecodedFrom(d: SnapshotDocument, raw: map<string, Json>) {
    d.species.Keys == raw.Keys && DocumentOk(d.species) && forall id :: id in raw ==> RecordSays(raw[id], d.species[id])
  }

  lemma EntryShown(item: Json, e: RankedEntry)
    requires EntrySays(item, e)
    ensures Shows(item, WriteEntry(e))
  {
    hide IsBlank;
  }

  lemma EntriesShown(j: Json, key: Key, entries: seq<RankedEntry>, population: Json)
    requires j.Obj? && ListAt(j, key, entries) && population.Obj? && key in population.fields
    requires population.fields[key] == TopEntries(entries)
    ensures ListShown(j, population, key)
  {
    hide EntrySays, WriteEntry, Shows;
    if key in j.fields {
      var items := j.fields[key].items;
      forall k | 0 <= k < |TopEntries(entries).items| ensures Shows(items[k], TopEntries(entries).items[k]) {
        EntryShown(items[k], entries[k]);
      }
    }
  }

  lemma PopulationShown(j: Json, r: SpeciesRecord, c: Json)
    requires RecordSays(j, r) && c.Obj? && ResolvedKey in c.fields && PopulationKey in c.fields
    requires c.fields[ResolvedKey] == Obj(map[SpeciesIdKey := Str(r.speciesId), DisplayNameKey := Str(r.displayName)])
    requires c.fields[PopulationKey] == WritePopulation(r)
    ensures ShowsSpecies(c, j)
  {
    hide ListAt, ListShown, TopEntries, IsBlank;
    var p := c.fields[PopulationKey];
    EntriesShown(j, CategoryKey(Moves), r.ranked[Moves], p);
    EntriesShown(j, CategoryKey(Abilities), r.ranked[Abilities], p);
    EntriesShown(j, CategoryKey(Items), r.ranked[Items], p);
    EntriesShown(j, CategoryKey(Natures), r.ranked[Natures], p);
    EntriesShown(j, CategoryKey(Partners), r.ranked[Partners], p);
  }

  lemma WrittenIsHeaded(status: string, reason: Option<string>, confirmed: Option<string>, resolved: Json,
                        verdict: (string, Option<string>), snapshot: Json, population: Json)
    ensures var c := WriteContext(status, reason, confirmed, resolved, verdict, snapshot, population);
            && Headed(c, status, reason, confirmed, verdict.0, verdict.1)
            && Held(c, ResolvedKey, resolved) && Held(c, SnapshotKey, snapshot) && Held(c, PopulationKey, population)
  {
    ContextFields(status, reason, confirmed, resolved, verdict, snapshot, population);
  }

  lemma WrittenIdentifies(c: Json, d: SnapshotDocument, generation: Id, hash: Id, updatedAt: Option<string>)
    requires Held(c, SnapshotKey, WriteIdentity(d, generation, hash, updatedAt))
    ensures Identifies(c, d, generation, hash, updatedAt)
  {
  }

  lemma VerdictIs(d: SnapshotDocument, season: string, format: string)
    ensures Compatibility(d, season, format) ==
            if !SameSeason(d, season) then ("MISMATCHED", Some("SEASON_MISMATCH"))
            else if !SameFormat(d, format) then ("MISMATCHED", Some("FORMAT_MISMATCH"))
            else ("MATCHED", None)
    ensures "MATCHED" != "MISMATCHED"
  {
    hide Strip, Upper;
    assert |"MATCHED"| != |"MISMATCHED"|;
  }

  predicate Unconfirmed(confirmed: Option<string>) {
    confirmed == None || confirmed == Some("") || confirmed == Some("UNKNOWN")
  }

  /** The five ways to claim nothing, each with its own reason. */
  predicate Soft(c: Json, confirmed: Option<string>, pin: Records.IntelPin, d: SnapshotDocument, season: string,
                 format: string)
    requires pin.Pinned?
  {
    && ClaimsNothing(c) && Identifies(c, d, pin.generation, pin.snapshotHash, None)
    && if !SameSeason(d, season) then
         Headed(c, "MISMATCHED", Some("COMPATIBILITY_MISMATCHED"), confirmed, "MISMATCHED", Some("SEASON_MISMATCH"))
       else if !SameFormat(d, format) then
         Headed(c, "MISMATCHED", Some("COMPATIBILITY_MISMATCHED"), confirmed, "MISMATCHED", Some("FORMAT_MISMATCH"))
       else if Unconfirmed(confirmed) then
         Headed(c, "UNAVAILABLE", Some("OPPONENT_ACTIVE_NOT_CONFIRMED"), confirmed, "MATCHED", None)
       else Headed(c, "UNAVAILABLE", Some("SPECIES_NOT_IN_SNAPSHOT"), confirmed, "MATCHED", None)
  }

  /** Population is claimed for one species object of the snapshot, which the confirmed name stands for. */
  ghost predicate Claims(c: Json, confirmed: string, pin: Records.IntelPin, d: SnapshotDocument, id: string, j: Json)
    requires pin.Pinned?
  {
    && StandsFor(d.species, Strip(confirmed), id) && ShowsSpecies(c, j)
    && Headed(c, "AVAILABLE", None, Some(confirmed), "MATCHED", None)
    && Identifies(c, d, pin.generation, pin.snapshotHash, d.species[id].sourceUpdatedAt)
  }

  lemma UnpinnedSays(confirmed: Option<string>, archived: Option<Archived>, season: string, format: string, c: Json)
    requires archived.Some? ==> DocumentOk(archived.value.document.species)
    requires BuildContext(confirmed, Records.PinUnavailable, archived, season, format) == Success(c)
    ensures Headed(c, "UNAVAILABLE", Some("INTEL_PIN_UNAVAILABLE"), confirmed, "UNAVAILABLE",
                   Some("INTEL_PIN_UNAVAILABLE"))
    ensures ClaimsNothing(c) && Held(c, SnapshotKey, Null)
  {
    hide WriteContext, Headed, DocumentOk;
    WrittenIsHeaded("UNAVAILABLE", Some("INTEL_PIN_UNAVAILABLE"), confirmed, Null,
                    ("UNAVAILABLE", Some("INTEL_PIN_UNAVAILABLE")), Null, Null);
  }

  lemma SoftSays(confirmed: Option<string>, pin: Records.IntelPin, archived: Option<Archived>, season: string,
                 format: string, c: Json)
    requires pin.Pinned? && archived.Some? && DocumentOk(archived.value.document.species)
    requires BuildContext(confirmed, pin, archived, season, format) == Success(c)
    requires var d := archived.value.document;
             || !SameSeason(d, season) || !SameFormat(d, format) || Unconfirmed(confirmed)
             || ResolveSpecies(d.species, confirmed.value).None?
    ensures Soft(c, confirmed, pin, archived.value.document, season, format)
  {
    hide WriteContext, WriteIdentity, Headed, Identifies, Compatibility, SameSeason, SameFormat;
    hide ResolveSpecies, DocumentOk;
    var d := archived.value.document;
    var identity := WriteIdentity(d, pin.generation, pin.snapshotHash, None);
    var verdict := Compatibility(d, season, format);
    VerdictIs(d, season, format);
    WrittenIsHeaded("MISMATCHED", Some("COMPATIBILITY_MISMATCHED"), confirmed, Null, verdict, identity, Null);
    WrittenIsHeaded("UNAVAILABLE", Some("OPPONENT_ACTIVE_NOT_CONFIRMED"), confirmed, Null, verdict, identity, Null);
    WrittenIsHeaded("UNAVAILABLE", Some("SPECIES_NOT_IN_SNAPSHOT"), confirmed, Null, verdict, identity, Null);
    WrittenIdentifies(c, d, pin.generation, pin.snapshotHash, None);
  }

  lemma ClaimSays(confirmed: string, pin: Records.IntelPin, archived: Option<Archived>, season: string,
                  format: string, raw: map<string, Json>, c: Json, id: string)
    requires pin.Pinned? && archived.Some? && DecodedFrom(archived.value.document, raw)
    requires BuildContext(Some(confirmed), pin, archived, season, format) == Success(c)
    requires SameSeason(archived.value.document, season) && SameFormat(archived.value.document, format)
    requires !Unconfirmed(Some(confirmed)) && ResolveSpecies(archived.value.document.species, confirmed) == Some(id)
    ensures id in raw && Claims(c, confirmed, pin, archived.value.document, id, raw[id])
  {
    hide WriteContext, WriteIdentity, WritePopulation, Headed, Identifies, Compatibility, SameSeason, SameFormat;
    hide ResolveSpecies, StandsFor, ShowsSpecies, DocumentOk, RecordSays;
    var d := archived.value.document;
    var r := d.species[id];
    var identity := WriteIdentity(d, pin.generation, pin.snapshotHash, r.sourceUpdatedAt);
    VerdictIs(d, season, format);
    RecordOfDocument(d.species, id);
    ResolvesIff(d.species, confirmed, id);
    var resolved := Obj(map[SpeciesIdKey := Str(r.speciesId), DisplayNameKey := Str(r.displayName)]);
    WrittenIsHeaded("AVAILABLE", None, Some(confirmed), resolved, ("MATCHED", None), identity, WritePopulation(r));
    WrittenIdentifies(c, d, pin.generation, pin.snapshotHash, r.sourceUpdatedAt);
    PopulationShown(raw[id], r, c);
  }

  /**
   Every context is one of six forms. It claims population exactly when the match is pinned, season and format are
   the rules' and the confirmed name stands for a species of the snapshot; what it then shows at each category is the
   first eight items of that species' own JSON list.
   */
  lemma ContextSays(confirmed: Option<string>, pin: Records.IntelPin, archived: Option<Archived>, season: string,
                    format: string, raw: map<string, Json>, c: Json)
    requires archived.Some? ==> DecodedFrom(archived.value.document, raw)
    requires BuildContext(confirmed, pin, archived, season, format) == Success(c)
    ensures pin.PinUnavailable? ==>
              && Headed(c, "UNAVAILABLE", Some("INTEL_PIN_UNAVAILABLE"), confirmed, "UNAVAILABLE",
                        Some("INTEL_PIN_UNAVAILABLE"))
              && ClaimsNothing(c) && Held(c, SnapshotKey, Null)
    ensures pin.Pinned? ==>
              && archived.Some? && archived.value.generation == pin.generation
              && archived.value.hash == pin.snapshotHash
              && var d := archived.value.document;
                 if SameSeason(d, season) && SameFormat(d, format) && !Unconfirmed(confirmed)
                    && exists id :: StandsFor(d.species, Strip(confirmed.value), id)
                 then exists id :: id in raw && Claims(c, confirmed.value, pin, d, id, raw[id])
                 else Soft(c, confirmed, pin, d, season, format)
  {
    hide SameSeason, SameFormat, ResolveSpecies, StandsFor, Claims, Soft, Headed, BuildContext, ClaimsNothing;
    hide RecordSays;
    BuilderFailsIff(confirmed, pin, archived, season, format);
    if pin.PinUnavailable? {
      UnpinnedSays(confirmed, archived, season, format, c);
    } else {
      var d := archived.value.document;
      if confirmed.Some? {
        forall id ensures ResolveSpecies(d.species, confirmed.value) == Some(id) <==>
                            StandsFor(d.species, Strip(confirmed.value), id) {
          ResolvesIff(d.species, confirmed.value, id);
        }
      }
      if !SameSeason(d, season) || !SameFormat(d, format) || Unconfirmed(confirmed)
         || ResolveSpecies(d.species, confirmed.value).None?
      {
        SoftSays(confirmed, pin, archived, season, format, c);
      } else {
        var id := ResolveSpecies(d.species, confirmed.value).value;
        ClaimSays(confirmed.value, pin, archived, season, format, raw, c, id);
      }
    }
  }

  // ---- what a checked context may hold ------------------------------------------------------

  predicate HoldsText(j: Json, key: Key) {
    j.Obj? && key in j.fields && j.fields[key].Str? && !IsBlank(j.fields[key].text)
  }

  predicate EntryShaped(e: Json) {
    && e.Obj? && e.fields.Keys == {NameKey, PercentageKey} && HoldsText(e, NameKey)
    && (e.fields[PercentageKey] == Null
        || (e.fields[PercentageKey].Num? && 0.0 <= e.fields[PercentageKey].number <= 100.0))
  }

  predicate ListShaped(population: Json, key: Key) {
    && population.Obj? && key in population.fields && population.fields[key].List?
    && |population.fields[key].items| <= 8
    && forall k :: 0 <= k < |population.fields[key].items| ==> EntryShaped(population.fields[key].items[k])
  }

  predicate PopulationShaped(population: Json) {
    && population.Obj?
    && population.fields.Keys == {CategoryKey(Moves), CategoryKey(Abilities), CategoryKey(Items), CategoryKey(Natures),
                                  CategoryKey(Partners)}
    && ListShaped(population, CategoryKey(Moves)) && ListShaped(population, CategoryKey(Abilities))
    && ListShaped(population, CategoryKey(Items)) && ListShaped(population, CategoryKey(Natures))
    && ListShaped(population, CategoryKey(Partners))
  }

  /** Python's falsy values are no identity. */
  predicate NamesGeneration(snapshot: Json) {
    && snapshot.Obj? && GenerationIdKey in snapshot.fields
    && snapshot.fields[GenerationIdKey] !in
         [Null, Flag(false), Num(0.0), Str(""), List([]), Obj(map[])]
  }

  /** A name means a species when it equals its id up to case, blanks and hyphens, or its display name up to case. */
  predicate Means(name: string, speciesId: string, displayName: string) {
    && Strip(name) != "" && Strip(name) != "UNKNOWN"
    && (|| NormalizeKey(name) == NormalizeKey(speciesId)
        || (Strip(displayName) != "" && Lower(Strip(name)) == Lower(Strip(displayName))))
  }

  /** species_identity_matches asks in five steps what these two equalities say. */
  lemma IdentityMatchesIff(name: string, speciesId: string, displayName: string)
    ensures IdentityMatches(name, speciesId, displayName) <==> Means(name, speciesId, displayName)
  {
    NormalizeTwice(name);
    NormalizeTwice(speciesId);
    hide NormalizeKey, Strip, Lower;
  }

  /** A context that claims a species proves the claim: it names the confirmed species and the snapshot behind it. */
  predicate ClaimShaped(c: Json)
    requires c.Obj? && c.fields.Keys == CONTEXT_KEYS && c.fields[CompatibilityKey].Obj?
  {
    && Held(c.fields[CompatibilityKey], StatusKey, Str("MATCHED")) && Held(c, ReasonKey, Null)
    && HoldsText(c, ConfirmedKey) && c.fields[ResolvedKey].Obj?
    && c.fields[ResolvedKey].fields.Keys == {SpeciesIdKey, DisplayNameKey}
    && HoldsText(c.fields[ResolvedKey], SpeciesIdKey) && HoldsText(c.fields[ResolvedKey], DisplayNameKey)
    && Means(c.fields[ConfirmedKey].text, c.fields[ResolvedKey].fields[SpeciesIdKey].text,
             c.fields[ResolvedKey].fields[DisplayNameKey].text)
    && NamesGeneration(c.fields[SnapshotKey]) && PopulationShaped(c.fields[PopulationKey])
  }

  predicate ContextShaped(c: Json) {
    && c.Obj?
    && c.fields.Keys == {VersionKey, StatusKey, ReasonKey, AuthorityKey, ConfirmedKey, ResolvedKey, CompatibilityKey,
                         SnapshotKey, PopulationKey}
    && Held(c, VersionKey, Str("maple-opponent-intel-context.v1")) && Held(c, AuthorityKey, Str("POPULATION_PRIOR"))
    && c.fields[CompatibilityKey].Obj? && c.fields[CompatibilityKey].fields.Keys == {StatusKey, ReasonKey}
    && c.fields[CompatibilityKey].fields[StatusKey] in [Str("MATCHED"), Str("MISMATCHED"), Str("UNAVAILABLE")]
    && (|| (Held(c, StatusKey, Str("AVAILABLE")) && ClaimShaped(c))
        || (c.fields[StatusKey] in [Str("UNAVAILABLE"), Str("MISMATCHED")] && ClaimsNothing(c)))
  }

  lemma EntryPassesIff(e: Json)
    ensures ValidateEntry(e).Pass? <==> EntryShaped(e)
  {
    hide IsBlank;
  }

  lemma {:induction false} ItemsPassIff(items: seq<Json>)
    ensures ValidateItems(items).Pass? <==> forall k :: 0 <= k < |items| ==> EntryShaped(items[k])
  {
    hide ValidateEntry, EntryShaped;
    if items != [] {
      EntryPassesIff(items[0]);
      ItemsPassIff(items[1..]);
      assert forall k :: 1 <= k < |items| ==> items[k] == items[1..][k - 1];
    }
  }

  lemma ListPassesIff(population: Json, key: Key)
    requires population.Obj? && key in population.fields
    ensures ValidateEntries(population.fields[key]).Pass? <==> ListShaped(population, key)
  {
    hide EntryShaped, ValidateItems;
    if population.fields[key].List? {
      ItemsPassIff(population.fields[key].items);
    }
  }

  lemma NextCategoryPassesIff(population: Json, c: Category, rest: seq<Category>)
    requires population.Obj? && CategoryKey(c) in population.fields
    requires forall k :: 0 <= k < |rest| ==> CategoryKey(rest[k]) in population.fields
    ensures ValidateCategories(population, [c] + rest).Pass? <==>
              ListShaped(population, CategoryKey(c)) && ValidateCategories(population, rest).Pass?
  {
    hide ListShaped, ValidateEntries;
    ListPassesIff(population, CategoryKey(c));
    assert ([c] + rest)[1..] == rest;
  }

  lemma CategoriesPassIff(population: Json)
    requires population.Obj? && population.fields.Keys == CATEGORY_KEYS
    ensures ValidateCategories(population, [Moves, Abilities, Items, Natures, Partners]).Pass? <==>
              PopulationShaped(population)
  {
    hide ListShaped, ValidateEntries;
    assert ValidateCategories(population, []).Pass?;
    hide ValidateCategories;
    NextCategoryPassesIff(population, Partners, []);
    assert [Partners] + [] == [Partners];
    NextCategoryPassesIff(population, Natures, [Partners]);
    assert [Natures] + [Partners] == [Natures, Partners];
    NextCategoryPassesIff(population, Items, [Natures, Partners]);
    assert [Items] + [Natures, Partners] == [Items, Natures, Partners];
    NextCategoryPassesIff(population, Abilities, [Items, Natures, Partners]);
    assert [Abilities] + [Items, Natures, Partners] == [Abilities, Items, Natures, Partners];
    NextCategoryPassesIff(population, Moves, [Abilities, Items, Natures, Partners]);
    assert [Moves] + [Abilities, Items, Natures, Partners] == [Moves, Abilities, Items, Natures, Partners];
  }

  lemma ClaimPassesIff(c: Json)
    requires c.Obj? && c.fields.Keys == CONTEXT_KEYS && c.fields[CompatibilityKey].Obj?
    requires StatusKey in c.fields[CompatibilityKey].fields
    ensures ValidateAvailable(c).Pass? <==> ClaimShaped(c)
  {
    hide IsBlank, IdentityMatches, Means, ValidateCategories, ListShaped;
    var population, resolved := c.fields[PopulationKey], c.fields[ResolvedKey];
    if c.fields[ConfirmedKey].Str? && HoldsText(resolved, SpeciesIdKey) && HoldsText(resolved, DisplayNameKey) {
      IdentityMatchesIff(c.fields[ConfirmedKey].text, resolved.fields[SpeciesIdKey].text,
                         resolved.fields[DisplayNameKey].text);
    }
    if population.Obj? && population.fields.Keys == CATEGORY_KEYS {
      CategoriesPassIff(population);
    }
  }

  lemma StatusesDiffer()
    ensures "AVAILABLE" != "UNAVAILABLE" && "AVAILABLE" != "MISMATCHED"
  {
    assert |"AVAILABLE"| == 9 && |"UNAVAILABLE"| == 11 && |"MISMATCHED"| == 10;
  }

  /** The check at the provider boundary passes exactly the contexts of this shape. */
  lemma ContextPassesIff(c: Json)
    ensures ValidateContext(c).Pass? <==> ContextShaped(c)
  {
    hide ValidateAvailable, ClaimShaped;
    StatusesDiffer();
    if c.Obj? && c.fields.Keys == CONTEXT_KEYS && c.fields[CompatibilityKey].Obj?
       && StatusKey in c.fields[CompatibilityKey].fields
    {
      ClaimPassesIff(c);
    }
  }

  // ---- from the pinned file to the request --------------------------------------------------

  /** The JSON objects of the snapshot file a pin names. */
  function PinnedSpecies(codec: Codec, generations: map<Id, Folder>, id: Id): map<string, Json> {
    var read := ReadGeneration(generations, id);
    if read.Success? && codec.snapshot(read.value.snapshot).Some? then codec.snapshot(read.value.snapshot).value.species
    else map[]
  }

  lemma LoadedFromFile(codec: Codec, generations: map<Id, Folder>, id: Id)
    requires Loaded(codec, generations, id).Some?
    ensures DecodedFrom(Loaded(codec, generations, id).value.document, PinnedSpecies(codec, generations, id))
  {
    hide RecordOk, RecordSays, DecodeRecord, NormalizeKey, CatalogFits, DocumentOk;
    LoadedIsSound(codec, generations, id);
    var raw := PinnedSpecies(codec, generations, id);
    forall key | key in raw ensures RecordSays(raw[key], Loaded(codec, generations, id).value.document.species[key]) {
      assert EntryDecodes(raw, key);
      DecodedRecordIsOk(raw[key]);
    }
  }

  /** A request's population is read off the file its match pinned: the first eight of each list of that species. */
  lemma LoadedContextShowsFile(codec: Codec, generations: map<Id, Folder>, pin: Records.IntelPin,
                               confirmed: Option<string>, rules: Rules, c: Json)
    requires LoadContext(codec, generations, pin, confirmed, rules) == Success(c)
    requires Held(c, StatusKey, Str("AVAILABLE"))
    ensures pin.Pinned? && confirmed.Some? && Loaded(codec, generations, pin.generation).Some?
    ensures var raw := PinnedSpecies(codec, generations, pin.generation);
            var d := Loaded(codec, generations, pin.generation).value.document;
            exists id :: id in raw && Claims(c, confirmed.value, pin, d, id, raw[id])
  {
    hide Loaded, PinnedSpecies, BuildContext, DecodedFrom, Claims, StandsFor, SameSeason, SameFormat, Identifies;
    hide ClaimsNothing, DocumentOk;
    StatusesDiffer();
    var at := if pin.Pinned? then pin.generation else 0;
    LoadedIsSound(codec, generations, at);
    var archived := if pin.Pinned? then Loaded(codec, generations, pin.generation) else None;
    var raw := if pin.Pinned? then PinnedSpecies(codec, generations, pin.generation) else map[];
    if archived.Some? {
      LoadedFromFile(codec, generations, pin.generation);
    }
    ContextSays(confirmed, pin, archived, rules.season, rules.format, raw, c);
  }
}
