/**
 The discovery-completeness proof (opponent_intel_db/discovery.py:70-293): following a site's pages and claiming
 COMPLETE only on a positive terminal proof. Pages and urls are abstract; a url carries its own page number.
 */
module Discovery {
  import opened Basics

  const MAX_PAGES: nat := 50

  datatype Url = Url(address: Id, page: Option<nat>)

  datatype Entry = Entry(species: Id, rank: Option<int>)

  /** One response: `entries` is None when the list does not parse. */
  datatype Page = Page(wellFormed: bool, entries: Option<seq<Entry>>, total: Option<nat>, last: Option<int>,
                       next: Option<Url>)

  /** A url outside the map is one whose fetch fails. */
  type Site = map<Url, Page>

  datatype Status = Complete | Incomplete | Unprovable

  datatype Reason = NoReason | ExceededMaxPages | DuplicatePage | FetchFailed | NotWellFormed | Unparsable
    | ConflictingTotal | InvalidLastPage | ConflictingLastPage | TerminatedEarly | DuplicateSpecies | TotalMismatch
    | MissingSiteRank | RanksNotContiguous | CoverageMismatch | NoTerminalProof

  datatype Outcome = Outcome(status: Status, entries: seq<Entry>, pagesVisited: nat, reason: Reason)

  // ---- the proof, declaratively -------------------------------------------------------------

  predicate PageOk(site: Site, url: Url) {
    url in site && site[url].wellFormed && site[url].entries.Some?
  }

  predicate PagesOk(site: Site, v: seq<Url>) {
    forall k :: 0 <= k < |v| ==> v[k] in site && site[v[k]].wellFormed && site[v[k]].entries.Some?
  }

  predicate DistinctUrls(v: seq<Url>) {
    forall i, j :: 0 <= i < j < |v| ==> v[i] != v[j]
  }

  /** The pages from `start`, each reached by the one before it, all readable, none twice. */
  predicate Path(site: Site, start: Url, v: seq<Url>) {
    && (v != [] ==> v[0] == start) && DistinctUrls(v) && |v| <= 50
    && PagesOk(site, v) && (forall k :: 0 < k < |v| ==> site[v[k - 1]].next == Some(v[k]))
  }

  predicate Trace(site: Site, start: Url, v: seq<Url>) {
    v != [] && Path(site, start, v) && site[v[|v| - 1]].next == None
  }

  function EntriesOf(site: Site, v: seq<Url>): seq<Entry>
    requires PagesOk(site, v)
  {
    if v == [] then []
    else EntriesOf(site, v[..|v| - 1]) + site[v[|v| - 1]].entries.value
  }

  /** `total` is what every page that advertises a total advertises, or None when none does. */
  predicate TotalIs(site: Site, v: seq<Url>, total: Option<nat>)
    requires PagesOk(site, v)
  {
    && (forall k :: 0 <= k < |v| && site[v[k]].total.Some? ==> site[v[k]].total == total)
    && (total.Some? ==> exists k :: 0 <= k < |v| && site[v[k]].total == total)
  }

  predicate LastIs(site: Site, v: seq<Url>, last: Option<int>)
    requires PagesOk(site, v)
  {
    && (forall k :: 0 <= k < |v| && site[v[k]].last.Some? ==> site[v[k]].last == last)
    && (last.Some? ==> last.value >= 1 && exists k :: 0 <= k < |v| && site[v[k]].last == last)
  }

  predicate DistinctSpecies(s: seq<Entry>) {
    forall i, j :: 0 <= i < j < |s| ==> s[i].species != s[j].species
  }

  /** Either no entry has a site rank, or the ranks are 1..N, each once. */
  predicate RanksOk(s: seq<Entry>) {
    || (forall k :: 0 <= k < |s| ==> s[k].rank.None?)
    || ((forall k :: 0 <= k < |s| ==> s[k].rank.Some? && 1 <= s[k].rank.value <= |s|)
        && DistinctRanks(s))
  }

  predicate PagesAre(v: seq<Url>, last: int) {
    |v| == last && forall k :: 0 <= k < |v| ==> v[k].page == Some(k + 1)
  }

  /** A positive terminal proof that the traversal `v` saw every page or every species. */
  predicate Proven(site: Site, start: Url, v: seq<Url>, total: Option<nat>, last: Option<int>) {
    && Trace(site, start, v) && TotalIs(site, v, total) && LastIs(site, v, last)
    && DistinctSpecies(EntriesOf(site, v)) && RanksOk(EntriesOf(site, v))
    && (total.Some? ==> total.value == |EntriesOf(site, v)|)
    && (last.Some? ==> PagesAre(v, last.value))
    && (total.Some? || last.Some?)
  }

  ghost predicate Provable(site: Site, start: Url) {
    exists v, total, last :: Proven(site, start, v, total, last)
  }

  // ---- what the proof is worth --------------------------------------------------------------

  function Species(s: seq<Entry>): set<Id> {
    set k | 0 <= k < |s| :: s[k].species
  }

  /** The site lists no species it does not have. */
  predicate ListsOnly(site: Site, species: set<Id>) {
    forall url :: url in site && site[url].entries.Some? ==> Species(site[url].entries.value) <= species
  }

  predicate TotalsTrue(site: Site, species: set<Id>) {
    forall url :: url in site && site[url].total.Some? ==> site[url].total.value == |species|
  }

  /** Pages 1..last hold every species, whichever url shows a page of that number. */
  predicate OnPage(site: Site, n: int, x: Id) {
    forall url :: url in site && url.page == Some(n) && site[url].entries.Some? ==> x in Species(site[url].entries.value)
  }

  predicate LastsTrue(site: Site, species: set<Id>) {
    forall url, x :: url in site && site[url].last.Some? && x in species ==>
      exists n :: 1 <= n <= site[url].last.value && OnPage(site, n, x)
  }

  lemma {:induction false} OnlyListed(site: Site, v: seq<Url>, species: set<Id>)
    requires PagesOk(site, v) && ListsOnly(site, species)
    ensures Species(EntriesOf(site, v)) <= species
  {
    if v != [] {
      var n := |v| - 1;
      OnlyListed(site, v[..n], species);
      var init, last := EntriesOf(site, v[..n]), site[v[n]].entries.value;
      var all: seq<Entry> := init + last;
      forall k | 0 <= k < |all| ensures all[k].species in species {
        if k < |init| {
          assert init[k].species in Species(init);
        } else {
          assert last[k - |init|].species in Species(last);
        }
      }
    }
  }

  lemma {:induction false} Contains(site: Site, v: seq<Url>, k: nat, x: Id)
    requires PagesOk(site, v) && k < |v|
    requires x in Species(site[v[k]].entries.value)
    ensures x in Species(EntriesOf(site, v))
  {
    var n := |v| - 1;
    var init, last := EntriesOf(site, v[..n]), site[v[n]].entries.value;
    if k < n {
      Contains(site, v[..n], k, x);
      var j :| 0 <= j < |init| && init[j].species == x;
      assert (init + last)[j].species == x;
    } else {
      var j :| 0 <= j < |last| && last[j].species == x;
      assert (init + last)[|init| + j].species == x;
    }
  }

  lemma {:induction false} CountDistinct(s: seq<Entry>)
    requires DistinctSpecies(s)
    ensures |Species(s)| == |s|
  {
    if s != [] {
      var n := |s| - 1;
      CountDistinct(s[..n]);
      assert Species(s) == Species(s[..n]) + {s[n].species};
      assert s[n].species !in Species(s[..n]);
    }
  }

  lemma {:induction false} EntriesOfFirst(site: Site, v: seq<Url>, k: nat)
    requires PagesOk(site, v) && k <= |v|
    ensures EntriesOf(site, v[..k]) <= EntriesOf(site, v)
  {
    if k == |v| {
      assert v[..k] == v;
    } else {
      EntriesOfFirst(site, v[..|v| - 1], k);
      assert v[..|v| - 1][..k] == v[..k];
    }
  }

  /** The entries of a traversal are its pages' entries in page order, each page's as the page lists them. */
  lemma EntriesInOrder(site: Site, v: seq<Url>, k: nat)
    requires PagesOk(site, v) && k < |v|
    ensures EntriesOf(site, v[..k]) + site[v[k]].entries.value <= EntriesOf(site, v)
    ensures |EntriesOf(site, v[..k + 1])| == |EntriesOf(site, v[..k])| + |site[v[k]].entries.value|
    ensures EntriesOf(site, []) == [] && EntriesOf(site, v[..|v|]) == EntriesOf(site, v)
  {
    EntriesOfFirst(site, v, k + 1);
    assert v[..k + 1][..k] == v[..k] && v[..|v|] == v;
  }

  lemma FullSubset<T>(a: set<T>, b: set<T>)
    requires a <= b && |a| == |b|
    ensures a == b
  {
    if a != b {
      var x :| x in b && x !in a;
      assert a <= b - {x};
      SubsetSize(a, b - {x});
    }
  }

  lemma {:induction false} SubsetSize<T>(a: set<T>, b: set<T>)
    requires a <= b
    ensures |a| <= |b|
    decreases |a|
  {
    if a != {} {
      var x :| x in a;
      SubsetSize(a - {x}, b - {x});
    }
  }

  /** A proven traversal of a site that is truthful about what proves it holds exactly the site's species. */
  lemma ProvenIsExact(site: Site, start: Url, v: seq<Url>, total: Option<nat>, last: Option<int>, species: set<Id>)
    requires Proven(site, start, v, total, last) && ListsOnly(site, species)
    requires (total.Some? && TotalsTrue(site, species)) || (last.Some? && LastsTrue(site, species))
    ensures DistinctSpecies(EntriesOf(site, v)) && Species(EntriesOf(site, v)) == species
  {
    var s := EntriesOf(site, v);
    OnlyListed(site, v, species);
    if total.Some? && TotalsTrue(site, species) {
      CountDistinct(s);
      FullSubset(Species(s), species);
    } else {
      var k :| 0 <= k < |v| && site[v[k]].last == last;
      forall x | x in species ensures x in Species(s) {
        var n :| 1 <= n <= last.value && OnPage(site, n, x);
        Contains(site, v, n - 1, x);
      }
    }
  }

  // ---- the checks after the traversal -------------------------------------------------------

  /** No earlier entry is of the same species. */
  predicate IsFirst(entries: seq<Entry>, k: nat)
    requires k < |entries|
  {
    forall j :: 0 <= j < k ==> entries[j].species != entries[k].species
  }

  predicate Picks(entries: seq<Entry>, kept: seq<nat>, result: seq<Entry>) {
    && |kept| == |result| && (forall k :: 0 <= k < |kept| ==> kept[k] < |entries| && result[k] == entries[kept[k]])
    && (forall i, j :: 0 <= i < j < |kept| ==> kept[i] < kept[j])
    && (forall k :: 0 <= k < |entries| ==> (k in kept <==> IsFirst(entries, k)))
  }

  lemma PicksNext(entries: seq<Entry>, kept: seq<nat>, result: seq<Entry>, e: Entry)
    requires Picks(entries, kept, result)
    ensures e.species in Species(entries) ==> Picks(entries + [e], kept, result)
    ensures e.species !in Species(entries) ==> Picks(entries + [e], kept + [|entries|], result + [e])
  {
    var all := entries + [e];
    forall k | 0 <= k < |entries| ensures IsFirst(all, k) <==> IsFirst(entries, k) {
      assert forall j :: 0 <= j <= k ==> all[j] == entries[j];
    }
    assert IsFirst(all, |entries|) <==> e.species !in Species(entries) by {
      assert forall j :: 0 <= j < |entries| ==> all[j] == entries[j];
    }
  }

  /** _dedup_preserving_order: of every species the first entry, in order. */
  method Dedup(entries: seq<Entry>) returns (result: seq<Entry>, hadDuplicate: bool, ghost kept: seq<nat>)
    ensures hadDuplicate <==> !DistinctSpecies(entries)
    ensures Picks(entries, kept, result)
    ensures !hadDuplicate ==> result == entries
  {
    hide Picks, IsFirst, Species, DistinctSpecies;
    var seen: set<Id> := {};
    result, hadDuplicate, kept := [], false, [];
    NothingPicked();
    var k := 0;
    while k < |entries|
      invariant 0 <= k <= |entries| && seen == Species(entries[..k])
      invariant hadDuplicate <==> !DistinctSpecies(entries[..k])
      invariant !hadDuplicate ==> result == entries[..k]
      invariant Picks(entries[..k], kept, result)
    {
      assert entries[..k + 1] == entries[..k] + [entries[k]];
      OneMoreSpecies(entries[..k], entries[k]);
      PicksNext(entries[..k], kept, result, entries[k]);
      if entries[k].species in seen {
        hadDuplicate := true;
      } else {
        seen := seen + {entries[k].species};
        result, kept := result + [entries[k]], kept + [k];
      }
      k := k + 1;
    }
    assert entries[..k] == entries;
  }

  lemma NothingPicked()
    ensures Picks([], [], []) && Species([]) == {} && DistinctSpecies([])
  {
  }

  lemma OneMoreSpecies(s: seq<Entry>, e: Entry)
    ensures DistinctSpecies(s + [e]) <==> DistinctSpecies(s) && e.species !in Species(s)
    ensures Species(s + [e]) == Species(s) + {e.species}
  {
    var all: seq<Entry> := s + [e];
    assert all[|s|] == e && forall k :: 0 <= k < |s| ==> all[k] == s[k];
  }

  function Ranks(s: seq<Entry>): set<int>
    requires forall k :: 0 <= k < |s| ==> s[k].rank.Some?
  {
    set k | 0 <= k < |s| :: s[k].rank.value
  }

  function OneTo(n: nat): (r: set<int>)
    ensures forall k :: k in r <==> 1 <= k <= n
  {
    if n == 0 then {} else OneTo(n - 1) + {n}
  }

  lemma {:induction false} OneToSize(n: nat)
    ensures |OneTo(n)| == n
  {
    if n > 0 {
      OneToSize(n - 1);
    }
  }

  predicate DistinctRanks(s: seq<Entry>) {
    forall i, j :: 0 <= i < j < |s| ==> s[i].rank != s[j].rank
  }

  lemma {:induction false} RanksSize(s: seq<Entry>)
    requires forall k :: 0 <= k < |s| ==> s[k].rank.Some?
    ensures |Ranks(s)| <= |s| && (|Ranks(s)| == |s| <==> DistinctRanks(s))
  {
    if s != [] {
      var n := |s| - 1;
      var init, rank := s[..n], s[n].rank.value;
      RanksSize(init);
      assert Ranks(s) == Ranks(init) + {rank};
      LastRank(s);
    }
  }

  lemma LastRank(s: seq<Entry>)
    requires s != [] && forall k :: 0 <= k < |s| ==> s[k].rank.Some?
    ensures DistinctRanks(s) <==>
              DistinctRanks(s[..|s| - 1]) && s[|s| - 1].rank.value !in Ranks(s[..|s| - 1])
  {
    var n := |s| - 1;
    if s[n].rank.value in Ranks(s[..n]) {
      var k :| 0 <= k < n && s[..n][k].rank.value == s[n].rank.value;
      assert s[k].rank == s[n].rank;
    } else {
      forall k | 0 <= k < n ensures s[k].rank != s[n].rank {
        assert s[..n][k].rank.value in Ranks(s[..n]);
      }
    }
  }

  /** The ranks are 1..N, each once, exactly when their set is {1, .., N}. */
  lemma RanksAreOneTo(s: seq<Entry>)
    requires forall k :: 0 <= k < |s| ==> s[k].rank.Some?
    ensures Ranks(s) == OneTo(|s|) <==> (forall k :: 0 <= k < |s| ==> 1 <= s[k].rank.value <= |s|) && DistinctRanks(s)
  {
    OneToSize(|s|);
    RanksSize(s);
    if Ranks(s) == OneTo(|s|) {
      forall k | 0 <= k < |s| ensures 1 <= s[k].rank.value <= |s| {
        assert s[k].rank.value in Ranks(s);
      }
    }
    if (forall k :: 0 <= k < |s| ==> 1 <= s[k].rank.value <= |s|) && DistinctRanks(s) {
      FullSubset(Ranks(s), OneTo(|s|));
    }
  }

  /** _check_rank_sequence: NoReason when the ranks prove contiguous or there are none at all. */
  method CheckRanks(entries: seq<Entry>) returns (r: Reason)
    ensures r == NoReason <==> RanksOk(entries)
  {
    var ranked, actual: set<int>, k := 0, {}, 0;
    while k < |entries|
      invariant 0 <= k <= |entries| && 0 <= ranked <= k
      invariant ranked == 0 <==> forall j :: 0 <= j < k ==> entries[j].rank.None?
      invariant ranked == k <==> forall j :: 0 <= j < k ==> entries[j].rank.Some?
      invariant ranked == k ==> actual == Ranks(entries[..k])
    {
      assert entries[..k + 1] == entries[..k] + [entries[k]];
      if entries[k].rank.Some? {
        ranked := ranked + 1;
        actual := actual + {entries[k].rank.value};
        assert ranked == k + 1 ==> Ranks(entries[..k + 1]) == Ranks(entries[..k]) + {entries[k].rank.value};
      }
      k := k + 1;
    }
    assert entries[..k] == entries;
    if ranked == 0 {
      return NoReason;
    }
    if ranked != |entries| {
      return MissingSiteRank;
    }
    RanksAreOneTo(entries);
    return if actual == OneTo(|entries|) then NoReason else RanksNotContiguous;
  }

  /** The visited page numbers are exactly 1..last. */
  method CoversPages(v: seq<Url>, last: int) returns (r: bool)
    ensures r <==> PagesAre(v, last)
  {
    if |v| != last {
      return false;
    }
    var k := 0;
    while k < |v|
      invariant 0 <= k <= |v| && forall j :: 0 <= j < k ==> v[j].page == Some(j + 1)
    {
      if v[k].page != Some(k + 1) {
        return false;
      }
      k := k + 1;
    }
    return true;
  }

  // ---- the traversal ------------------------------------------------------------------------

  /** Every trace there is begins with the pages visited and goes on to the cursor, or ends here. */
  ghost predicate Leads(site: Site, start: Url, visited: seq<Url>, cursor: Option<Url>) {
    forall v: seq<Url> :: Trace(site, start, v) ==>
      && |visited| <= |v| && v[..|visited|] == visited && (cursor.Some? <==> |visited| < |v|)
      && (cursor.Some? ==> v[|visited|] == cursor.value)
  }

  /** What the loop has gathered. */
  datatype Gathered = Gathered(visited: seq<Url>, entries: seq<Entry>, total: Option<nat>, last: Option<int>)

  ghost predicate GatheredOk(site: Site, start: Url, g: Gathered, cursor: Option<Url>) {
    && Path(site, start, g.visited) && Leads(site, start, g.visited, cursor)
    && g.entries == EntriesOf(site, g.visited)
    && TotalIs(site, g.visited, g.total) && LastIs(site, g.visited, g.last)
    && cursor == if g.visited == [] then Some(start) else site[g.visited[|g.visited| - 1]].next
  }

  lemma NothingGathered(site: Site, start: Url)
    ensures GatheredOk(site, start, Gathered([], [], None, None), Some(start))
  {
  }

  /** A proven traversal goes through the pages gathered and the next one, which none of them contradicts. */
  lemma ProofGoesOn(site: Site, start: Url, g: Gathered, url: Url, v: seq<Url>, total: Option<nat>, last: Option<int>)
    requires GatheredOk(site, start, g, Some(url)) && Proven(site, start, v, total, last)
    ensures |g.visited| < MAX_PAGES && url !in g.visited && PageOk(site, url)
    ensures site[url].total.Some? && g.total.Some? ==> site[url].total == g.total
    ensures site[url].last.Some? ==> site[url].last.value >= 1
    ensures site[url].last.Some? && g.last.Some? ==> site[url].last == g.last
  {
    var n := |g.visited|;
    assert v[n] == url && v[..n] == g.visited;
    assert forall k :: 0 <= k < n ==> v[k] == g.visited[k];
    if g.total.Some? {
      var k :| 0 <= k < n && site[g.visited[k]].total == g.total;
      assert site[v[k]].total == total;
    }
    if g.last.Some? {
      var k :| 0 <= k < n && site[g.visited[k]].last == g.last;
      assert site[v[k]].last == last;
    }
  }

  /** The next page cannot be part of any trace. */
  lemma DeadEnd(site: Site, start: Url, g: Gathered, url: Url)
    requires GatheredOk(site, start, g, Some(url))
    requires |g.visited| >= MAX_PAGES || url in g.visited || !PageOk(site, url)
    ensures !Provable(site, start)
  {
    hide GatheredOk, Proven;
    forall v: seq<Url>, total, last ensures !Proven(site, start, v, total, last) {
      if Proven(site, start, v, total, last) {
        ProofGoesOn(site, start, g, url, v, total, last);
      }
    }
  }

  lemma PathGrows(site: Site, start: Url, v: seq<Url>, url: Url)
    requires Path(site, start, v) && PageOk(site, url) && url !in v && |v| < MAX_PAGES
    requires Some(url) == if v == [] then Some(start) else site[v[|v| - 1]].next
    ensures Path(site, start, v + [url])
    ensures EntriesOf(site, v + [url]) == EntriesOf(site, v) + site[url].entries.value
  {
    assert (v + [url])[..|v|] == v;
  }

  lemma TotalGrows(site: Site, v: seq<Url>, url: Url, total: Option<nat>, total': Option<nat>)
    requires PageOk(site, url) && PagesOk(site, v + [url]) && PagesOk(site, v) && TotalIs(site, v, total)
    requires total' == if site[url].total.Some? then site[url].total else total
    requires site[url].total.Some? && total.Some? ==> site[url].total == total
    ensures TotalIs(site, v + [url], total')
  {
    var v' := v + [url];
    assert v'[|v|] == url && forall k :: 0 <= k < |v| ==> v'[k] == v[k];
  }

  lemma LastGrows(site: Site, v: seq<Url>, url: Url, last: Option<int>, last': Option<int>)
    requires PageOk(site, url) && PagesOk(site, v + [url]) && PagesOk(site, v) && LastIs(site, v, last)
    requires last' == if site[url].last.Some? then site[url].last else last
    requires site[url].last.Some? ==> site[url].last.value >= 1 && (last.Some? ==> site[url].last == last)
    ensures LastIs(site, v + [url], last')
  {
    var v' := v + [url];
    assert v'[|v|] == url && forall k :: 0 <= k < |v| ==> v'[k] == v[k];
  }

  /** A page that contradicts nothing gathered so far extends it. */
  lemma PageGathered(site: Site, start: Url, g: Gathered, url: Url, total: Option<nat>, last: Option<int>)
    requires GatheredOk(site, start, g, Some(url)) && PageOk(site, url) && url !in g.visited
    requires |g.visited| < MAX_PAGES
    requires total == if site[url].total.Some? then site[url].total else g.total
    requires last == if site[url].last.Some? then site[url].last else g.last
    requires site[url].total.Some? && g.total.Some? ==> site[url].total == g.total
    requires site[url].last.Some? ==> site[url].last.value >= 1 && (g.last.Some? ==> site[url].last == g.last)
    ensures GatheredOk(site, start, Gathered(g.visited + [url], g.entries + site[url].entries.value, total, last),
                       site[url].next)
  {
    hide Leads, TotalIs, LastIs, EntriesOf, DistinctUrls;
    PathGrows(site, start, g.visited, url);
    TotalGrows(site, g.visited, url, g.total, total);
    LastGrows(site, g.visited, url, g.last, last);
    LeadsOn(site, start, g.visited, url);
  }

  lemma LeadsOn(site: Site, start: Url, visited: seq<Url>, url: Url)
    requires Leads(site, start, visited, Some(url)) && PageOk(site, url)
    ensures Leads(site, start, visited + [url], site[url].next)
  {
    forall v: seq<Url> | Trace(site, start, v)
      ensures |visited| < |v| && v[..|visited| + 1] == visited + [url]
      ensures site[url].next.Some? <==> |visited| + 1 < |v|
      ensures site[url].next.Some? ==> v[|visited| + 1] == site[url].next.value
    {
      assert v[|visited|] == url;
      if |visited| + 1 < |v| {
        assert site[v[|visited|]].next == Some(v[|visited| + 1]);
      }
    }
  }

  /** A page that contradicts the totals gathered, or declares no valid last page, spoils every trace through it. */
  lemma Contradicted(site: Site, start: Url, g: Gathered, url: Url)
    requires GatheredOk(site, start, g, Some(url)) && PageOk(site, url)
    requires || (site[url].total.Some? && g.total.Some? && site[url].total != g.total)
             || (site[url].last.Some? && site[url].last.value < 1)
             || (site[url].last.Some? && g.last.Some? && site[url].last != g.last)
    ensures !Provable(site, start)
  {
    hide GatheredOk, Proven;
    forall v: seq<Url>, total, last ensures !Proven(site, start, v, total, last) {
      if Proven(site, start, v, total, last) {
        ProofGoesOn(site, start, g, url, v, total, last);
      }
    }
  }

  /** Once the pages end, there is at most one proof: of what was gathered. */
  lemma OneProof(site: Site, start: Url, g: Gathered, v: seq<Url>, total: Option<nat>, last: Option<int>)
    requires GatheredOk(site, start, g, None) && Proven(site, start, v, total, last)
    ensures v == g.visited && total == g.total && last == g.last
  {
    assert v[..|g.visited|] == v;
  }

  method Traverse(site: Site, start: Url)
      returns (r: Result<Gathered, Reason>, visited: seq<Url>, entries: seq<Entry>)
    ensures DistinctUrls(visited) && |visited| <= 50
    ensures r.Success? ==>
              && GatheredOk(site, start, r.value, None) && visited != []
              && r.value.visited == visited && r.value.entries == entries
    ensures r.Failure? ==> !Provable(site, start) && r.error != NoReason
  {
    hide Leads, Provable, Proven, TotalIs, LastIs, EntriesOf;
    var g := Gathered([], [], None, None);
    var cursor := Some(start);
    NothingGathered(site, start);
    while cursor.Some?
      invariant GatheredOk(site, start, g, cursor) && (g.visited == [] ==> cursor.Some?)
      decreases MAX_PAGES - |g.visited|, cursor.Some?
    {
      var url := cursor.value;
      if |g.visited| >= MAX_PAGES {
        DeadEnd(site, start, g, url);
        return Failure(ExceededMaxPages), g.visited, g.entries;
      }
      if url in g.visited {
        DeadEnd(site, start, g, url);
        return Failure(DuplicatePage), g.visited, g.entries;
      }
      if url !in site {
        DeadEnd(site, start, g, url);
        return Failure(FetchFailed), g.visited, g.entries;
      }
      var page := site[url];
      var visitedNow := g.visited + [url];
      if !page.wellFormed {
        DeadEnd(site, start, g, url);
        return Failure(NotWellFormed), visitedNow, g.entries;
      }
      if page.entries.None? {
        DeadEnd(site, start, g, url);
        return Failure(Unparsable), visitedNow, g.entries;
      }
      var entriesNow := g.entries + page.entries.value;
      var total, last := g.total, g.last;
      if page.total.Some? {
        if total.Some? && total != page.total {
          Contradicted(site, start, g, url);
          return Failure(ConflictingTotal), visitedNow, entriesNow;
        }
        total := page.total;
      }
      if page.last.Some? {
        if page.last.value < 1 {
          Contradicted(site, start, g, url);
          return Failure(InvalidLastPage), visitedNow, entriesNow;
        }
        if last.Some? && last != page.last {
          Contradicted(site, start, g, url);
          return Failure(ConflictingLastPage), visitedNow, entriesNow;
        }
        last := page.last;
      }
      PageGathered(site, start, g, url, total, last);
      g := Gathered(visitedNow, entriesNow, total, last);
      cursor := page.next;
      if cursor.None? && last.Some? && (url.page.None? || url.page.value < last.value) {
        EndedEarly(site, start, g, url);
        return Failure(TerminatedEarly), g.visited, g.entries;
      }
    }
    return Success(g), g.visited, g.entries;
  }

  lemma EndedEarly(site: Site, start: Url, g: Gathered, url: Url)
    requires GatheredOk(site, start, g, None) && g.visited != [] && url == g.visited[|g.visited| - 1]
    requires g.last.Some? && (url.page.None? || url.page.value < g.last.value)
    ensures !Provable(site, start)
  {
    hide GatheredOk, Proven;
    forall v: seq<Url>, total, last ensures !Proven(site, start, v, total, last) {
      if Proven(site, start, v, total, last) {
        ProofEndsAtLast(site, start, g, v, total, last);
      }
    }
  }

  lemma ProofEndsAtLast(site: Site, start: Url, g: Gathered, v: seq<Url>, total: Option<nat>, last: Option<int>)
    requires GatheredOk(site, start, g, None) && Proven(site, start, v, total, last) && g.visited != []
    ensures g.last.Some? ==>
              var page := g.visited[|g.visited| - 1].page; page.Some? && page.value == g.last.value
  {
    OneProof(site, start, g, v, total, last);
    if g.last.Some? {
      assert v[|v| - 1].page == Some(|v|);
    }
  }

  /**
   discover_all_species: COMPLETE exactly when there is a positive terminal proof, and then with its entries.
   The traversal stops after at most 50 distinct urls.
   */
  method DiscoverAllSpecies(site: Site, start: Url) returns (o: Outcome, ghost visited: seq<Url>)
    ensures DistinctUrls(visited) && |visited| == o.pagesVisited <= 50
    ensures o.status == Complete <==> Provable(site, start)
    ensures o.status == Complete ==>
              exists total, last :: Proven(site, start, visited, total, last) && o.entries == EntriesOf(site, visited)
    ensures o.status == Unprovable ==>
              Trace(site, start, visited) && !AdvertisesTotal(site, visited) && !DeclaresLast(site, visited)
    ensures o.status == Complete <==> o.reason == NoReason
  {
    var traversed, urls, entries := Traverse(site, start);
    var pages := |urls|;
    visited := urls;
    if traversed.Failure? {
      return Outcome(Incomplete, entries, pages, traversed.error), visited;
    }
    var g := traversed.value;
    ProvableIff(site, start, g);
    hide Provable, Leads, EntriesOf;
    var deduped, hadDuplicate, _ := Dedup(g.entries);
    if hadDuplicate {
      return Outcome(Incomplete, deduped, pages, DuplicateSpecies), visited;
    }
    if g.total.Some? && g.total.value != |deduped| {
      return Outcome(Incomplete, deduped, pages, TotalMismatch), visited;
    }
    var ranks := CheckRanks(deduped);
    if ranks != NoReason {
      return Outcome(Incomplete, deduped, pages, ranks), visited;
    }
    if g.last.Some? {
      var covers := CoversPages(g.visited, g.last.value);
      if !covers {
        return Outcome(Incomplete, deduped, pages, CoverageMismatch), visited;
      }
    }
    if g.total.None? && g.last.None? {
      return Outcome(Unprovable, deduped, pages, NoTerminalProof), visited;
    }
    return Outcome(Complete, deduped, pages, NoReason), visited;
  }

  lemma ProvableIff(site: Site, start: Url, g: Gathered)
    requires GatheredOk(site, start, g, None) && g.visited != []
    ensures Provable(site, start) <==> Proven(site, start, g.visited, g.total, g.last)
  {
    if Provable(site, start) {
      var v, total, last :| Proven(site, start, v, total, last);
      OneProof(site, start, g, v, total, last);
    }
  }

  predicate AdvertisesTotal(site: Site, v: seq<Url>) {
    exists k :: 0 <= k < |v| && v[k] in site && site[v[k]].total.Some?
  }

  predicate DeclaresLast(site: Site, v: seq<Url>) {
    exists k :: 0 <= k < |v| && v[k] in site && site[v[k]].last.Some?
  }

  /**
   If what the traversal was told, a total or a last page, is true of the site, COMPLETE means exactly its
   species.
   */
  lemma CompleteIsExact(site: Site, start: Url, visited: seq<Url>, entries: seq<Entry>, species: set<Id>)
    requires exists total, last :: Proven(site, start, visited, total, last) && entries == EntriesOf(site, visited)
    requires ListsOnly(site, species)
    requires || (AdvertisesTotal(site, visited) && TotalsTrue(site, species))
             || (DeclaresLast(site, visited) && LastsTrue(site, species))
    ensures DistinctSpecies(entries) && Species(entries) == species
  {
    var total, last :| Proven(site, start, visited, total, last) && entries == EntriesOf(site, visited);
    ProvenIsExact(site, start, visited, total, last, species);
  }
}
