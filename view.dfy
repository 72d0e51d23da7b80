/**
 * What the component shows: a loading line, an error line, or the total and
 * one section per genre in sorted order. Markup and styling are not modelled.
 */
module View {
  import opened AnimeRecords
  import opened StringOrder
  import opened GenreGrouping
  import opened Loader

  /** One `<section>`: its heading and the records drawn as cards, in order. */
  datatype Section = Section(genre: string, cards: seq<Anime>)

  datatype Page = LoadingPage | ErrorPage(message: string) | ContentPage(total: nat, sections: seq<Section>)

  /** JavaScript truthiness of `error`: `null` and the empty string are falsy. */
  predicate ErrorShown(e: Option<string>) {
    e.Some? && e.value != ""
  }

  /** A section for each key of `ks`, in that order. */
  function SectionsOver(d: GenreMap, ks: seq<string>): (r: seq<Section>) {
    seq(|ks|, k requires 0 <= k < |ks| => Section(ks[k], BucketOf(d, ks[k])))
  }

  /**
   * `Object.keys(genreMap).sort().map(...)`: one section per key, headings
   * strictly ascending, each holding exactly its (non-empty) bucket.
   */
  function Sections(d: GenreMap): (r: seq<Section>)
    requires WellFormed(d)
    ensures |r| == |d.keys|
    ensures forall k, l :: 0 <= k < l < |r| ==> Below(r[k].genre, r[l].genre)
    ensures forall g :: g in d.buckets ==> exists k :: 0 <= k < |r| && r[k].genre == g
    ensures forall k :: 0 <= k < |r| ==> r[k].genre in d.buckets && r[k].cards == d.buckets[r[k].genre] && r[k].cards != []
  {
    var sorted := Sort(d.keys);
    assert |sorted| == |multiset(sorted)| == |multiset(d.keys)| == |d.keys|;
    SortedDistinctAscending(sorted);
    var r := SectionsOver(d, sorted);
    assert forall g :: g in d.buckets ==> exists k :: 0 <= k < |r| && r[k].genre == g by {
      forall g | g in d.buckets
        ensures exists k :: 0 <= k < |r| && r[k].genre == g
      {
        assert g in sorted;
        var k :| 0 <= k < |sorted| && sorted[k] == g;
        assert r[k].genre == g;
      }
    }
    r
  }

  /** The component's return value for the state `s`. */
  function Render(s: Snapshot): Page {
    if s.loading then LoadingPage
    else if ErrorShown(s.error) then ErrorPage(s.error.value)
    else ContentPage(|s.animeList|, Sections(Group(s.animeList)))
  }

  /** Cards drawn over all sections. */
  function Entries(sections: seq<Section>): nat {
    if sections == [] then 0 else |sections[0].cards| + Entries(sections[1..])
  }

  lemma {:induction false} EntriesOver(d: GenreMap, ks: seq<string>)
    ensures Entries(SectionsOver(d, ks)) == TotalOver(d, ks)
    decreases |ks|
  {
    if ks != [] {
      EntriesOver(d, ks[1..]);
      assert SectionsOver(d, ks)[1..] == SectionsOver(d, ks[1..]);
    }
  }

  /**
   * Loading hides everything, an error hides the content, and otherwise the
   * content is shown; the message shown is the stored one.
   */
  lemma ViewSelection(s: Snapshot)
    ensures s.loading ==> Render(s) == LoadingPage
    ensures !s.loading && ErrorShown(s.error) ==> Render(s) == ErrorPage(s.error.value)
    ensures Render(s).ContentPage? <==> !s.loading && !ErrorShown(s.error)
  {
  }

  /**
   * The content page: the total is the length of the list, while the cards
   * drawn count one per listed genre, which is never fewer.
   */
  lemma ContentCounts(list: seq<Anime>)
    ensures Render(Snapshot(list, false, None)).ContentPage?
    ensures Render(Snapshot(list, false, None)).total == |list|
    ensures Entries(Render(Snapshot(list, false, None)).sections) == EntryCount(list) >= |list|
  {
    var d := Group(list);
    var sorted := Sort(d.keys);
    EntriesOver(d, sorted);
    GroupEntryTotal(list, sorted);
  }

  /** Each section shows its genre's records in input order, taken from the positions `Origins` names. */
  lemma SectionCardsFollowInput(list: seq<Anime>, k: nat)
    requires k < |Sections(Group(list))|
    ensures var sec := Sections(Group(list))[k];
            var o := Origins(list, sec.genre);
            |sec.cards| == |o| && forall m :: 0 <= m < |o| ==> o[m] < |list| && sec.cards[m] == list[o[m]]
  {
    BucketFollowsInput(list, Sections(Group(list))[k].genre);
  }

  /** What the page shows once the request has settled: never the loading line again. */
  lemma PageAfterSettlement(o: FetchOutcome)
    ensures Render(Settled(INITIAL, o)) != LoadingPage
    ensures o.Response? && !o.ok ==> Render(Settled(INITIAL, o)) == ErrorPage(FETCH_FAILED)
    ensures o.Rejected? && o.message != "" ==> Render(Settled(INITIAL, o)) == ErrorPage(o.message)
    ensures o.Rejected? && o.message == "" ==> Render(Settled(INITIAL, o)) == ContentPage(0, [])
    ensures o.Response? && o.ok && o.body.Parsed? ==>
              Render(Settled(INITIAL, o)) == ContentPage(|o.body.data|, Sections(Group(o.body.data)))
  {
  }

  /** An empty list: a total of zero and no sections. */
  lemma EmptyListPage()
    ensures Render(Snapshot([], false, None)) == ContentPage(0, [])
  {
  }

  /** A record with one genre and one without: buckets "Action" and "Unknown", created in that order. */
  lemma ActionThenUnknownBuckets(first: Anime, second: Anime)
    requires first.genres == Some(["Action"]) && second.genres == Some([])
    ensures Group([first, second]) == GenreMap(["Action", UNKNOWN], map["Action" := [first], UNKNOWN := [second]])
  {
    var list := [first, second];
    var two := GenreMap(["Action", UNKNOWN], map["Action" := [first], UNKNOWN := [second]]);
    var empty := GenreMap([], map[]);
    var one := GenreMap(["Action"], map["Action" := [first]]);
    assert list[..1] == [first] && [first][..0] == [];
    assert PushAll(empty, ["Action"], first) == PushAll(one, [], first) == one;
    assert Group([first]) == one;
    assert BucketKeys(second) == [UNKNOWN];
    assert PushAll(one, [UNKNOWN], second) == PushAll(two, [], second) == two;
  }

  /** The same two records on the page: an "Action" section, then "Unknown". */
  lemma ActionThenUnknown(first: Anime, second: Anime)
    requires first.genres == Some(["Action"]) && second.genres == Some([])
    ensures Render(Snapshot([first, second], false, None))
            == ContentPage(2, [Section("Action", [first]), Section(UNKNOWN, [second])])
  {
    var two := GenreMap(["Action", UNKNOWN], map["Action" := [first], UNKNOWN := [second]]);
    ActionThenUnknownBuckets(first, second);
    assert Sort(two.keys) == ["Action", UNKNOWN] by {
      assert Sort([UNKNOWN]) == [UNKNOWN];
      assert !Below(UNKNOWN, "Action");
    }
    assert Sections(two) == [Section("Action", [first]), Section(UNKNOWN, [second])];
  }

  /** A genre listed twice puts the record in that section twice. */
  lemma RepeatedGenreRepeatsCard(r: Anime)
    requires r.genres == Some(["Action", "Action"])
    ensures Render(Snapshot([r], false, None)) == ContentPage(1, [Section("Action", [r, r])])
  {
    var empty := GenreMap([], map[]);
    var once := GenreMap(["Action"], map["Action" := [r]]);
    var twice := GenreMap(["Action"], map["Action" := [r, r]]);
    assert [r][..0] == [];
    assert ["Action", "Action"][1..] == ["Action"];
    assert PushAll(empty, ["Action", "Action"], r) == PushAll(once, ["Action"], r);
    assert ["Action"][1..] == [];
    assert [r] + [r] == [r, r];
    assert once.buckets["Action" := [r, r]] == twice.buckets;
    assert Push(once, "Action", r) == twice;
    assert PushAll(once, ["Action"], r) == PushAll(twice, [], r) == twice;
    assert Group([r]) == twice;
    assert Sort(["Action"]) == ["Action"];
    assert Sections(twice) == [Section("Action", [r, r])];
  }
}
