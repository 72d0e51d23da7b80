/**
 * Grouping the fetched list into genre buckets: every record is pushed under
 * each genre it lists, or under "Unknown" when it lists none.
 */
module GenreGrouping {
  import opened AnimeRecords
  import opened StringOrder

  /**
   * The `genreMap` object: its own keys in the order they were created (the
   * order `Object.keys` reports string keys in) and the bucket under each.
   */
  datatype GenreMap = GenreMap(keys: seq<string>, buckets: map<string, seq<Anime>>)

  /** Every key listed once, the listed keys are those holding a bucket, and no bucket is empty. */
  predicate WellFormed(d: GenreMap) {
    Distinct(d.keys)
    && (forall g :: g in d.keys ==> g in d.buckets)
    && (forall g :: g in d.buckets ==> g in d.keys)
    && (forall g :: g in d.buckets ==> d.buckets[g] != [])
  }

  /** The bucket under `g`; empty where there is no such key. */
  function BucketOf(d: GenreMap, g: string): seq<Anime> {
    if g in d.buckets then d.buckets[g] else []
  }

  /** `n` copies of `x`. */
  function Repeat<T>(x: T, n: nat): (r: seq<T>)
    ensures |r| == n
    ensures forall k :: 0 <= k < n ==> r[k] == x
  {
    if n == 0 then [] else [x] + Repeat(x, n - 1)
  }

  /** Creates the bucket for `g` when it is missing, then pushes `a` onto it. */
  function Push(d: GenreMap, g: string, a: Anime): GenreMap {
    if g in d.buckets then GenreMap(d.keys, d.buckets[g := d.buckets[g] + [a]])
    else GenreMap(d.keys + [g], d.buckets[g := [a]])
  }

  lemma PushWellFormed(d: GenreMap, g: string, a: Anime)
    requires WellFormed(d)
    ensures WellFormed(Push(d, g, a))
  {
  }

  /** Pushes `a` once under each of `ks`, in order: the inner `forEach`. */
  function PushAll(d: GenreMap, ks: seq<string>, a: Anime): GenreMap
    decreases |ks|
  {
    if ks == [] then d else PushAll(Push(d, ks[0], a), ks[1..], a)
  }

  lemma {:induction false} PushAllWellFormed(d: GenreMap, ks: seq<string>, a: Anime)
    requires WellFormed(d)
    ensures WellFormed(PushAll(d, ks, a))
    decreases |ks|
  {
    if ks != [] {
      PushWellFormed(d, ks[0], a);
      PushAllWellFormed(Push(d, ks[0], a), ks[1..], a);
    }
  }

  /** Keys are only ever appended to the creation order. */
  lemma {:induction false} PushAllKeepsKeyOrder(d: GenreMap, ks: seq<string>, a: Anime)
    ensures d.keys <= PushAll(d, ks, a).keys
    decreases |ks|
  {
    if ks != [] {
      PushAllKeepsKeyOrder(Push(d, ks[0], a), ks[1..], a);
    }
  }

  /** The inner loop appends `a` to bucket `g` once per occurrence of `g` in `ks`. */
  lemma {:induction false} PushAllBucket(d: GenreMap, ks: seq<string>, a: Anime, g: string)
    ensures BucketOf(PushAll(d, ks, a), g) == BucketOf(d, g) + Repeat(a, Occurrences(ks, g))
    decreases |ks|
  {
    if ks != [] {
      PushAllBucket(Push(d, ks[0], a), ks[1..], a, g);
    }
  }

  /** The inner loop creates exactly the keys of `ks` that were missing. */
  lemma {:induction false} PushAllKeys(d: GenreMap, ks: seq<string>, a: Anime, g: string)
    ensures g in PushAll(d, ks, a).buckets <==> g in ks || g in d.buckets
    decreases |ks|
  {
    if ks != [] {
      PushAllKeys(Push(d, ks[0], a), ks[1..], a, g);
      assert ks == [ks[0]] + ks[1..];
    }
  }

  /** The outer `forEach`: every record of the list in turn, starting from an empty object. */
  function Group(list: seq<Anime>): (d: GenreMap)
    ensures WellFormed(d)
    decreases |list|
  {
    if list == [] then GenreMap([], map[])
    else
      var prefix := Group(list[..|list| - 1]);
      PushAllWellFormed(prefix, BucketKeys(list[|list| - 1]), list[|list| - 1]);
      PushAll(prefix, BucketKeys(list[|list| - 1]), list[|list| - 1])
  }

  /**
   * A description of bucket `g` that does not mention pushing: the input
   * positions it is filled from, in increasing order, position `i` repeated
   * once for every time record `i` lists `g`.
   */
  function Origins(list: seq<Anime>, g: string): seq<nat>
    decreases |list|
  {
    if list == [] then []
    else Origins(list[..|list| - 1], g) + Repeat<nat>(|list| - 1, Occurrences(BucketKeys(list[|list| - 1]), g))
  }

  /** Bucket `g` is the records at `Origins(list, g)`: input order is kept. */
  lemma {:induction false} BucketFollowsInput(list: seq<Anime>, g: string)
    ensures |BucketOf(Group(list), g)| == |Origins(list, g)|
    ensures forall k :: 0 <= k < |Origins(list, g)| ==>
              Origins(list, g)[k] < |list| && BucketOf(Group(list), g)[k] == list[Origins(list, g)[k]]
    ensures forall k, l :: 0 <= k < l < |Origins(list, g)| ==> Origins(list, g)[k] <= Origins(list, g)[l]
    decreases |list|
  {
    if list != [] {
      var n := |list| - 1;
      var prefix := list[..n];
      var occ := Occurrences(BucketKeys(list[n]), g);
      BucketFollowsInput(prefix, g);
      PushAllBucket(Group(prefix), BucketKeys(list[n]), list[n], g);
      var o, b := Origins(list, g), BucketOf(Group(list), g);
      var op, bp := Origins(prefix, g), BucketOf(Group(prefix), g);
      assert o == op + Repeat<nat>(n, occ);
      assert b == bp + Repeat(list[n], occ);
      forall k | 0 <= k < |o|
        ensures o[k] < |list| && b[k] == list[o[k]]
      {
        if k < |op| {
          assert o[k] == op[k] && b[k] == bp[k] && prefix[op[k]] == list[op[k]];
        } else {
          assert o[k] == n && b[k] == list[n];
        }
      }
    }
  }

  /** How often `v` occurs in a run of `n` copies of `w`. */
  lemma {:induction false} RunMultiplicity(w: nat, n: nat, v: nat)
    ensures multiset(Repeat<nat>(w, n))[v] == if v == w then n else 0
  {
    if n > 0 {
      RunMultiplicity(w, n - 1, v);
    }
  }

  /**
   * No deduplication: record `i` fills bucket `g` exactly as often as it
   * lists `g` (once for "Unknown" when it lists nothing).
   */
  lemma {:induction false} PositionMultiplicity(list: seq<Anime>, g: string, i: nat)
    requires i < |list|
    ensures multiset(Origins(list, g))[i] == Occurrences(BucketKeys(list[i]), g)
    decreases |list|
  {
    var n := |list| - 1;
    var prefix := list[..n];
    var occ := Occurrences(BucketKeys(list[n]), g);
    var op := Origins(prefix, g);
    assert Origins(list, g) == op + Repeat<nat>(n, occ);
    var whole: multiset<nat>, before: multiset<nat> := multiset(Origins(list, g)), multiset(op);
    var run: multiset<nat> := multiset(Repeat<nat>(n, occ));
    assert whole == before + run;
    RunMultiplicity(n, occ, i);
    assert whole[i] == before[i] + (if i == n then occ else 0);
    if i < n {
      PositionMultiplicity(prefix, g, i);
      assert prefix[i] == list[i];
    } else {
      BucketFollowsInput(prefix, g);
      assert n !in op;
      assert before[i] == 0;
    }
  }

  /** Every listed genre of a record holds that record. */
  lemma ListedGenreHoldsRecord(list: seq<Anime>, i: nat, g: string)
    requires i < |list| && HasGenres(list[i]) && g in list[i].genres.value
    ensures g in Group(list).buckets && list[i] in Group(list).buckets[g]
  {
    PositionMultiplicity(list, g, i);
    BucketFollowsInput(list, g);
    var o := Origins(list, g);
    assert i in o;
    var k :| 0 <= k < |o| && o[k] == i;
    assert BucketOf(Group(list), g)[k] == list[i];
  }

  /** A record without genres lands in "Unknown" and in no other bucket. */
  lemma GenrelessGoesToUnknown(list: seq<Anime>, i: nat)
    requires i < |list| && !HasGenres(list[i])
    ensures UNKNOWN in Group(list).buckets && list[i] in Group(list).buckets[UNKNOWN]
    ensures forall g :: i in Origins(list, g) <==> g == UNKNOWN
  {
    PositionMultiplicity(list, UNKNOWN, i);
    BucketFollowsInput(list, UNKNOWN);
    var o := Origins(list, UNKNOWN);
    assert i in o;
    var k :| 0 <= k < |o| && o[k] == i;
    assert BucketOf(Group(list), UNKNOWN)[k] == list[i];
    forall g | g != UNKNOWN
      ensures i !in Origins(list, g)
    {
      PositionMultiplicity(list, g, i);
    }
  }

  /**
   * The keys are the genres some record lists, plus "Unknown" exactly when
   * some record lists none; a record tagged "Unknown" shares that bucket.
   */
  lemma GroupKeySet(list: seq<Anime>)
    ensures forall g :: g in Group(list).buckets <==>
              (exists i :: 0 <= i < |list| && HasGenres(list[i]) && g in list[i].genres.value)
              || (g == UNKNOWN && exists i :: 0 <= i < |list| && !HasGenres(list[i]))
  {
    forall g
      ensures g in Group(list).buckets <==> exists i :: 0 <= i < |list| && g in BucketKeys(list[i])
    {
      BucketFollowsInput(list, g);
      var o := Origins(list, g);
      if g in Group(list).buckets {
        assert o != [];
        var i := o[0];
        PositionMultiplicity(list, g, i);
      }
      if i :| 0 <= i < |list| && g in BucketKeys(list[i]) {
        PositionMultiplicity(list, g, i);
        assert i in o;
      }
    }
  }

  /** Buckets only grow by appending: an earlier stage of the loop is a prefix of every bucket. */
  lemma {:induction false} GroupGrowsByAppend(list: seq<Anime>, i: nat)
    requires i <= |list|
    ensures Group(list[..i]).keys <= Group(list).keys
    ensures forall g :: BucketOf(Group(list[..i]), g) <= BucketOf(Group(list), g)
    decreases |list| - i
  {
    if i == |list| {
      assert list[..i] == list;
    } else {
      GroupGrowsByAppend(list, i + 1);
      var p := list[..i + 1];
      assert p[..|p| - 1] == list[..i];
      PushAllKeepsKeyOrder(Group(list[..i]), BucketKeys(p[i]), p[i]);
      forall g
        ensures BucketOf(Group(list[..i]), g) <= BucketOf(Group(p), g)
      {
        PushAllBucket(Group(list[..i]), BucketKeys(p[i]), p[i], g);
      }
    }
  }

  /** Sum of the bucket sizes under `ks`. */
  function TotalOver(d: GenreMap, ks: seq<string>): nat {
    if ks == [] then 0 else |BucketOf(d, ks[0])| + TotalOver(d, ks[1..])
  }

  /** One entry per listed genre of each record, or one when it lists none. */
  function EntryCount(list: seq<Anime>): (n: nat)
    ensures n >= |list|
  {
    if list == [] then 0 else EntryCount(list[..|list| - 1]) + |BucketKeys(list[|list| - 1])|
  }

  lemma {:induction false} TotalOverEmpty(d: GenreMap, ks: seq<string>)
    requires d.buckets == map[]
    ensures TotalOver(d, ks) == 0
    decreases |ks|
  {
    if ks != [] {
      TotalOverEmpty(d, ks[1..]);
    }
  }

  lemma {:induction false} TotalOverPush(d: GenreMap, g: string, a: Anime, ks: seq<string>)
    requires Distinct(ks)
    ensures TotalOver(Push(d, g, a), ks) == TotalOver(d, ks) + (if g in ks then 1 else 0)
    decreases |ks|
  {
    if ks != [] {
      TotalOverPush(d, g, a, ks[1..]);
      assert ks[0] !in ks[1..];
      assert ks == [ks[0]] + ks[1..];
    }
  }

  lemma {:induction false} TotalOverPushAll(d: GenreMap, keys: seq<string>, a: Anime, ks: seq<string>)
    requires Distinct(ks) && forall k :: k in keys ==> k in ks
    ensures TotalOver(PushAll(d, keys, a), ks) == TotalOver(d, ks) + |keys|
    decreases |keys|
  {
    if keys != [] {
      TotalOverPush(d, keys[0], a, ks);
      TotalOverPushAll(Push(d, keys[0], a), keys[1..], a, ks);
    }
  }

  /**
   * No deduplication across buckets: summed over any list of keys that names
   * every bucket once, the bucket sizes add up to `EntryCount`.
   */
  lemma {:induction false} GroupEntryTotal(list: seq<Anime>, ks: seq<string>)
    requires Distinct(ks) && forall g :: g in Group(list).buckets ==> g in ks
    ensures TotalOver(Group(list), ks) == EntryCount(list)
    decreases |list|
  {
    if list == [] {
      TotalOverEmpty(Group(list), ks);
    } else {
      var n := |list| - 1;
      var prefix := list[..n];
      forall g | g in Group(prefix).buckets || g in BucketKeys(list[n])
        ensures g in ks
      {
        PushAllKeys(Group(prefix), BucketKeys(list[n]), list[n], g);
      }
      GroupEntryTotal(prefix, ks);
      TotalOverPushAll(Group(prefix), BucketKeys(list[n]), list[n], ks);
      assert Group(list) == PushAll(Group(prefix), BucketKeys(list[n]), list[n]);
      assert EntryCount(list) == EntryCount(prefix) + |BucketKeys(list[n])|;
    }
  }

  /** The grouping loop itself, updating the object in place. */
  method GroupByGenre(animeList: seq<Anime>) returns (genreMap: GenreMap)
    ensures genreMap == Group(animeList)
  {
    var keys: seq<string> := [];
    var buckets: map<string, seq<Anime>> := map[];
    var i := 0;
    while i < |animeList|
      invariant 0 <= i <= |animeList|
      invariant GenreMap(keys, buckets) == Group(animeList[..i])
    {
      var anime := animeList[i];
      ghost var target := Group(animeList[..i + 1]);
      assert animeList[..i + 1][..i] == animeList[..i];
      assert target == PushAll(GenreMap(keys, buckets), BucketKeys(anime), anime);
      if anime.genres.Some? && |anime.genres.value| > 0 {
        var genres := anime.genres.value;
        var j := 0;
        assert genres[j..] == BucketKeys(anime);
        while j < |genres|
          invariant 0 <= j <= |genres|
          invariant PushAll(GenreMap(keys, buckets), genres[j..], anime) == target
        {
          var genre := genres[j];
          ghost var before := GenreMap(keys, buckets);
          assert genres[j..][1..] == genres[j + 1..];
          if genre !in buckets {
            keys, buckets := keys + [genre], buckets[genre := []];
          }
          buckets := buckets[genre := buckets[genre] + [anime]];
          assert [] + [anime] == [anime];
          assert genre !in before.buckets ==> keys == before.keys + [genre] && buckets == before.buckets[genre := [anime]];
          assert genre in before.buckets ==> keys == before.keys && buckets == before.buckets[genre := before.buckets[genre] + [anime]];
          assert genres[j..] == [genre] + genres[j + 1..];
          j := j + 1;
        }
        assert genres[j..] == [];
        assert GenreMap(keys, buckets) == target;
      } else {
        ghost var before := GenreMap(keys, buckets);
        if UNKNOWN !in buckets {
          keys, buckets := keys + [UNKNOWN], buckets[UNKNOWN := []];
        }
        buckets := buckets[UNKNOWN := buckets[UNKNOWN] + [anime]];
        assert [] + [anime] == [anime];
        assert UNKNOWN !in before.buckets ==> keys == before.keys + [UNKNOWN] && buckets == before.buckets[UNKNOWN := [anime]];
        assert UNKNOWN in before.buckets ==> keys == before.keys && buckets == before.buckets[UNKNOWN := before.buckets[UNKNOWN] + [anime]];
        assert BucketKeys(anime) == [UNKNOWN];
        assert PushAll(before, [UNKNOWN], anime) == PushAll(Push(before, UNKNOWN, anime), [], anime);
        assert GenreMap(keys, buckets) == target;
      }
      i := i + 1;
    }
    assert animeList[..i] == animeList;
    genreMap := GenreMap(keys, buckets);
  }
}
