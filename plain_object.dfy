/**
 * The grouping exactly as written: `genreMap` is a plain `{}` object, so a
 * lookup of a key it has not created falls through to the names every object
 * inherits from `Object.prototype`. Those are truthy, so no bucket is created,
 * and none of them has `push`, so the push throws a `TypeError`.
 */
module PlainObjectGrouping {
  import opened AnimeRecords
  import opened GenreGrouping

  /** The property names a plain object inherits from `Object.prototype`. */
  const INHERITED: set<string> := {
    "constructor", "hasOwnProperty", "isPrototypeOf", "propertyIsEnumerable",
    "toLocaleString", "toString", "valueOf", "__proto__",
    "__defineGetter__", "__defineSetter__", "__lookupGetter__", "__lookupSetter__"
  }

  /** What `genreMap[g]` reads. */
  datatype Lookup = Missing | OwnBucket | InheritedMember

  function Get(d: GenreMap, g: string): Lookup {
    if g in d.buckets then OwnBucket else if g in INHERITED then InheritedMember else Missing
  }

  /** The loop either finishes with the object or stops at the key whose `push` throws. */
  datatype Outcome = Finished(genreMap: GenreMap) | TypeError(key: string)

  /** One push on the plain object: an inherited member is truthy, so it is pushed onto and throws. */
  function PushAsWritten(d: GenreMap, g: string, a: Anime): Outcome {
    match Get(d, g)
    case InheritedMember => TypeError(g)
    case _ => Finished(Push(d, g, a))
  }

  function PushAllAsWritten(d: GenreMap, ks: seq<string>, a: Anime): Outcome
    decreases |ks|
  {
    if ks == [] then Finished(d)
    else match PushAsWritten(d, ks[0], a)
      case TypeError(k) => TypeError(k)
      case Finished(next) => PushAllAsWritten(next, ks[1..], a)
  }

  /** Lines 27-38 run on a plain object. */
  function GroupAsWritten(list: seq<Anime>): Outcome
    decreases |list|
  {
    if list == [] then Finished(GenreMap([], map[]))
    else match GroupAsWritten(list[..|list| - 1])
      case TypeError(k) => TypeError(k)
      case Finished(d) => PushAllAsWritten(d, BucketKeys(list[|list| - 1]), list[|list| - 1])
  }

  /** Some record is pushed under an inherited name. */
  ghost predicate UsesInheritedKey(list: seq<Anime>) {
    exists i, g :: 0 <= i < |list| && g in BucketKeys(list[i]) && g in INHERITED
  }

  lemma {:induction false} PushAllAsWrittenAgrees(d: GenreMap, ks: seq<string>, a: Anime)
    requires forall g :: g in d.buckets ==> g !in INHERITED
    ensures (forall k :: k in ks ==> k !in INHERITED) ==> PushAllAsWritten(d, ks, a) == Finished(PushAll(d, ks, a))
    ensures (exists k :: k in ks && k in INHERITED) ==>
              PushAllAsWritten(d, ks, a).TypeError? && PushAllAsWritten(d, ks, a).key in INHERITED
    decreases |ks|
  {
    if ks != [] {
      if ks[0] !in INHERITED {
        var next := Push(d, ks[0], a);
        assert forall g :: g in next.buckets ==> g !in INHERITED;
        PushAllAsWrittenAgrees(next, ks[1..], a);
        assert ks == [ks[0]] + ks[1..];
      }
    }
  }

  /**
   * As written, the grouping finishes exactly when no record is pushed under
   * an inherited name, and then agrees with `Group`; otherwise it throws at
   * one of those names.
   */
  lemma {:induction false} AsWrittenAgreesUnlessInherited(list: seq<Anime>)
    ensures GroupAsWritten(list).Finished? <==> !UsesInheritedKey(list)
    ensures GroupAsWritten(list).Finished? ==> GroupAsWritten(list).genreMap == Group(list)
    ensures GroupAsWritten(list).TypeError? ==> GroupAsWritten(list).key in INHERITED
    decreases |list|
  {
    if list != [] {
      var n := |list| - 1;
      var prefix := list[..n];
      AsWrittenAgreesUnlessInherited(prefix);
      assert forall i :: 0 <= i < n ==> prefix[i] == list[i];
      if GroupAsWritten(prefix).Finished? {
        var d := Group(prefix);
        forall g | g in d.buckets
          ensures g !in INHERITED
        {
          BucketFollowsInput(prefix, g);
          var o := Origins(prefix, g);
          assert o != [];
          PositionMultiplicity(prefix, g, o[0]);
        }
        PushAllAsWrittenAgrees(d, BucketKeys(list[n]), list[n]);
        if UsesInheritedKey(list) {
          var i, g :| 0 <= i < |list| && g in BucketKeys(list[i]) && g in INHERITED;
          assert i == n;
        }
      } else {
        var i, g :| 0 <= i < n && g in BucketKeys(prefix[i]) && g in INHERITED;
        assert g in BucketKeys(list[i]);
      }
    }
  }

  /**
   * A record tagged "constructor": the page's grouping throws, where a real
   * dictionary gives the tag a bucket of its own.
   */
  lemma ConstructorGenreThrows(r: Anime)
    requires r.genres == Some(["constructor"])
    ensures GroupAsWritten([r]) == TypeError("constructor")
    ensures Group([r]).buckets == map["constructor" := [r]]
  {
    assert [r][..0] == [];
    assert ["constructor"][1..] == [];
  }
}
