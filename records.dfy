/** The anime record as the list endpoint delivers it. */
module AnimeRecords {

  datatype Option<+T> = None | Some(value: T)

  /**
   * One catalogue entry. The page reads `mal_id` (the card key), `url`,
   * `image` and `title` only to draw a card; `genres` is the only field the
   * logic looks at. It may be missing altogether, hence the `Option`.
   */
  datatype Anime = Anime(malId: int, url: string, image: string, title: string, genres: Option<seq<string>>)

  /** The bucket that collects records without genres. */
  const UNKNOWN: string := "Unknown"

  /** The truthiness test on a record's genres: present and not empty. */
  predicate HasGenres(a: Anime) {
    a.genres.Some? && |a.genres.value| > 0
  }

  /** The keys a record is pushed under, in the order it is pushed. */
  function BucketKeys(a: Anime): (ks: seq<string>)
    ensures |ks| > 0
  {
    if HasGenres(a) then a.genres.value else [UNKNOWN]
  }

  /** How often `g` occurs in `ks`. */
  function Occurrences(ks: seq<string>, g: string): (n: nat)
    ensures n <= |ks|
    ensures n > 0 <==> g in ks
  {
    if ks == [] then 0 else (if ks[0] == g then 1 else 0) + Occurrences(ks[1..], g)
  }
}
