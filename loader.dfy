/**
 * Settling the single request for the list: the component's three pieces of
 * state and how the `try`/`catch`/`finally` of `fetchAnime` changes them.
 * The request itself is not modelled; its outcome is an input.
 */
module Loader {
  import opened AnimeRecords

  /** The message thrown when the response status is not ok. */
  const FETCH_FAILED: string := "Failed to fetch anime list"

  /** What reading the response body as JSON yields. */
  datatype Body = Parsed(data: seq<Anime>) | Malformed(message: string)

  /** How the request ended: rejected without a response, or a response with its ok flag and body. */
  datatype FetchOutcome = Rejected(message: string) | Response(ok: bool, body: Body)

  /** `animeList`, `loading` and `error` at one moment; `None` stands for `null`. */
  datatype Snapshot = Snapshot(animeList: seq<Anime>, loading: bool, error: Option<string>)

  /** The state the hooks start in at mount. */
  const INITIAL: Snapshot := Snapshot([], true, None)

  /** The message of the error the `try` block throws, or `None` when it runs to its end. */
  function Thrown(o: FetchOutcome): (m: Option<string>)
    ensures m.None? <==> o.Response? && o.ok && o.body.Parsed?
  {
    match o
    case Rejected(msg) => Some(msg)
    case Response(ok, body) =>
      if !ok then Some(FETCH_FAILED)
      else match body
        case Parsed(_) => None
        case Malformed(msg) => Some(msg)
  }

  /** The state once the request has ended with `o`, starting from `s`. */
  function Settled(s: Snapshot, o: FetchOutcome): Snapshot {
    match Thrown(o)
    case None => Snapshot(o.body.data, false, s.error)
    case Some(msg) => Snapshot(s.animeList, false, Some(msg))
  }

  /**
   * From the state at mount, one settlement always ends loading; it either
   * stores the parsed list and leaves `error` null, or leaves the list empty
   * and records the thrown message. A response that is not ok yields the
   * fixed message whatever its body holds.
   */
  lemma SettleFromMount(o: FetchOutcome)
    ensures !Settled(INITIAL, o).loading
    ensures Settled(INITIAL, o).error.None? <==> o.Response? && o.ok && o.body.Parsed?
    ensures Settled(INITIAL, o).error.None? ==> Settled(INITIAL, o).animeList == o.body.data
    ensures Settled(INITIAL, o).error.Some? ==> Settled(INITIAL, o).animeList == []
    ensures o.Response? && !o.ok ==> Settled(INITIAL, o).error == Some(FETCH_FAILED)
    ensures o.Rejected? ==> Settled(INITIAL, o).error == Some(o.message)
    ensures o.Response? && o.ok && o.body.Malformed? ==> Settled(INITIAL, o).error == Some(o.body.message)
  {
  }

  /** The component's state hooks. */
  class WatchlistState {
    var animeList: seq<Anime>
    var loading: bool
    var error: Option<string>

    /** The hooks' current values. */
    function Current(): Snapshot
      reads this
    {
      Snapshot(animeList, loading, error)
    }

    constructor ()
      ensures Current() == INITIAL
    {
      animeList, loading, error := [], true, None;
    }

    /** The body of `fetchAnime` after the request has ended with `outcome`. */
    method FetchAnime(outcome: FetchOutcome)
      modifies this
      ensures !loading
      ensures Current() == Settled(old(Current()), outcome)
    {
      var thrown: Option<string> := None;
      // try
      if outcome.Rejected? {
        thrown := Some(outcome.message);
      } else if !outcome.ok {
        thrown := Some(FETCH_FAILED);
      } else if outcome.body.Malformed? {
        thrown := Some(outcome.body.message);
      } else {
        animeList := outcome.body.data;
      }
      // catch
      if thrown.Some? {
        error := thrown;
      }
      // finally
      loading := false;
    }
  }
}
