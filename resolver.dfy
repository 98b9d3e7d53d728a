/**
 * Identifier resolution (`getGuid`): from the search endpoint's answer,
 * pick the FACEIT guid of one player, preferring the first "AVAILABLE" one.
 */
module Resolver {
  import opened Js
  import opened Locale

  /** The status string the search prefers. */
  const Available: string := "AVAILABLE"

  /** One entry of `payload.players.results`. */
  datatype Candidate = Candidate(guid: string, status: string)

  /**
   * The parsed search response as `getGuid` reads it: either
   * `payload.players.results` is a list, or reading it (or calling `find`
   * on it) raises a TypeError whose engine-specific message is carried.
   */
  datatype SearchBody = Results(players: seq<Candidate>) | Malformed(typeError: string)

  /** The index `players.find(p => p.status === "AVAILABLE")` stops at, if any. */
  function FindAvailable(players: seq<Candidate>): (r: Option<nat>)
    ensures r.Some? ==> r.value < |players| && players[r.value].status == Available
    ensures r.Some? ==> forall j :: 0 <= j < r.value ==> players[j].status != Available
    ensures r.None? ==> forall j :: 0 <= j < |players| ==> players[j].status != Available
  {
    if players == [] then None
    else if players[0].status == Available then Some(0)
    else
      match FindAvailable(players[1..])
      case None => None
      case Some(k) => Some(k + 1)
  }

  /**
   * `getGuid` given how the search request ended. A failed request or a
   * malformed payload becomes a request-API error carrying the cause; an
   * empty list becomes "player not found".
   */
  function GetGuid(l: Lang, search: Outcome<SearchBody>): (r: Outcome<string>)
    ensures r.Returns? ==> search.Returns? && search.value.Results?
    ensures r.Returns? ==> exists i :: 0 <= i < |search.value.players| && search.value.players[i].guid == r.value
    ensures r.Throws? ==> r.message == PlayerNotFound(l) || exists cause :: r.message == RequestApiError(l) + ": " + cause
  {
    match search
    case Throws(cause) => Throws(RequestApiError(l) + ": " + cause)
    case Returns(Malformed(cause)) => Throws(RequestApiError(l) + ": " + cause)
    case Returns(Results(players)) =>
      match FindAvailable(players)
      case Some(i) => Returns(players[i].guid)
      case None =>
        if |players| > 0 then Returns(players[0].guid)
        else Throws(PlayerNotFound(l))
  }

  /** The first AVAILABLE candidate wins, wherever it stands in the list. */
  lemma GetGuidFirstAvailable(l: Lang, players: seq<Candidate>, i: nat)
    requires i < |players| && players[i].status == Available
    requires forall j :: 0 <= j < i ==> players[j].status != Available
    ensures GetGuid(l, Returns(Results(players))) == Returns(players[i].guid)
  {
  }

  /** Without an AVAILABLE candidate, a non-empty list yields the guid at index 0. */
  lemma GetGuidFallback(l: Lang, players: seq<Candidate>)
    requires |players| > 0
    requires forall j :: 0 <= j < |players| ==> players[j].status != Available
    ensures GetGuid(l, Returns(Results(players))) == Returns(players[0].guid)
  {
  }

  /** An empty list, and only an empty list, fails with exactly "player not found". */
  lemma GetGuidNotFound(l: Lang, search: Outcome<SearchBody>)
    ensures GetGuid(l, search) == Throws(PlayerNotFound(l)) <==> search == Returns(Results([]))
  {
  }

  /** A failed request or malformed payload fails with the request-API error and its cause. */
  lemma GetGuidRequestError(l: Lang, search: Outcome<SearchBody>, cause: string)
    requires search == Throws(cause) || search == Returns(Malformed(cause))
    ensures GetGuid(l, search) == Throws(RequestApiError(l) + ": " + cause)
    ensures GetGuid(l, search) != Throws(PlayerNotFound(l))
  {
    MessagesDistinct(l, cause);
  }
}
