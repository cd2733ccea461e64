/**
 * The card record the Scryfall API returns, restricted to the keys the
 * resolution and classification code reads or writes.
 */
module Cards {
  import opened Wrappers

  /** One `all_parts` entry: a reference to a related card. */
  datatype Part = Part(component: Option<string>, name: string, uri: string)

  /** One `card_faces` entry. */
  datatype Face = Face(name: string, typeLine: string, objectKind: string)

  /**
   * A card dict. Optional keys whose absence the code tests (`'card_faces' in
   * data`, `setdefault('frame_effects', [])`, `.get('type_line', '')`) are
   * Options; lists the code only reads through `.get(key, [])` are sequences
   * with the empty list standing for an absent key.
   */
  datatype Card = Card(
    objectKind: Option<string>,
    layout: string,
    nameNormalized: string,
    setType: Option<string>,
    typeLine: Option<string>,
    keywords: seq<string>,
    allParts: seq<Part>,
    cardFaces: Option<seq<Face>>,
    frameEffects: Option<seq<string>>)
}

/**
 * The request functions of the Scryfall client: the terminal exception
 * boundary, the playable-card filter and the two card lookups. The HTTP
 * round trip itself is an input.
 */
module ScryfallRequests {
  import opened Wrappers
  import opened Text
  import opened Cards

  /** The typed "not found" value; `ScryfallError()` has every field unset. */
  datatype ScryfallError = ScryfallError(
    url: Option<string>,
    name: Option<string>,
    code: Option<string>,
    number: Option<string>,
    lang: Option<string>)

  /** `ScryfallError()`, as `handle_final_exception` builds it. */
  function EmptyError(): ScryfallError {
    ScryfallError(None, None, None, None, None)
  }

  /** What a request function returns: its value, or a ScryfallError. */
  datatype Reply<T> = Ok(value: T) | Err(error: ScryfallError)

  /** A call of a decorated function: it returned, or it raised. */
  datatype Attempt<T> = Finished(reply: Reply<T>) | Raised

  /** The `fail_response` argument: the string 'error', or any other value. */
  datatype FailResponse<T> = ErrorMarker | FailValue(value: T)

  /** One HTTP round trip: the call raised, or a decoded body came back from `url`. */
  datatype HttpReply<T> = HttpRaised | Response(url: string, body: T)

  /**
   * `handle_final_exception(fail_response)` applied to one call. No exception
   * escapes: a raised call becomes `fail_response`, where 'error' stands for
   * an empty ScryfallError, and a call that returned passes through untouched.
   */
  function HandleFinalException<T>(attempt: Attempt<T>, failResponse: FailResponse<T>): (r: Reply<T>)
    ensures attempt.Finished? ==> r == attempt.reply
    ensures attempt.Raised? && failResponse.ErrorMarker? ==> r == Err(EmptyError())
    ensures attempt.Raised? && failResponse.FailValue? ==> r == Ok(failResponse.value)
  {
    match attempt
    case Finished(reply) => reply
    case Raised =>
      if failResponse.ErrorMarker? then Err(EmptyError()) else Ok(failResponse.value)
  }

  /** `check_playable_card`: minigame sets and art-series or reversible layouts are not game pieces. */
  predicate CheckPlayableCard(card: Card) {
    if card.setType == Some("minigame") then false
    else if card.layout in ["art_series", "reversible_card"] then false
    else true
  }

  /** The rule `check_playable_card` implements, stated as one equivalence. */
  lemma PlayableIff(card: Card)
    ensures CheckPlayableCard(card) <==>
      card.setType != Some("minigame") && card.layout != "art_series" && card.layout != "reversible_card"
  {
  }

  /** The first playable card of a search page, as the `for ... return c` loop finds it. */
  function FirstPlayable(cards: seq<Card>): (r: Option<Card>)
    ensures r.None? <==> forall i :: 0 <= i < |cards| ==> !CheckPlayableCard(cards[i])
    ensures r.Some? ==> exists k :: 0 <= k < |cards| && cards[k] == r.value
                          && CheckPlayableCard(cards[k])
                          && forall j :: 0 <= j < k ==> !CheckPlayableCard(cards[j])
  {
    if |cards| == 0 then None
    else if CheckPlayableCard(cards[0]) then
      Some(cards[0])
    else
      var rest := FirstPlayable(cards[1..]);
      assert forall i :: 1 <= i < |cards| ==> cards[i] == cards[1..][i - 1];
      if rest.Some? then
        var k :| 0 <= k < |cards[1..]| && cards[1..][k] == rest.value
                 && CheckPlayableCard(cards[1..][k])
                 && forall j :: 0 <= j < k ==> !CheckPlayableCard(cards[1..][j]);
        assert cards[k + 1] == rest.value;
        rest
      else rest
  }

  /** The language suffix of the unique-lookup URL: empty for English. */
  function LangSuffix(lang: string): string {
    if lang == "en" then "" else "/" + lang
  }

  /**
   * The body of `get_card_unique`. It has no `extras` parameter, so a call
   * that passes one raises TypeError before the body runs; a missing set
   * code raises AttributeError at `card_set.lower()`.
   */
  function UniqueAttempt(
    fetch: (string, string, string) -> HttpReply<Card>,
    cardSet: Option<string>, number: string, lang: string, extrasGiven: bool): Attempt<Card>
  {
    if extrasGiven || cardSet.None? then Raised
    else
      var suffix := LangSuffix(lang);
      match fetch(Lower(cardSet.value), number, suffix)
      case HttpRaised => Raised
      case Response(url, card) =>
        if card.objectKind != Some("error") && CheckPlayableCard(card) then Finished(Ok(card))
        else Finished(Err(ScryfallError(Some(url), None, cardSet, Some(number), Some(suffix))))
  }

  /** `get_card_unique`, with the decorator's exception boundary. */
  function GetCardUnique(
    fetch: (string, string, string) -> HttpReply<Card>,
    cardSet: Option<string>, number: string, lang: string, extrasGiven: bool): (r: Reply<Card>)
    ensures r.Ok? ==> r.value.objectKind != Some("error") && CheckPlayableCard(r.value)
    ensures r.Ok? <==> !extrasGiven && cardSet.Some?
                       && var resp := fetch(Lower(cardSet.value), number, LangSuffix(lang));
                          resp.Response? && resp.body.objectKind != Some("error") && CheckPlayableCard(resp.body)
    ensures r.Ok? ==> r.value == fetch(Lower(cardSet.value), number, LangSuffix(lang)).body
    ensures extrasGiven || cardSet.None? ==> r == Err(EmptyError())
    ensures !extrasGiven && cardSet.Some? ==>
      var resp := fetch(Lower(cardSet.value), number, LangSuffix(lang));
      && (resp.HttpRaised? ==> r == Err(EmptyError()))
      && (resp.Response? && !r.Ok? ==>
            r == Err(ScryfallError(Some(resp.url), None, cardSet, Some(number), Some(LangSuffix(lang)))))
  {
    HandleFinalException(UniqueAttempt(fetch, cardSet, number, lang, extrasGiven), ErrorMarker)
  }

  /** The query parameters `get_card_search` sends. */
  datatype SearchParams = SearchParams(unique: string, order: string, dir: string, includeExtras: bool, q: string)

  /** The search settings read from the configuration. */
  datatype SearchConfig = SearchConfig(scryUnique: string, scrySorting: string, scryAscending: bool, scryExtras: bool)

  /**
   * The exact-name query string: `!"name" lang:xx`, followed by ` set:` and
   * the lower-cased code only when the set is given and non-empty.
   */
  function SearchQuery(cardName: string, cardSet: Option<string>, lang: string): (r: string)
    ensures var head := "!\"" + cardName + "\" lang:" + lang;
      && |head| <= |r| && r[..|head|] == head
      && (cardSet.Some? && cardSet.value != "" ==> r[|head|..] == " set:" + Lower(cardSet.value))
      && (cardSet.None? || cardSet.value == "" ==> r == head)
  {
    var head := "!\"" + cardName + "\" lang:" + lang;
    var r := "!\"" + cardName + "\"" + " lang:" + lang
      + (if cardSet.Some? && cardSet.value != "" then " set:" + Lower(cardSet.value) else "");
    assert r == head + (if cardSet.Some? && cardSet.value != "" then " set:" + Lower(cardSet.value) else "");
    r
  }

  /** All parameters of one search request. */
  function SearchRequest(cfg: SearchConfig, cardName: string, cardSet: Option<string>, lang: string, extras: bool): (r: SearchParams)
    ensures r.unique == cfg.scryUnique && r.order == cfg.scrySorting
    ensures r.dir == "asc" <==> cfg.scryAscending
    ensures r.dir in {"asc", "desc"}
    ensures r.includeExtras <==> extras || cfg.scryExtras
    ensures r.q == SearchQuery(cardName, cardSet, lang)
  {
    SearchParams(cfg.scryUnique, cfg.scrySorting, if cfg.scryAscending then "asc" else "desc",
                 if extras then extras else cfg.scryExtras, SearchQuery(cardName, cardSet, lang))
  }

  /** `get_card_search`, with the decorator's exception boundary; the body is the `data` list. */
  function GetCardSearch(
    fetch: SearchParams -> HttpReply<seq<Card>>, cfg: SearchConfig,
    cardName: string, cardSet: Option<string>, lang: string, extras: bool): (r: Reply<Card>)
    ensures var resp := fetch(SearchRequest(cfg, cardName, cardSet, lang, extras));
      && (resp.HttpRaised? ==> r == Err(EmptyError()))
      && (resp.Response? ==> (r.Ok? <==> exists i :: 0 <= i < |resp.body| && CheckPlayableCard(resp.body[i])))
      && (resp.Response? && r.Ok? ==> r.value in resp.body && FirstPlayable(resp.body) == Some(r.value))
      && (resp.Response? && r.Err? ==>
            r.error == ScryfallError(Some(resp.url), Some(cardName), cardSet, None, Some(lang)))
    ensures r.Ok? ==> CheckPlayableCard(r.value)
  {
    var attempt :=
      match fetch(SearchRequest(cfg, cardName, cardSet, lang, extras))
      case HttpRaised => Raised
      case Response(url, cards) =>
        match FirstPlayable(cards)
        case Some(c) => Finished(Ok(c))
        case None => Finished(Err(ScryfallError(Some(url), Some(cardName), cardSet, None, Some(lang))));
    HandleFinalException(attempt, ErrorMarker)
  }
}
