/**
 * `get_card_data`: the strategy choice (unique lookup or search), the
 * language attempt, the English attempt, the retry with extras, and the
 * post-processing of a record.
 */
module CardResolver {
  import opened Wrappers
  import opened Text
  import opened Cards
  import opened ScryfallRequests
  import opened Classifier

  /** The settings `get_card_data` and `get_card_search` read. */
  datatype Config = Config(lang: string, search: SearchConfig)

  /** The remote API, as two functions from request arguments to replies. */
  datatype CardApi = CardApi(
    unique: (string, string, string) -> HttpReply<Card>,
    search: SearchParams -> HttpReply<seq<Card>>)

  /** Which request function is called, with its positional arguments. */
  datatype Lookup = UniqueLookup(setCode: Option<string>, number: string) | SearchLookup(name: string, setCode: Option<string>)

  /** One call of the chosen function: its arguments plus `lang` and, when passed, `extras`. */
  datatype Call = Call(lookup: Lookup, lang: string, extras: bool)

  /** The result of `get_card_data`: a processed record, the error value, or an escaped exception. */
  datatype Resolution = Resolved(card: Card) | NotFound(error: ScryfallError) | Crashed(fault: Fault)

  /**
   * `action` and `params`: a non-empty collector number selects the unique
   * lookup with the number stripped of leading '0' and ' '; otherwise the
   * search by name.
   */
  function ChooseLookup(cardName: string, cardSet: Option<string>, cardNumber: Option<string>): (l: Lookup)
    ensures l.UniqueLookup? <==> cardNumber.Some? && cardNumber.value != ""
    ensures l.UniqueLookup? ==> l == UniqueLookup(cardSet, LStrip(cardNumber.value, {'0', ' '}))
    ensures l.SearchLookup? ==> l == SearchLookup(cardName, cardSet)
  {
    if cardNumber.Some? && cardNumber.value != "" then UniqueLookup(cardSet, LStrip(cardNumber.value, {'0', ' '}))
    else SearchLookup(cardName, cardSet)
  }

  /** The reply of one call. Passing `extras` to `get_card_unique` raises TypeError inside the decorator. */
  function RunCall(cfg: Config, api: CardApi, call: Call): Reply<Card> {
    match call.lookup
    case UniqueLookup(code, number) => GetCardUnique(api.unique, code, number, call.lang, call.extras)
    case SearchLookup(name, code) => GetCardSearch(api.search, cfg.search, name, code, call.lang, call.extras)
  }

  /** A record is processed after `name_normalized` is stored in it; an error value is returned as it is. */
  function Finish(reply: Reply<Card>, nameNormalized: string, o: Oracle): Resolution {
    match reply
    case Err(e) => NotFound(e)
    case Ok(card) =>
      match Classify(card.(nameNormalized := nameNormalized), o)
      case Done(c) => Resolved(c)
      case Raised(f) => Crashed(f)
  }

  /** The end of `get_card_data`: process a record, pass an error value through. */
  method FinishReply(reply: Reply<Card>, nameNormalized: string, o: Oracle) returns (r: Resolution)
    ensures r == Finish(reply, nameNormalized, o)
  {
    if reply.Ok? {
      var processed := ProcessScryfallData(reply.value.(nameNormalized := nameNormalized), o);
      r := if processed.Done? then Resolved(processed.card) else Crashed(processed.fault);
    } else {
      r := NotFound(reply.error);
    }
  }

  /** The English attempt, then the retry with `extras=True` when it failed and extras are off. */
  method EnglishAttempts(cfg: Config, api: CardApi, lookup: Lookup) returns (reply: Reply<Card>, calls: seq<Call>)
    ensures var english := Call(lookup, "en", false);
      calls == [english] + (if RunCall(cfg, api, english).Err? && !cfg.search.scryExtras then [Call(lookup, "en", true)] else [])
    ensures reply == RunCall(cfg, api, calls[|calls| - 1])
  {
    var call := Call(lookup, "en", false);
    reply := RunCall(cfg, api, call);
    calls := [call];
    if reply.Err? && !cfg.search.scryExtras {
      call := Call(lookup, "en", true);
      reply := RunCall(cfg, api, call);
      calls := calls + [call];
    }
  }

  /**
   * `get_card_data`. Besides the result it returns the calls it made, in
   * order: the language attempt (when the language is not English), the
   * English attempt, and the retry with `extras=True` when that failed and
   * extras were not already on.
   */
  method GetCardData(cfg: Config, api: CardApi, o: Oracle,
                     cardName: string, cardSet: Option<string>, cardNumber: Option<string>)
    returns (r: Resolution, calls: seq<Call>)
    ensures 1 <= |calls| <= 3
    ensures forall i :: 0 <= i < |calls| ==> calls[i].lookup == ChooseLookup(cardName, cardSet, cardNumber)
    ensures r == Finish(RunCall(cfg, api, calls[|calls| - 1]), o.normalize(cardName), o)
    ensures cfg.lang != "en" ==> calls[0] == Call(ChooseLookup(cardName, cardSet, cardNumber), cfg.lang, false)
    ensures cfg.lang != "en" && RunCall(cfg, api, calls[0]).Ok? ==> |calls| == 1
    ensures var english := if cfg.lang != "en" then 1 else 0;
      (cfg.lang == "en" || RunCall(cfg, api, calls[0]).Err?) ==>
        && |calls| > english
        && calls[english] == Call(ChooseLookup(cardName, cardSet, cardNumber), "en", false)
        && (|calls| == english + 2 <==> RunCall(cfg, api, calls[english]).Err? && !cfg.search.scryExtras)
        && (|calls| == english + 2 ==> calls[english + 1] == Call(ChooseLookup(cardName, cardSet, cardNumber), "en", true))
        && |calls| <= english + 2
  {
    var nameNormalized := o.normalize(cardName);
    var lookup := ChooseLookup(cardName, cardSet, cardNumber);
    calls := [];

    if cfg.lang != "en" {
      var call := Call(lookup, cfg.lang, false);
      var card := RunCall(cfg, api, call);
      calls := calls + [call];
      if card.Ok? {
        r := FinishReply(card, nameNormalized, o);
        return;
      }
    }

    var card, english := EnglishAttempts(cfg, api, lookup);
    calls := calls + english;
    r := FinishReply(card, nameNormalized, o);
  }

  /**
   * With a collector number, the retry with extras reaches `get_card_unique`,
   * which has no such parameter: the call always comes back as the empty
   * ScryfallError, whatever the API would have answered.
   */
  lemma UniqueRetryIsEmptyError(cfg: Config, api: CardApi, code: Option<string>, number: string)
    ensures RunCall(cfg, api, Call(UniqueLookup(code, number), "en", true)) == Err(EmptyError())
  {
  }
}
