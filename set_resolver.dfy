/**
 * Set data: the Scryfall set record, the MTGJSON set record, their merge,
 * and the on-disk cache policy of `get_set_data`.
 */
module SetResolver {
  import opened Wrappers
  import opened Json
  import opened Text
  import opened ScryfallRequests

  /** The keys `get_set_mtgjson` pops without a default (`MTGJSON_SET_DATA_EXTRA`). */
  const MtgjsonExtraKeys: seq<string> := ["sealedProduct", "booster", "cards"]

  /**
   * `get_set_scryfall` on the decoded body of `/sets/{CODE}`: `scryfall`
   * defaults to True; a body without a truthy `name` gives `{}`, and so does
   * a body that is not an object or a request that raised.
   */
  function ScryfallSetRecord(resp: HttpReply<Value>): (r: Dict)
    ensures r != map[] ==> resp.Response? && resp.body.VDict?
    ensures r != map[] ==> "scryfall" in r && Truthy(Get(r, "name"))
    ensures r != map[] && "scryfall" !in resp.body.fields ==> r["scryfall"] == VBool(true)
    ensures r != map[] ==> r.Keys == resp.body.fields.Keys + {"scryfall"}
                           && forall k :: k in resp.body.fields ==> r[k] == resp.body.fields[k]
    ensures r == map[] <==> !(resp.Response? && resp.body.VDict? && Truthy(Get(resp.body.fields, "name")))
  {
    match resp
    case HttpRaised => map[]
    case Response(_, body) =>
      match body
      case VDict(j) =>
        var withMarker := if "scryfall" in j then j else j["scryfall" := VBool(true)];
        if Truthy(Get(withMarker, "name")) then withMarker else map[]
      case _ => map[]
  }

  /** The `data` object of an MTGJSON reply, when the reply is one (`.json().get('data', {})`). */
  function MtgjsonData(resp: HttpReply<Value>): Option<Value> {
    match resp
    case HttpRaised => None
    case Response(_, body) =>
      if body.VDict? then Some(GetOr(body.fields, "data", VDict(map[]))) else None
  }

  /**
   * The MTGJSON record: `tokenCount` replaces `tokens`, the three bulky keys
   * are dropped, and a record without a truthy `name` is `{}`. Every raise
   * along the way (no object, `len` of a number, a missing bulky key) also
   * gives `{}` through the decorator.
   */
  function MtgjsonSetRecord(resp: HttpReply<Value>): (r: Dict)
    ensures r != map[] ==> Truthy(Get(r, "name")) && "tokenCount" in r
    ensures forall k :: k in MtgjsonExtraKeys ==> k !in r
    ensures "tokens" !in r
    ensures MtgjsonData(resp).Some? && MtgjsonData(resp).value.VDict? ==>
      (exists k :: k in MtgjsonExtraKeys && k !in MtgjsonData(resp).value.fields) ==> r == map[]
    ensures r == map[] <==>
      !(MtgjsonData(resp).Some? && MtgjsonData(resp).value.VDict?
        && var j := MtgjsonData(resp).value.fields;
           Len(GetOr(j, "tokens", VList([]))).Some? && (forall k :: k in MtgjsonExtraKeys ==> k in j)
           && Truthy(Get(j, "name")))
  {
    match MtgjsonData(resp)
    case None => map[]
    case Some(data) =>
      if !data.VDict? then map[]
      else
        var j := data.fields;
        var tokens := GetOr(j, "tokens", VList([]));
        if Len(tokens).None? then map[]
        else if exists k :: k in MtgjsonExtraKeys && k !in j then map[]
        else
          var trimmed := (j - {"tokens"})["tokenCount" := VInt(Len(tokens).value)] - set k | k in MtgjsonExtraKeys;
          assert Get(trimmed, "name") == Get(j, "name");
          if Truthy(Get(trimmed, "name")) then trimmed else map[]
  }

  /** `j.pop(key)` on a dict: the map without the key, or None (KeyError) when it is missing. */
  function Pop(j: Dict, key: string): Option<Dict> {
    if key in j then Some(j - {key}) else None
  }

  /**
   * `get_set_mtgjson`, step by step: pop `tokens` into `tokenCount`, pop the
   * extra keys one by one (the first missing one raises), test the name.
   */
  method GetSetMtgjson(resp: HttpReply<Value>) returns (r: Dict)
    ensures r == MtgjsonSetRecord(resp)
  {
    var data := MtgjsonData(resp);
    if data.None? || !data.value.VDict? {
      return map[];
    }
    var j := data.value.fields;
    var tokens := GetOr(j, "tokens", VList([]));
    j := j - {"tokens"};
    var count := Len(tokens);
    if count.None? {
      return map[];
    }
    j := j["tokenCount" := VInt(count.value)];
    var i := 0;
    while i < |MtgjsonExtraKeys|
      invariant 0 <= i <= |MtgjsonExtraKeys|
      invariant forall n :: 0 <= n < i ==> MtgjsonExtraKeys[n] in data.value.fields
      invariant j == (data.value.fields - {"tokens"})["tokenCount" := VInt(count.value)]
                       - set n | 0 <= n < i :: MtgjsonExtraKeys[n]
    {
      var popped := Pop(j, MtgjsonExtraKeys[i]);
      if popped.None? {
        return map[];
      }
      j := popped.value;
      i := i + 1;
    }
    assert (set n | 0 <= n < i :: MtgjsonExtraKeys[n]) == set k | k in MtgjsonExtraKeys;
    r := if Truthy(Get(j, "name")) then j else map[];
  }

  /** The MTGJSON record keeps every other key of the `data` object with its value. */
  lemma MtgjsonKeepsOtherKeys(resp: HttpReply<Value>, k: string)
    requires MtgjsonSetRecord(resp) != map[]
    requires k != "tokens" && k != "tokenCount" && k !in MtgjsonExtraKeys
    ensures MtgjsonData(resp).Some? && MtgjsonData(resp).value.VDict?
    ensures var j := MtgjsonData(resp).value.fields;
      (k in j <==> k in MtgjsonSetRecord(resp)) && (k in j ==> MtgjsonSetRecord(resp)[k] == j[k])
  {
  }

  /** The token count is the length of the `tokens` entry, zero when there is none. */
  lemma MtgjsonTokenCount(resp: HttpReply<Value>)
    requires MtgjsonSetRecord(resp) != map[]
    ensures MtgjsonData(resp).Some? && MtgjsonData(resp).value.VDict?
    ensures var j := MtgjsonData(resp).value.fields;
      MtgjsonSetRecord(resp)["tokenCount"] == VInt(if "tokens" in j then Len(j["tokens"]).value else 0)
  {
  }

  /** A file of the set cache, as `load_data_file` reads it. */
  datatype CacheFile = Unreadable | Stored(data: Dict)

  /** The cache file name of a set: `SET-{CODE}.json`. */
  function CachePath(cardSet: string): string {
    "SET-" + Upper(cardSet) + ".json"
  }

  /** A cache hit: the file exists, loads, and already holds Scryfall data. */
  predicate CacheHit(cache: map<string, CacheFile>, cardSet: string) {
    CachePath(cardSet) in cache && cache[CachePath(cardSet)].Stored? && "scryfall" in cache[CachePath(cardSet)].data
  }

  /** The two set providers. */
  datatype SetApi = SetApi(scryfall: string -> HttpReply<Value>, mtgjson: string -> HttpReply<Value>)

  /** One request `get_set_data` issues, with the upper-cased code it asks for. */
  datatype SetFetch = ScryfallSetFetch(code: string) | MtgjsonSetFetch(code: string)

  /** The code MTGJSON is asked for: a token set's `parent_set_code` (if any), else the set itself. */
  function MtgjsonCode(scry: Dict, cardSet: string): Value {
    if GetOr(scry, "set_type", VStr("")) == VStr("token") then GetOr(scry, "parent_set_code", VStr(cardSet))
    else VStr(cardSet)
  }

  /**
   * `get_set_data`. Besides the record it returns the requests it issued and
   * the record it writes to the cache, if any.
   */
  method GetSetData(cardSet: string, cache: map<string, CacheFile>, api: SetApi)
    returns (r: Dict, fetches: seq<SetFetch>, written: Option<Dict>)
    ensures CacheHit(cache, cardSet) ==> r == cache[CachePath(cardSet)].data && fetches == [] && written == None
    ensures !CacheHit(cache, cardSet) ==>
      var scry := ScryfallSetRecord(api.scryfall(Upper(cardSet)));
      var code := MtgjsonCode(scry, cardSet);
      var mtg := if code.VStr? then MtgjsonSetRecord(api.mtgjson(Upper(code.s))) else map[];
      && fetches == [ScryfallSetFetch(Upper(cardSet))] + (if code.VStr? then [MtgjsonSetFetch(Upper(code.s))] else [])
      && r.Keys == scry.Keys + mtg.Keys
      && (forall k :: k in mtg ==> r[k] == mtg[k])
      && (forall k :: k in scry && k !in mtg ==> r[k] == scry[k])
      && (written.Some? <==> mtg != map[] || "printed_size" in r)
    ensures written.Some? ==> written.value == r && Truthy(Get(r, "name"))
    ensures written.Some? && "scryfall" in r ==> CacheHit(cache[CachePath(cardSet) := Stored(r)], cardSet)
  {
    var path := CachePath(cardSet);
    if path in cache && cache[path].Stored? {
      var data := cache[path].data;
      if "scryfall" in data {
        return data, [], None;
      }
    }

    var dataScry := ScryfallSetRecord(api.scryfall(Upper(cardSet)));
    fetches := [ScryfallSetFetch(Upper(cardSet))];
    var code := MtgjsonCode(dataScry, cardSet);

    var dataMtg: Dict := map[];
    if code.VStr? {
      fetches := fetches + [MtgjsonSetFetch(Upper(code.s))];
      dataMtg := GetSetMtgjson(api.mtgjson(Upper(code.s)));
    }
    dataScry := dataScry + dataMtg;

    written := None;
    if (dataMtg != map[] && dataScry != map[]) || "printed_size" in dataScry {
      written := Some(dataScry);
    }
    r := dataScry;
  }
}
