# Proxyshop card-data resolution, layout classification and template selection, in Dafny

Proxyshop renders Magic: The Gathering proxy cards from image files. The
filename tells it:
- the card name;
- optionally the artist `(...)`, the set code `[...]` and the creator `{...}`.

The project models four pieces.

**The Scryfall client's card logic** (`src/utils/scryfall.py`):
- the exception boundary of the request decorator;
- the playable-card filter;
- the unique (set + collector number) and search lookups;
- `get_card_data`: the language attempt, the English attempt and the retry with extras;
- `process_scryfall_data`, the layout classifier. It turns meld cards into transform cards with synthesised faces, relabels two-face records by the selected face's type line, and marks mutate and planeswalker cards.

**The set data**:
- the Scryfall set record;
- the MTGJSON set record, with its token count and the bulky keys removed;
- the cache policy and the merge of `get_set_data`;
- the structure of `parse_card_info`.

**The render job's preparation** (`proxyshop/render.py`):
- the filename tag parser `retrieve_card_info`;
- how `render` builds the layout object. A basic land bypasses the card lookup. The filename's artist and creator override the layout's. The collector number comes from the record. The set size falls back from `printed_size` to `card_count` to `"XXX"`.

**The plugin loader** (`plugins/loader.py`):
- the merge of every plugin's `template_map.json` into the main template map;
- the template lookup of `get_template`.

Modules:
- `Wrappers`, `Json` and `Text` (`common.dfy`): Option; a JSON value with Python-style truthiness; `lower`/`upper`/`lstrip`/`strip` on ASCII.
- `Cards` and `ScryfallRequests` (`scryfall_requests.dfy`): the card record and the request functions.
- `Classifier` (`classifier.dfy`): `process_scryfall_data` as a specification function `Classify` and as the step-by-step method `ProcessScryfallData`.
- `CardResolver` (`card_resolver.dfy`): `get_card_data`. It returns the calls it made, so the retry policy can be stated.
- `SetResolver` (`set_resolver.dfy`): the set functions. `GetSetData` returns the requests it issued and the record it writes to the cache.
- `CardInfo` (`card_info.dfy`): `parse_card_info`.
- `FileTags` (`file_tags.dfy`): `retrieve_card_info`, with the regular expressions written out as recursive functions.
- `PluginLoader` (`plugin_loader.dfy`): the merge as recursive functions plus the imperative loop proved equal to them.
- `Render` (`render.dfy`): the `CardLayout` object and the `render` method that fills it in.

Every exception the source lets escape is a value of the model:
- `Classifier.Fault`, for `process_scryfall_data`;
- `Crashed`, for `get_card_data` and `render`;
- `SelectionFailed` and `LoadFailed`, for `get_template`. `LoadFailed` is a missing or unparsable main `templates.json`, an unparsable plugin `template_map.json` (`MapFile.Unparsable`), or an unparsable working-directory `config.ini` in a folder that has one (`CwdConfig.ConfigUnparsable`). Each raises out of `get_template` and so out of `render`.

Everything the code catches is modelled as the value the handler returns. Network replies, the cache directory, the plugin folders, `normalize_str`, the `TransformIcons` enum, the `Reg` patterns and the layout constructors are inputs: datatypes of values and functions.

Behaviour of the code worth knowing:
- **Set merge collisions**: `data_scry.update(data_mtg)` lets MTGJSON win on every colliding key.
- **Persist test**: the test runs after the merge, so "both lookups valid" reduces to a non-empty MTGJSON record (`GetSetData`).
- **No retry at the decorator**: `handle_final_exception` is the innermost decorator, so the backoff decorator never sees an exception from the request function and never retries.
- **Extras retry with a collector number**: `get_card_unique` takes no `extras` argument, so the retry raises TypeError. It comes back as an empty `ScryfallError()` (`UniqueRetryIsEmptyError`).
- **MDFC relabelling**: `planeswalker_mdfc` is given for every two-face layout except `transform`, not only for `modal_dfc`.
- **Name cutting**: `retrieve_card_info` cuts the name at `" {"`, `" ["` or `" ("` and does not trim it.
- **Opener runs**: a run of openers such as `{{` is consumed whole by `\{+`.
- **`config.ini`**: the loader reads it from the working directory, not from the plugin's folder. So every plugin folder that has one gets the working directory's `Make.Default`.
- **Missing MTGJSON keys**: `get_set_mtgjson` pops `sealedProduct`, `booster` and `cards` without a default, so a record lacking any of them is `{}`.
- **Basic lands**:
  - A basic land's layout never has a collector number: `scryfall` is unbound in that branch, and the NameError is caught.
  - A basic land without a set tag raises at `None.upper()`.
- **Table templates**: `render` calls `loader.get_template_class` for a dict template, but `plugins/loader.py` defines no such function, so that branch raises.

## Model

| member | source | states |
|---|---|---|
| `ScryfallRequests.HandleFinalException` | src/utils/scryfall.py:56-75 | A call that returned passes through unchanged. A call that raised becomes `fail_response`, where 'error' means an empty ScryfallError. No exception escapes. |
| `ScryfallRequests.PlayableIff` | src/utils/scryfall.py:383-393 | A card is playable exactly when its set type is not `minigame` and its layout is neither `art_series` nor `reversible_card`. |
| `ScryfallRequests.FirstPlayable` | src/utils/scryfall.py:246-249 | None exactly when no card on the page is playable. Otherwise it is the playable card of least index. |
| `ScryfallRequests.GetCardUnique` | src/utils/scryfall.py:187-211 | Succeeds exactly when no `extras` is passed, a set is given, the request returns, and the record is neither an error object nor unplayable. A success is the fetched record under the lower-cased set and the language suffix. Passing extras, no set, or a request that raises gives the empty error. A returned record that is rejected gives the error with the URL, the set, the number and the language suffix. |
| `ScryfallRequests.GetCardSearch` | src/utils/scryfall.py:214-252 | A raised request gives the empty error. Otherwise it succeeds exactly when some returned card is playable, and the result is the first playable card of the page. A failure carries the URL, name, set and language. `include_extras` is the argument or the setting. |
| `ScryfallRequests.SearchQuery` | src/utils/scryfall.py:239-241 | The query starts with `!"name" lang:xx`. It is followed by ` set:` and the lower-cased code exactly when the set is given and non-empty; otherwise nothing follows. |
| `ScryfallRequests.SearchRequest` | src/utils/scryfall.py:231-241 | `unique` and `order` come from the settings. `dir` is `asc` exactly when the ascending setting is on, else `desc`. `include_extras` is the argument or the setting. `q` is the exact-name query. |
| `CardResolver.ChooseLookup` | src/utils/scryfall.py:117-119 | A non-empty collector number selects the unique lookup, with the number stripped of leading '0' and ' '. Anything else selects the search by name and set. |
| `CardResolver.GetCardData` | src/utils/scryfall.py:103-141 | One to three calls, all with the same lookup. For a non-English language the localized call comes first, and its success ends the job. The English call follows. A third call with `extras=True` happens exactly when the English call failed and extras are off. The result is the last call's reply, classified with `name_normalized` set. |
| `CardResolver.EnglishAttempts` | src/utils/scryfall.py:134-136 | The English call comes first. A second call with `extras=True` is made exactly when the English call failed and extras are off. The reply is the last call's. |
| `CardResolver.UniqueRetryIsEmptyError` | src/utils/scryfall.py:134-136 | The extras retry of a unique lookup is always the empty ScryfallError, whatever the API would answer. |
| `Classifier.MeldFronts` | src/utils/scryfall.py:405-408 | Only `meld_part` entries of `all_parts`, at most as many as there are parts. |
| `Classifier.MeldBack` | src/utils/scryfall.py:405-410 | None exactly when no part is a `meld_result`. Otherwise it is the last such part. |
| `Classifier.MeldFrontsConcat` | src/utils/scryfall.py:406-408 | The fronts of a concatenation are the fronts of each part, concatenated. |
| `Classifier.MeldFrontsExact` | src/utils/scryfall.py:406-408 | A part is among the fronts exactly when it is in `all_parts` and is a `meld_part`. |
| `Classifier.ProcessScryfallData` | src/utils/scryfall.py:396-457 | The loop over `all_parts` and the field-by-field rewriting compute exactly the classification `Classify`, including every exception. |
| `Classifier.FaceLayoutCases` | src/utils/scryfall.py:435-443 | The two-face relabelling goes Battle over Saga over Planeswalker. Planeswalker gives `planeswalker_tf` for `transform` and `planeswalker_mdfc` otherwise. With none of the three the layout is unchanged. |
| `Classifier.MeldClassification` | src/utils/scryfall.py:403-427 | A processed meld record had a result part and a usable front. Its faces are the fetched `[front[0], back]` when the name is the back's or the first front's, else `[front[1], back]`, each tagged `card_face`. The icon rule applies. The layout is `transform` relabelled by the type line of the face whose name matches the query, the second face if neither does. No other field changes. |
| `Classifier.MeldFailures` | src/utils/scryfall.py:403-420 | A meld record raises when it has no result part, no front part, or a single front that neither name matches. A face fetch that fails raises too. |
| `Classifier.MeldSucceeds` | src/utils/scryfall.py:403-427 | A meld record with a result part, a usable front and both faces fetched is processed without raising. |
| `Classifier.ProcessMeld` | src/utils/scryfall.py:403-427 | The loop over `all_parts` and the face fetches compute exactly the meld step of `Classify`. |
| `Classifier.MeldIconAppendedOnce` | src/utils/scryfall.py:424-426 | The meld icon is appended exactly when no frame effect is a transform icon. Afterwards one is, so a second application changes nothing. |
| `Classifier.ReprocessingMeldAddsNoMarker` | src/utils/scryfall.py:424-427 | Re-processing a processed meld record succeeds and keeps its faces and frame effects. |
| `Classifier.TwoFaceClassification` | src/utils/scryfall.py:430-444 | A non-meld record with faces selects the first face exactly when its normalized name matches, else the second, and raises when that face is absent. Only the layout changes, by the selected face's type line. |
| `Classifier.SingleFaceClassification` | src/utils/scryfall.py:446-457 | A record with no faces never raises. Only the layout changes: `mutate` for a Mutate keyword, else `planeswalker` for a Planeswalker type line, else nothing. |
| `SetResolver.ScryfallSetRecord` | src/utils/scryfall.py:320-336 | Empty exactly when there is no object body with a truthy name. Otherwise it is the body with `scryfall` defaulted in: every body key keeps its value, and `scryfall` is True when the body lacks it. |
| `SetResolver.MtgjsonSetRecord` | src/utils/scryfall.py:297-317 | Empty exactly when the reply has no `data` object, its `tokens` has no length, one of `sealedProduct`, `booster` and `cards` is missing, or its name is falsy. A non-empty record has a truthy name and a `tokenCount`. The three bulky keys and `tokens` are never in the result. |
| `SetResolver.GetSetMtgjson` | src/utils/scryfall.py:297-317 | The pop-by-pop computation equals `MtgjsonSetRecord`, so it has that function's properties. |
| `SetResolver.MtgjsonKeepsOtherKeys` | src/utils/scryfall.py:305-317 | Every other key of the `data` object is kept with its value. |
| `SetResolver.MtgjsonTokenCount` | src/utils/scryfall.py:310-311 | `tokenCount` is the length of `tokens`, and zero without it. |
| `SetResolver.GetSetData` | src/utils/scryfall.py:144-179 | A cache hit is returned without requests or writes. A miss asks Scryfall for the upper-cased code, then MTGJSON for the token set's parent or the set itself. The merged record has both key sets, and MTGJSON wins collisions. It is written exactly when the MTGJSON record is non-empty or `printed_size` is present. A written record has a name, and when it holds the Scryfall marker the cache then hits. |
| `CardInfo.ParseCardInfo` | src/utils/scryfall.py:357-380 | The name is the first split piece with surrounding whitespace removed: a contiguous slice of it with no whitespace at either end. A collector number is kept only when a set code matched. The creator is the last split piece when the stem holds a `$`, else empty. |
| `FileTags.CutAtSeparator` | proxyshop/render.py:18-20 | A prefix of the input with no separator inside it, ending at the first separator when there is one. |
| `FileTags.FindTag` | proxyshop/render.py:22-33 | A found tag contains neither its closer nor a line break, and needs both brackets in the filename. |
| `FileTags.TagRecovered` | proxyshop/render.py:23-33 | Behind text without an opener, a run of one or more openers, a clean body and the closer give that body, whatever follows. So each tag is found independently of the others and of their order. |
| `FileTags.CutAtFirstSeparator` | proxyshop/render.py:18-20 | The name is exactly the text before the first separator when that text has no bracket. |
| `FileTags.UntaggedFilename` | proxyshop/render.py:13-40 | A filename with no opening bracket gives the whole filename minus its last four characters, untrimmed, and no tags. |
| `FileTags.TaggedFilename` | proxyshop/render.py:13-40 | `Name {Creator} (Artist) [SET].ext` with plain parts gives back each part in its field. |
| `FileTags.RetrieveCardInfo` | proxyshop/render.py:13-40 | The name is a prefix of the filename. Each tag found needs both its brackets in the filename, and holds neither its closer nor a line break. |
| `Render.PrepareLayout` | proxyshop/render.py:52-67 | A basic land name builds BasicLand with the upper-cased set and needs a set tag. Any other name is looked up. A reply that is not an object, or has no `layout` key, raises. A `layout` string the constructor map knows, whose constructor returns, gives that constructor's result. A constructor that raises, or any other `layout` value, is unsupported. |
| `Render.Tag` | proxyshop/render.py:70 | A filename tag overrides only when it is present and non-empty. |
| `Render.CardCount` | proxyshop/render.py:73-80 | The set's `printed_size`, else its `card_count`, else "XXX". A set reply that is not an object also gives "XXX". |
| `Render.ChooseTemplate` | proxyshop/render.py:82-85 | A table argument raises, and so does a failed load of the template maps. Otherwise a selected template becomes the template class when its reference imports and raises when not. A selection that raises, raises. A template class is the merged map's selection; "no template" happens exactly when the card class is not in the merged map. |
| `Render.FindTemplate` | proxyshop/render.py:82-85 | The template lookup, with the loader's method, computes exactly `ChooseTemplate`. |
| `Render.Render` | proxyshop/render.py:43-104 | A basic land makes no card lookup; other cards make exactly one. Each preparation outcome maps to a job outcome, and each template outcome to a job outcome. An executed job's layout has the filename creator or None, and keeps the BasicLand values with no collector number for a basic land. Otherwise it has the filename artist if non-empty, else the layout's, the card count by the fallback rule, and the record's collector number or None. |
| `PluginLoader.MergeKey` | plugins/loader.py:44-53 | An existing key gains the plugin's `other` entries and keeps its own other entries. It takes the plugin's `default` only when the plugin has one and `make_default` is on. A new key is inserted whole, and no other key changes. A missing `other` on either side raises. |
| `PluginLoader.MergePlugin` | plugins/loader.py:41-54 | Keys are never lost and only plugin keys are added. Keys the plugin does not mention are unchanged. Without `make_default` no existing default changes. Existing `other` maps only grow. |
| `PluginLoader.Contribute` | plugins/loader.py:20-31 | `__pycache__`, a folder without `template_map.json` and one whose map is not an object contribute nothing. A folder without `config.ini` never changes an existing default, because `make_default` starts False for each folder. |
| `PluginLoader.MergeFolders` | plugins/loader.py:19-54 | Keys are never lost over all folders; with `Make.Default` off no existing default changes. |
| `PluginLoader.SelectTemplate` | plugins/loader.py:56-61 | An unknown layout gives None. A template named in `other` gives that entry, anything else the layout's `default`. A missing `other` or `default` raises. |
| `PluginLoader.MergePluginKeys` | plugins/loader.py:42-54 | The inner loop's in-place updates compute `MergePlugin`, stopping at the first key that raises. |
| `PluginLoader.GetTemplate` | plugins/loader.py:9-62 | The method fails to load exactly when the main map is missing or unparsable, or a folder other than `__pycache__` has an unparsable map, or has a `config.ini` while the working directory's is unparsable. Otherwise the nested merge loops and the lookup compute the selection on `MergeFolders` of the main map. |
| `PluginLoader.MergePluginAppend` | plugins/loader.py:42-54 | Merging a concatenation merges the first part, then, only if nothing raised, the second part into that result. |
| `PluginLoader.MalformedEntryStopsPlugin` | plugins/loader.py:42-54 | An entry missing `other` stops its plugin: keys merged before it stay merged and nothing after it applies. |
| `PluginLoader.WellFormedPluginMerges` | plugins/loader.py:43-53 | A plugin whose keys are distinct and all mergeable merges completely. Each existing key gains the plugin's `other` and takes its `default` only under `make_default`; each new key is inserted whole. |
| `PluginLoader.PluginTemplateSelected` | plugins/loader.py:43-61 | After such a merge, a template the plugin names for a layout is the one selected. |

## Left out

- HTTP, JSON decoding and request headers are left out. Every reply is an input value, and a request or decoding that raises is `HttpRaised`.
- The `ratelimit` and `backoff` decorators are left out: they only sleep and retry at the transport level. `sleep_and_retry` still catches the `RateLimitException` that `scryfall_rate_limit` raises, but no exception from the request function reaches either `backoff` or `sleep_and_retry`, because `handle_final_exception` wraps the function first. So `backoff` never retries.
- `card_scan` (an image download) is left out.
- `get_cards_paged` and `get_cards_oracle` are left out: they are network paging. When `all_pages` is on and a next page exists, `res.get['next_page']` (src/utils/scryfall.py:271) raises, so a multi-page `get_cards_paged` degrades to `[]`; a single page is returned as is, and `get_cards_oracle` pages only when asked.
- `load_data_file`, `dump_data_file`, `os.path.exists`, `glob`, `open`, `configparser`, `import_module` and `getattr` are inputs, not modelled. A cache file is `Unreadable` or `Stored`. A plugin folder carries its map file (absent, unparsable, or decoded) and whether it has a `config.ini`; the main map is present or not; the working directory's `config.ini` is unparsable or the `Make.Default` it yields. Whether a template reference imports is a function.
- Console logging, the "Reverting to English" warning and `test_mode` are left out; they have no effect on the result.
- `input()`, `exit()`, timing and printing are left out. An `input`/`exit` path is the outcome `UnsupportedLayout` or `NoTemplate`.
- `render_custom` (proxyshop/render.py:110-155) is left out.
- `normalize_str`, `TransformIcons`, the `Reg` patterns, `os.path.basename`, `Path.stem`, `scry.card_info`, `scry.set_info`, `layouts.layout_map`, `layouts.BasicLand` and template execution are not modelled; they are inputs.
- `Text.Lower`, `Text.Upper` and `Text.Strip` work on ASCII only; Python's Unicode case mapping and whitespace are not modelled.
- In-place mutation is modelled on values. `process_scryfall_data` rewrites the caller's dict, `get_set_data` updates `data_scry`, and the loader updates `main_json`. The model returns the new value, so aliasing is not modelled. In particular, a key inserted from a plugin map shares that map's entry object.
- The card record keeps only the keys the core reads or writes. A missing `layout` key on a card record, and a face without `name` or `type_line`, are not modelled.
- Plugin map entries that are not objects, and JSON `null` values for `other` or `default`, are not modelled. A template map's keys are assumed distinct, as in a JSON object.
- The shared failure object is not modelled. `handle_request_failure({})` builds one `{}` per decorated function and returns that same object on every failure (src/utils/scryfall.py:70-73). `data_scry.update(data_mtg)` (src/utils/scryfall.py:168) then writes into it, so a later failing `get_set_scryfall` would return an earlier set's MTGJSON keys. The model returns a fresh `{}` each time.
- `PluginLoader.GetTemplate`: the import of the selected reference is not modelled; the method returns the reference.
