# smarthub core, modelled in Dafny

smarthub is a chat assistant for a Home Assistant installation. A user
message goes through four stages:

1. a small language model classifies it as a plain reply or an intent;
2. the intent is resolved into a bundle of at most three candidate
   devices, each with a mapped action and its clamped arguments;
3. a large language model decides, in at most two rounds, to reply, to
   fetch more candidates or to execute a service call;
4. the reply is stored in the chat history and the rolling summary.

Beside the chat route are three more pieces:

- a catalog of device and domain snapshots with embedding bookkeeping;
- a vector index with a locked dimension;
- the Home Assistant REST client and the index synchroniser.

This project models that deterministic core in Dafny, one module per
source file:

| module | file | source |
|---|---|---|
| `PyValues` | `py_values.dfy` | Python values: JSON-like values, insertion-ordered dicts, truthiness, the exception kinds |
| `Text` | `text.dfy` | the string builtins the core uses: `lower`, `strip`, `split`, `replace`, `int()`/`float()` parsing, `sorted` |
| `Builders` | `builders.dfy` | `data/builders.py`: capability bit tables, service-name summary, canonical content and its hash |
| `Repository` | `repo.dfy` | `data/repo.py`: the in-memory catalog, sessions and messages, as the class `Repo` |
| `Vectors` | `vectors.dfy` | `data/vectors.py`: the vector table, as the class `VectorStore` |
| `JsonIO` | `jsonio.dfy` | `utils/jsonio.py`: brace-span extraction and `clamp_value` |
| `Resolver` | `resolver.dfy` | `core/resolver.py`: argument normalisation and the candidate bundle |
| `DecideAndReply` | `decide_and_reply.dfy` | `core/decide_and_reply.py`: post-processing of the decision |
| `RoutesChat` | `routes_chat.dfy` | `app/routes_chat.py`: the `/turn` route and its bounded decision loop |
| `SearchInterface` | `search_interface.dfy` | `data/search_interface.py`: typed-key resolution and the services-map cache |
| `SearchActions` | `search_actions.dfy` | `data/search_actions.py`: service hits to action entries |
| `Syncer` | `syncer.dfy` | `ha/syncer.py`: snapshots, index keys, rows and counts of `sync_all` |
| `HaClient` | `ha_client.dfy` | `ha/client.py`: base URL, services map and cache, payloads, `execute` routing |
| `Filters` | `filters.dfy` | `utils/filters.py`: dropping volatile state keys |
| `Summarizer` | `summarizer.dfy` | `core/summarizer.py`: the bounded rolling summary |
| `IntentExtractor` | `intent_extractor.dfy` | `core/intent_extractor.py`: stripping bidi control characters |

Modelling conventions:

- **Dicts.** A Python dict is a sequence of key/value pairs in insertion
  order. `d[k] = v` keeps an existing key's position and appends a new
  key. `d.get(k)` finds the first entry under `k`.
- **Exceptions.** An exception is an `Err` of a `Result`, with its kind:
  `KeyError`, `TypeError`, `AttributeError`, `ValueError` or
  `RuntimeError`.
- **Integers.** Python integers are Dafny's unbounded `int`.
- **Mutable state.** Module-level state that the source mutates is a field
  of a class whose methods say, in `modifies` and `ensures`, what they
  change. This is the catalog, the vector table, the services cache and
  the HTTP client.
- **Loops.** Each loop in the source is a `method` with a `while` or `for`
  loop. It is proved against a recursive function, and the properties are
  proved about that function.
- **Oracles.** These become parameters:
  - the language models;
  - the embedding service;
  - the JSON serialiser and decoder;
  - the nearest-neighbour ranking;
  - the clock;
  - Home Assistant's answers.
- **HTTP traffic.** A GET or POST the client sends is recorded on the
  client.

## Model

| member | source | states |
|---|---|---|
| JsonIO.BraceSpanFound | utils/jsonio.py:4 | a match of the greedy `\{.*\}` search runs from a `{` to a `}`, with no `{` before it and no `}` after it in the stripped text |
| JsonIO.BraceSpanMissing | utils/jsonio.py:4-5 | the search finds nothing exactly when no `}` comes after a `{`, which is when `parse_one_line_json` gives `None` without decoding |
| JsonIO.ClampInt | utils/jsonio.py:16 | `max(lo, min(hi, v))` lies in `[lo, hi]` when `lo <= hi`, keeps a `v` already inside, and is `lo` when the range is reversed |
| JsonIO.Clamp | utils/jsonio.py:11-19 | `clamp_value` raises (TypeError, from the `in` test outside the `try`) exactly when the range is truthy and `args` is `None`, a bool or a number |
| JsonIO.ClampOfDict | utils/jsonio.py:12-16 | a dict is rewritten only when the hint's `value_range` is truthy and the dict has a `value` key |
| JsonIO.ClampOfNonDict | utils/jsonio.py:13-19 | arguments that are not a dict and do not raise come back unchanged, since every failure inside the `try` is swallowed |
| JsonIO.ClampDictKeeps | utils/jsonio.py:11-19 | clamping a dict keeps the same keys in the same order and every entry other than `value` |
| JsonIO.ClampSetsValue | utils/jsonio.py:15-16 | when the range and the value parse, `value` becomes the clamped integer |
| JsonIO.ClampDictStep | utils/jsonio.py:15-16 | when the range and the value parse, the result is the dict with only `value` replaced |
| JsonIO.ClampedValueFixed | utils/jsonio.py:15-16 | a clamped value clamps to itself against the same range |
| JsonIO.ClampLeavesUnchanged | utils/jsonio.py:14-18 | when the range or the value does not parse as integers, the dict is returned as it was |
| JsonIO.ClampIdempotent | utils/jsonio.py:11-19 | clamping twice with the same hint is clamping once, for any arguments and any order of `lo` and `hi` |
| JsonIO.RangeExample | utils/jsonio.py:15 | `"0-100"` splits into the bounds 0 and 100 |
| JsonIO.ParseIntWord | utils/jsonio.py:16 | `int("high")` fails |
| JsonIO.ClampExampleOverRange | utils/jsonio.py:11-19 | `{"value": "150"}` against `"0-100"` becomes `{"value": 100}` |
| JsonIO.ClampExampleWord | utils/jsonio.py:11-19 | `{"value": "high"}` against `"0-100"` is left as it was |
| JsonIO.BraceSpan | utils/jsonio.py:4 | a found span is at least two characters long, opens with `{` and closes with `}`; text lacking either brace has none |
| JsonIO.ParseOneLineJson | utils/jsonio.py:3-9 | a reply without a `{` or without a `}` gives `None` before anything is decoded |
| JsonIO.ParseRange | utils/jsonio.py:15 | a range that unpacks into two integers is a string, and both bounds are non-negative, since neither piece can hold a `-` |
| Filters.DropVolatile | utils/filters.py:11-19 | a filtered state has no `context`, `last_reported`, `last_updated` or `last_changed` entry, and every other key keeps its value |
| Filters.FilterEntries | utils/filters.py:12-20 | the filtered map has the same entity ids in the same order, each state filtered (non-dict states kept as they are) |
| Filters.FilterEntityMap | utils/filters.py:1-22 | the loop computes the filtered map; a non-dict input is returned unchanged; a dict keeps its entity ids |
| Filters.FilterEntriesAppend | utils/filters.py:13-20 | one more entity adds exactly its filtered state at the end |
| Filters.FilterKeepsEverythingElse | utils/filters.py:12-20 | an entity is present after filtering exactly when it was before; a dict state loses only the four noisy keys; a non-dict state is unchanged |
| Filters.FindFiltered | utils/filters.py:13-20 | looking an entity up in the filtered map gives the filtered state of the entity's first entry |
| Filters.DropVolatileIdempotent | utils/filters.py:19 | dropping the noisy keys twice is dropping them once |
| Filters.FilterIdempotent | utils/filters.py:1-22 | filtering an already filtered map changes nothing |
| Filters.FilterEntriesIdempotent | utils/filters.py:12-20 | the loop over entries is idempotent |
| Summarizer.LastN | core/summarizer.py:6-7 | `s[-n:]` has length `min(n, |s|)` and is the end of `s` |
| Summarizer.UpdateSummary | core/summarizer.py:1-7 | the summary is at most 800 characters and is a suffix of the kept previous text followed by the new `U:`/`A:` lines |
| Summarizer.AppendedEndsWith | core/summarizer.py:7 | the text before truncation ends with the assistant line |
| Summarizer.EndsWithAssistant | core/summarizer.py:7 | the latest assistant line survives whenever it fits in 800 characters |
| Summarizer.SummaryIsTail | core/summarizer.py:6-7 | the summary is the last 800 characters of the kept previous text and the new lines |
| Summarizer.SuffixKept | core/summarizer.py:7 | a suffix no longer than `n` survives keeping the last `n` characters |
| Summarizer.OldTextBounded | core/summarizer.py:6-7 | whatever comes before the new lines is a suffix of the last 600 characters of the previous summary |
| Summarizer.ShortSummaryKept | core/summarizer.py:7 | when everything fits, nothing is cut |
| Summarizer.MissingPrevIsEmpty | core/summarizer.py:6 | a missing previous summary behaves as an empty one |
| IntentExtractor.Clean | core/intent_extractor.py:21-24 | cleaning keeps exactly the characters that are not U+200E, U+200F, U+202A–U+202E or U+2066–U+2069, and never lengthens the text |
| IntentExtractor.CleanConcat | core/intent_extractor.py:23-24 | cleaning works character by character, so it distributes over concatenation |
| IntentExtractor.CleanChar | core/intent_extractor.py:21-24 | one character is dropped exactly when it is a bidirectional control |
| IntentExtractor.CleanIdempotent | core/intent_extractor.py:23-24 | cleaning twice is cleaning once |
| IntentExtractor.CleanKeepsPlain | core/intent_extractor.py:23-24 | text without control characters is left alone |
| IntentExtractor.UserPrompt | core/intent_extractor.py:33-35 | the user turn sent to the small model holds no bidirectional control character, whatever the message and context hold |
| IntentExtractor.ExtractIntentsTrimmed | core/intent_extractor.py:26-37 | the raw reply is returned stripped: no surrounding whitespace and no longer than the model's output |
| DecideAndReply.PostProcess | core/decide_and_reply.py:20-29 | whatever the decoded output, a successful post-processing returns a dict |
| DecideAndReply.Executed | core/decide_and_reply.py:26-28 | the execute branch, when it does not raise, returns a dict |
| DecideAndReply.Decide | core/decide_and_reply.py:17-29 | `decide_and_reply` either raises or returns a dict, for any model output |
| DecideAndReply.ParseFailure | core/decide_and_reply.py:20-22 | output without a JSON object, or with an empty one, gives the fixed parse-failure reply |
| DecideAndReply.PassThrough | core/decide_and_reply.py:24-29 | a decision whose mode is not EXECUTE_AND_REPLY, or that has no candidates, comes back as it was decoded |
| DecideAndReply.ExecuteDispatch | core/decide_and_reply.py:24-26 | an EXECUTE_AND_REPLY decision with truthy candidates takes the clamping branch |
| DecideAndReply.ExecuteBranch | core/decide_and_reply.py:27-29 | the clamping branch returns the decision with `args` replaced by the clamped arguments |
| DecideAndReply.ExecuteClamped | core/decide_and_reply.py:24-29 | in the clamping branch `args` becomes the clamped `args` (or `{}`) and every other entry stays |
| DecideAndReply.PostProcessStable | core/decide_and_reply.py:20-29 | feeding a result back in gives the same result, because clamping twice is clamping once |
| SearchActions.ServiceKeys | data/search_actions.py:19-22 | the keys that reach the body of the loop are at most as many as the hits |
| SearchActions.ServiceKind | data/search_actions.py:20-21 | a key with a `:` is of kind `service` exactly when it starts with `service:` |
| SearchActions.OnePerServiceHit | data/search_actions.py:18-32 | when the search succeeds it returns one entry per `service:` hit, in hit order, and each is that hit's entry |
| SearchActions.ServiceEntry | data/search_actions.py:20-31 | `service:<d>.<s>` gives action `d.s`, domain `d`, service `s` and the service's field names, and fails only when looking the fields up fails |
| SearchActions.BadKey | data/search_actions.py:20-23 | a key without `:`, or a service key whose id has no `.`, raises ValueError when it is unpacked |
| SearchActions.OtherKindSkipped | data/search_actions.py:21-22 | a hit of any other kind is skipped |
| SearchActions.FieldsOfMissingDomain | data/search_actions.py:24 | a domain missing from the services map gives no field names |
| SearchActions.FieldsOfMissingService | data/search_actions.py:24 | a service missing from its domain gives no field names |
| SearchActions.FieldsOf | data/search_actions.py:24 | the field names are the keys of the service's `fields` dict, in order |
| SearchActions.Search | data/search_actions.py:16-32 | the loop computes the entries for the hits, and a failing services-map fetch fails the whole search |
| SearchActions.SearchFailsAt | data/search_actions.py:19-31 | a hit whose entry raises makes the whole search raise |
| SearchActions.SearchErr | data/search_actions.py:19-31 | a failure within the first `n` hits is the result of the whole search |
| Resolver.NormalizeKeeps | core/resolver.py:5-14 | normalising keeps the keys in their order and every entry other than `value` |
| Resolver.NormalizeString | core/resolver.py:8-13 | a string `value` that names a level or parses as a number becomes that integer; any other string leaves the arguments unchanged |
| Resolver.NormalizeNonString | core/resolver.py:8 | a missing or non-string `value` leaves the arguments alone |
| Resolver.NormalizeIdempotent | core/resolver.py:5-14 | normalising twice is normalising once, since the new value is an integer |
| Resolver.WordHigh | core/resolver.py:7-10 | `"High"` is lower-cased and maps to 75 |
| Resolver.WordMed | core/resolver.py:7-10 | `"MED"` maps to 50 |
| Resolver.Take3 | core/resolver.py:19 | `[:3]` keeps the first three devices, or all of them when there are fewer |
| Resolver.CandidatesAtMost | core/resolver.py:21-34 | each device contributes at most one candidate |
| Resolver.CandidatesNone | core/resolver.py:22-25 | when no device has a matching action there are no candidates |
| Resolver.BundleDictFields | core/resolver.py:36-41 | the bundle holds the intent under `user`, the context, the candidates and the examples |
| Resolver.BundleShape | core/resolver.py:16-42 | a built bundle carries the intent, the context, the sample examples and a list of at most three candidates |
| Resolver.CandidateArgs | core/resolver.py:23-34 | a candidate's proposed arguments are the intent's arguments normalised then clamped with the action's hint: same keys, only `value` changed, to the clamped integer when it parses |
| Resolver.CandidatesErr | core/resolver.py:22-34 | a failure at some device is the failure of the whole loop |
| Resolver.CandidatesErrSuffix | core/resolver.py:22-34 | devices after a failure change nothing |
| Resolver.BuildBundle | core/resolver.py:16-42 | `build_bundle_from_intent` on the repository's catalog computes the specified bundle, errors included |
| Resolver.CandidatesLoop | core/resolver.py:21-34 | the loop over the first three devices computes the specified candidates |
| Resolver.CandidateLoopStep | core/resolver.py:23-34 | one pass of the loop body computes that device's candidate, or none when it has no matching action |
| Resolver.WordValue | core/resolver.py:7 | every qualitative word maps to a number between 0 and 100 |
| Resolver.NormalizedValue | core/resolver.py:9-13 | the normalised number is negative only when the text holds a `-` |
| Resolver.NormalizeArgs | core/resolver.py:5-14 | normalising keeps exactly the keys, in their order |
| Resolver.CandidateFor | core/resolver.py:22-34 | a missing `intent` raises KeyError; a candidate is a four-entry dict whose first entry is the device's id, name and type |
| Resolver.Bundle | core/resolver.py:16-42 | a non-dict `context` raises AttributeError before the search; a non-iterable `targets` raises TypeError when there are devices to match |
| Syncer.DeviceDomainOfString | ha/syncer.py:16 | a string entity id has its domain written before the first `.`, or no domain |
| Syncer.CompactDevice | ha/syncer.py:10-23 | a device snapshot is built only for a state that has an `entity_id` |
| Syncer.DeviceSnapshot | ha/syncer.py:15-23 | the snapshot holds the entity id, the friendly name from the attributes (or `None`) and the domain, in that order |
| Syncer.ActionSnapshot | ha/syncer.py:26-31 | the action snapshot holds `d.s`, the domain, the service and the names of the schema's fields (none when it has no `fields`) |
| Syncer.Texts | ha/syncer.py:39 | a successful comprehension gives one text per element, each that element's text |
| Syncer.DeviceTextOk | ha/syncer.py:24 | a device text is the compact serialisation of the device snapshot |
| Syncer.ActionTextOk | ha/syncer.py:32 | an action text is the compact serialisation of the action snapshot |
| Syncer.DomainPairs | ha/syncer.py:51-52 | the inner loop adds one `(domain, service, schema)` triple per service, in dict order |
| Syncer.PairsCount | ha/syncer.py:49-52 | there is one triple per service of the services map |
| Syncer.PairsFromMap | ha/syncer.py:49-52 | every triple is a service of its domain in the services map |
| Syncer.ActionPairs | ha/syncer.py:49-52 | the two nested loops compute the triples, failing when a domain's services are not a dict |
| Syncer.PairsErr | ha/syncer.py:50-52 | a failure within the first `n` domains is the result of the whole loop |
| Syncer.PairsErrSuffix | ha/syncer.py:50-52 | domains after a failure change nothing |
| Syncer.ZipRows | ha/syncer.py:41-44 | the `zip` loop gives as many rows as the shortest of keys, texts and vectors, row `i` made of the `i`-th of each |
| Syncer.DeviceKeys | ha/syncer.py:43 | each device key is `entity:` and the state's entity id |
| Syncer.ActionKeys | ha/syncer.py:57 | each action key is `service:<domain>.<service>` |
| Syncer.KeysRoundTrip | ha/syncer.py:43-57 | a device key splits back into `entity` and the id; an action key parses back into action, domain and service |
| Syncer.SyncAll | ha/syncer.py:34-61 | a missing or empty `HA_TOKEN` fails with the client's RuntimeError and a failed states GET with its error, before any row is built; otherwise `sync_all` builds the device rows from the states and the action rows from the services map, stops at the first failure, and counts the rows; with an embedder that returns one vector per text, the counts are the number of states and the number of services |
| Syncer.TextsLoop | ha/syncer.py:39 | the comprehension computes the specified texts |
| Syncer.TextsErr | ha/syncer.py:39 | a failure within the first `n` elements is the result of the whole comprehension |
| SearchInterface.Served | data/search_interface.py:24-30 | the cache is answered while it is fresh, otherwise what the services call answers |
| SearchInterface.ServicesCache.constructor | data/search_interface.py:17-18 | the cache starts empty, stamped at time zero, with no fetch made |
| SearchInterface.ServicesCache.Lookup | data/search_interface.py:21-30 | a fresh cache (non-empty and younger than 30 seconds) is returned untouched; otherwise the map is fetched, and on success it replaces the cache, stamped with the time of the call |
| SearchInterface.LookupTwice | data/search_interface.py:24-29 | within 30 seconds of a successful non-empty fetch a second lookup reuses it and fetches nothing more |
| SearchInterface.Entries | data/search_interface.py:38-75 | a successful loop gives one entry per hit, each that hit's entry, in hit order |
| SearchInterface.EntriesFail | data/search_interface.py:38-75 | a failing loop fails with the error of the first hit whose entry raises |
| SearchInterface.Resolve | data/search_interface.py:38-75 | the loop over the hits computes the specified entries |
| SearchInterface.EntriesErr | data/search_interface.py:38-75 | a failure within the first `n` hits is the result of the whole loop |
| SearchInterface.EntriesErrSuffix | data/search_interface.py:38-75 | hits after a failure change nothing |
| SearchInterface.DomainOf | data/search_interface.py:48 | the domain is `None` exactly when the id has no `.`; otherwise it is the text before the first `.` |
| SearchInterface.ServiceNamesOf | data/search_interface.py:53 | a missing domain has no services, a dict of services gives its keys in order, and a truthy non-dict entry raises |
| SearchInterface.SplitKind | data/search_interface.py:41 | a key splits at its first `:` into the kind written before it and the rest |
| SearchInterface.PlaceholderEntry | data/search_interface.py:40-44 | a key without `:`, or of a kind other than `entity` and `domain`, gets the placeholder named by its own key |
| SearchInterface.EntityDispatch | data/search_interface.py:46 | `entity:` keys go to the entity branch |
| SearchInterface.EntityHit | data/search_interface.py:46-61 | an entity entry has the id, the friendly name when truthy and the id otherwise, the domain, no area, and the domain's services when there is a domain |
| SearchInterface.DomainDispatch | data/search_interface.py:62 | `domain:` keys go to the domain branch |
| SearchInterface.DomainHit | data/search_interface.py:62-72 | a domain entry is named after the domain and lists its services; it fails only when looking them up fails |
| SearchInterface.ResolveDevices | data/search_interface.py:32-75 | a failed states GET is the answer and leaves the cache alone; otherwise `_resolve_devices` builds the state map, then asks the cache, then gives one entry per hit; the cache is refreshed only when it is stale and the state map was built |
| SearchInterface.StateMapLoop | data/search_interface.py:35 | the comprehension computes the specified state map, failing on a state without `entity_id` |
| SearchInterface.StateMapErr | data/search_interface.py:35 | a failure within the first `n` states is the result of the whole comprehension |
| SearchInterface.StateMapErrSuffix | data/search_interface.py:35 | states after a failure change nothing |
| SearchInterface.AfterColon | data/search_interface.py:101 | `key.split(":", 1)[-1]` is the whole key when it has no `:`, otherwise what follows the first `:` |
| SearchInterface.WithSplit | data/search_interface.py:107-109 | the second split never changes the action |
| SearchInterface.ServiceKeyParts | data/search_interface.py:91-95 | `service:<d>.<s>` sets action `d.s`, domain `d` and service `s` in the `try` block |
| SearchInterface.ServiceAction | data/search_interface.py:88-109 | `service:<d>.<s>` ends with action `d.s`, domain `d` and service `s` |
| SearchInterface.NotServiceKey | data/search_interface.py:91-97 | any other key sets nothing in the `try` block |
| SearchInterface.FallbackAction | data/search_interface.py:99-101 | a key that is not a service key falls back to the text after its first `:` when it contains a `.`, and has no action otherwise |
| SearchInterface.ServiceKeyAction | data/search_interface.py:92-95 | a service key's action is its non-empty id |
| SearchInterface.NoAction | data/search_interface.py:99-105 | there is no action exactly when the key is no service key and either has no `.` or nothing after its `:`; such a hit gives the empty action entry |
| SearchInterface.ActionSchema | data/search_interface.py:110-117 | with a domain and a service, the entry carries the service's schema when truthy and `None` otherwise |
| SearchInterface.ResolveActions | data/search_interface.py:77-118 | no hits give no entries and leave the cache alone; otherwise one entry per hit, with the cache refreshed only when stale |
| SearchInterface.StateMapKeys | data/search_interface.py:35 | a string entity id is in the state map exactly when some state carries it |
| SearchInterface.StateMapLast | data/search_interface.py:35 | the state stored under an id is the last state carrying that id |
| SearchInterface.ResolvedDevices | data/search_interface.py:32-75 | a failing state map or services map is the answer; otherwise one entry per hit, each that key's device entry |
| SearchInterface.ParseAction | data/search_interface.py:88-109 | domain and service are set together, and then they are the action split at its first `.` |
| SearchInterface.ResolvedActions | data/search_interface.py:81-118 | a failing services map is the answer; otherwise one entry per hit, each that key's action entry |
| Builders.Norm | data/builders.py:9-14 | `None` becomes `""`, a string is stripped, and an integer or bool is rendered with `str` |
| Builders.NonEmpty | data/builders.py:16-17 | the kept parts are exactly the parts that are not blank |
| Builders.NonEmptyAppend | data/builders.py:16-17 | `_nonempty` is an order-preserving filter: one more part is appended exactly when it is not blank |
| Builders.CanonDictAt | data/builders.py:19-21 | the canonical form of a dict has exactly its keys, each with the canonical form of its value |
| Builders.HashIgnoresKeyOrder | data/builders.py:19-21 | two dicts with the same entries in any order have the same hash, because keys are sorted before hashing |
| Builders.HashDetectsChange | data/builders.py:19-21 | equal hashes mean the same keys with the same canonical values (the hash is modelled as injective on the canonical serialisation) |
| Builders.BitAndPow2 | data/builders.py:55 | `mask & 2^k` is non-zero exactly when bit `k` of `mask` is set, negative masks included, as in Python's two's complement |
| Builders.Names | data/builders.py:25-50 | the names of a bit table, in table order |
| Builders.BitNamesMember | data/builders.py:52-57 | a name is decoded exactly when the table has it with a bit that is set in the mask |
| Builders.BitNamesExtremes | data/builders.py:52-57 | a zero mask decodes to nothing; `-1` decodes to every name of the table |
| Builders.DecodeBits | data/builders.py:52-57 | `_decode_bits` computes the names of the set bits, in table order |
| Builders.DedupeElements | data/builders.py:87-92 | the de-duplicated list has no repeats and the same elements as the tags |
| Builders.FirstIndex | data/builders.py:87-92 | the first position of a tag in the list |
| Builders.DedupeFirstSeenOrder | data/builders.py:87-92 | de-duplication keeps the tags in the order in which they were first seen |
| Builders.DedupeKeepsNoDup | data/builders.py:87-92 | a list without repeats is kept as it is |
| Builders.DedupeTags | data/builders.py:88-92 | the `seen`/`dedup` loop computes the de-duplicated list |
| Builders.LightModes | data/builders.py:73-83 | the colour-mode part computes the specified tags for any `supported_color_modes` value |
| Builders.DecodeSupportedFeatures | data/builders.py:59-92 | `_decode_supported_features` computes the specified tags for any domain and attributes |
| Builders.MaskTags | data/builders.py:65-66 | with an integer mask the set bits are decoded; without one nothing is |
| Builders.LightTags | data/builders.py:72-85 | a light's colour-mode tags come first, its feature-bit tags after |
| Builders.NoTagsOutsideKnownDomains | data/builders.py:61-70 | a domain other than fan, media_player and light gets no tags, and fan and media_player get none without an integer mask |
| Builders.BitTableNames | data/builders.py:52-57 | decoding against a table with distinct names gives distinct names of that table |
| Builders.BitNamesNoDup | data/builders.py:52-57 | decoding against a table with distinct names gives no repeats |
| Builders.BitNamesWithin | data/builders.py:52-57 | every decoded name is a name of the table |
| Builders.LightModeTagsShape | data/builders.py:74-83 | the colour-mode tags are distinct and drawn from the four fixed names |
| Builders.LightTagOrder | data/builders.py:72-92 | for a light the final tags are the colour-mode tags followed by the feature-bit tags: the de-duplication removes nothing |
| Builders.LightRaw | data/builders.py:72-85 | before de-duplication a light's tags are its colour-mode tags followed by its feature-bit tags |
| Builders.LightBitsShape | data/builders.py:46-50 | a light's feature-bit tags are distinct and none is a colour-mode tag |
| Builders.KeepIn | data/builders.py:106 | `[n for n in priority if n in names]` holds the priority names that are present |
| Builders.KeepNotIn | data/builders.py:107 | `[n for n in names if n not in prio_set]` holds the other names |
| Builders.Take | data/builders.py:109 | `[:12]` keeps a prefix of at most 12 names, all of them when there are fewer |
| Builders.KeepInOrder | data/builders.py:106 | the present priority names keep the priority order and have no repeats |
| Builders.KeepNotInSorted | data/builders.py:107 | the remaining names are sorted and have no repeats |
| Builders.InsertNoDup | data/builders.py:99 | inserting a new name into a list without repeats gives none |
| Builders.SortNoDup | data/builders.py:99 | sorting distinct names gives distinct names |
| Builders.PriorityNoDup | data/builders.py:100-104 | the priority list has no repeats |
| Builders.OrderServicesShape | data/builders.py:99-107 | priority names first, in priority order, then the rest sorted; every name kept once |
| Builders.TakeKeepsShape | data/builders.py:109 | cutting to 12 keeps the order and loses no distinctness |
| Builders.ServiceNamesShape | data/builders.py:96-109 | a non-dict block gives `[]`; otherwise at most 12 distinct keys of the block, present priority names first in priority order, the rest alphabetical |
| Builders.KeepInSameSet | data/builders.py:106 | which priority names are kept depends only on which names are present |
| Builders.SetIfDistinct | data/builders.py:137-142 | setting an optional key keeps the keys distinct |
| Builders.SetIfFind | data/builders.py:137-142 | an optional key is set exactly when its condition holds; other keys are untouched |
| Builders.BuildStaticDescriptor | data/builders.py:113-161 | `build_static_descriptor` computes the specified text, content and hash, failing when `attributes` is not a dict |
| Builders.BuildContent | data/builders.py:132-142 | the content dict built key by key is the specified content |
| Builders.BaseContent | data/builders.py:132-136 | the three base entries are distinct and hold the id, the friendly name and the domain |
| Builders.ContentShape | data/builders.py:132-142 | the content always has `entity_id`, `friendly_name` and `domain`; `area`, `capabilities` and `services` exactly when non-empty; its keys are distinct |
| Builders.ContentBase | data/builders.py:132-142 | the three base entries survive the optional ones |
| Builders.ContentOptional | data/builders.py:137-142 | each optional key is there exactly when its value is non-empty |
| Builders.ContentDistinct | data/builders.py:132-142 | the content's keys are distinct |
| Builders.ContentFind | data/builders.py:132-142 | looking a key up in the content gives the optional entry when set, otherwise the base entry |
| Builders.DescribeContent | data/builders.py:123-144 | the domain is the text before the first `.` of the id (or `""`), the friendly name falls back to the id, the optional keys appear exactly when non-empty, and the hash is the hash of the content |
| Builders.DescriptorText | data/builders.py:146-159 | every part ends with `.`, so `_nonempty` drops none and the text is the parts joined by spaces |
| Builders.EndsWithDotKept | data/builders.py:159 | `_nonempty` keeps all of a list of parts that each end with `.` |
| Repository.RoomOf | data/repo.py:62 | a context without `room` gives `""`; a `room` that is not a string makes `.lower()` raise |
| Repository.AnyTargetTrue | data/repo.py:67 | `any(t.lower() in name for t in targets)` is true exactly when some target hits and every target before it is a string |
| Repository.AnyTargetErr | data/repo.py:67 | it raises exactly when a non-string target comes before any hit, and then AttributeError |
| Repository.AnyTargetFalse | data/repo.py:67 | it is false exactly when every target is a string and none is a case-insensitive substring of the name |
| Repository.DeviceMatchStrings | data/repo.py:64-67 | with a list of string targets a device is kept exactly when some target is a case-insensitive substring of its name or the non-empty room equals its lower-cased area |
| Repository.FirstHitStops | data/repo.py:67 | a first target that hits keeps the device whatever the later targets are |
| Repository.FirstNonStringRaises | data/repo.py:67 | a first target that is not a string raises AttributeError for every device |
| Repository.MatchingFails | data/repo.py:63-68 | the loop fails exactly when some device's test fails, and with the error of one of them |
| Repository.MatchingMembers | data/repo.py:63-68 | when the loop succeeds a device is listed exactly when it is in the list and its test is true |
| Repository.MatchingInOrder | data/repo.py:63-68 | when the loop succeeds the matches keep the list order: they form a subsequence of the devices |
| Repository.MatchingErrSuffix | data/repo.py:63-68 | devices after a failing test change nothing |
| Repository.SearchFallback | data/repo.py:69 | a failure passes through; when nothing matches the result is the first device; otherwise it is the matches |
| Repository.AllHitByFirst | data/repo.py:63-69 | when the first target hits every name, every device is found and the later targets, strings or not, are never tested |
| Repository.FirstNonStringFails | data/repo.py:63-69 | a first target that is not a string makes the search raise AttributeError when there is a device to test |
| Repository.FirstAction | data/repo.py:73-77 | the result is the first action of the device whose lower-cased name contains the needle, and `None` only when there is none |
| Repository.SchemaHint | data/repo.py:80-82 | an unknown schema hash gives `{}` |
| Repository.SchemaHintEntries | data/repo.py:84-86 | a hint's entries override the `value_range` taken from `properties.value.range`, which defaults to `"0-100"` |
| Repository.SeedBrightHint | data/repo.py:244-248 | the seeded brightness schema gives `{"value_range": "0-100"}` |
| Repository.SeedOnHint | data/repo.py:249-253 | the seeded on/off schema gives the default range followed by the toggle hint |
| Repository.SeedHints | data/repo.py:79-86 | over the seeded schemas no hint lookup raises; a known schema has range `"0-100"`, an unknown one gives `{}` |
| Repository.EntityKey | data/repo.py:115-116 | a missing `entity_id` raises KeyError and a string one is the key; a list or dict one raises TypeError (so does a number, bool or `None`, see Left out) |
| Repository.InAreaMembers | data/repo.py:97-107 | there is one candidate per device whose lower-cased area is the wanted area, and no other |
| Repository.RowAt | data/repo.py:116 | a missing key gives the empty row |
| Repository.UpsertedRowFields | data/repo.py:119-124 | the new row has the new payload, hash and time, and keeps every other field of the old row |
| Repository.SetKeepsRows | data/repo.py:119 | storing a row keeps every row a dict under a key of its own |
| Repository.UpsertSameHash | data/repo.py:116-118 | an upsert with the stored hash leaves the index alone and reports no change |
| Repository.UpsertNewHash | data/repo.py:119-125 | any other upsert reports a change, leaves every other key alone, and overwrites only the payload, the hash and the time of the row |
| Repository.UpsertTwice | data/repo.py:115-125 | repeating an identical upsert reports no change and changes nothing |
| Repository.NeedingExactly | data/repo.py:143-149 | a key is listed exactly when its row has another model, another version or no embedding text |
| Repository.SavedRowDone | data/repo.py:177-186 | a row saved with a non-empty text for a model and version no longer needs embedding for them |
| Repository.SavedModel | data/repo.py:182 | the saved row records the model |
| Repository.SavedVersion | data/repo.py:183 | the saved row records the version |
| Repository.SavedText | data/repo.py:181 | the saved row records the embedding text |
| Repository.SavedNotNeeding | data/repo.py:177-186 | after saving an embedding with a non-empty text, the key is not listed as needing one, and other keys are untouched |
| Repository.EntityStatic | data/repo.py:158-162 | an unknown entity id, an empty row or a row without `static_json` raises KeyError, and nothing else is raised; otherwise the row's `static_json` |
| Repository.StaticAfterUpsert | data/repo.py:110-125 | after a changed upsert the snapshot is retrievable under its entity id; an unchanged one leaves the index alone |
| Repository.ServiceFieldsSorted | data/repo.py:173 | each service line lists its field names in sorted order |
| Repository.DomainLinesOfUpsert | data/repo.py:127-175 | after storing a domain's services, its text is the two header lines and then one line per service, in dict order |
| Repository.DomainLinesOfContent | data/repo.py:166-175 | a stored `services` dict gives the header lines followed by the service lines |
| Repository.ContentLinesOfServices | data/repo.py:169-175 | the lines of a content dict with services are the header and the service lines |
| Repository.TotalRemove | data/repo.py:203 | the message total does not depend on which chat is counted first |
| Repository.MatchLoop | data/repo.py:63-68 | the matching loop computes the specified matches and stops at the first device whose test raises |
| Repository.AreaLoop | data/repo.py:98-107 | the area loop computes the specified candidates |
| Repository.FirstActionLoop | data/repo.py:74-77 | the first-match loop computes the specified action |
| Repository.NeedingLoop | data/repo.py:145-149 | the needing loop computes the specified keys |
| Repository.ServiceLinesFail | data/repo.py:172-173 | a service whose spec has no usable `fields` makes the text raise |
| Repository.ServiceLinesAll | data/repo.py:172-174 | with usable specs the lines are one per service, each that service's line |
| Repository.ServiceLinesLoop | data/repo.py:172-174 | the service loop computes the specified lines |
| Repository.CountMessages | data/repo.py:203 | the sum computes the specified message total |
| Repository.WithSummary | data/repo.py:49-54 | an unknown chat is left alone; a known one gets the rolling summary and the time, and every other session is untouched |
| Repository.Repo.constructor | data/repo.py:12-20 | the tables start empty |
| Repository.Repo.LoadOrInitSession | data/repo.py:33-39 | an existing session is returned unchanged; a new one is created once, with an empty summary and an empty message list |
| Repository.Repo.AddMessage | data/repo.py:41-43 | the message is appended at the end of its chat's list, created empty when missing |
| Repository.Repo.LoadSummary | data/repo.py:45-47 | the stored summary text of the chat's session, `""` without a session |
| Repository.Repo.UpdateSummary | data/repo.py:49-54 | the sessions after the update are the specified ones: nothing happens for an unknown chat |
| Repository.Repo.SearchDevices | data/repo.py:60-69 | `search_devices` reads the room first, raising when it is not a string, and then computes the specified result over the seeded devices, raising when a device's test raises |
| Repository.Repo.MapIntentToAction | data/repo.py:71-77 | `map_intent_to_action` gives the first matching seeded action for the needle of the intent |
| Repository.Repo.DevicesForArea | data/repo.py:97-107 | `devices_for_area` computes the specified candidates |
| Repository.Repo.UpsertEntity | data/repo.py:110-125 | `upsert_entity` computes the specified index and change flag, and raises without touching the index when the snapshot has no string `entity_id` |
| Repository.Repo.UpsertDevice | data/repo.py:116-125 | the device index after the write is the specified one |
| Repository.Repo.UpsertDomainServices | data/repo.py:127-141 | `upsert_domain_services` does the same on the domain index |
| Repository.Repo.EntitiesNeedingEmbedding | data/repo.py:143-149 | the device keys needing embedding, in index order |
| Repository.Repo.ServicesNeedingEmbedding | data/repo.py:151-156 | the domain keys needing embedding, in index order |
| Repository.Repo.DomainEmbedText | data/repo.py:164-175 | `domain_embed_text` joins the specified lines with newlines, or raises as they do |
| Repository.Repo.SaveEntityEmbedding | data/repo.py:177-186 | the device index after the save is the specified one |
| Repository.Repo.SaveDomainEmbedding | data/repo.py:188-197 | the domain index after the save is the specified one |
| Repository.Repo.DebugCounts | data/repo.py:200-209 | the seven counts, in order |
| Repository.Repo.LoadSchemaHint | data/repo.py:79-86 | `load_schema_hint` never raises over the seeded schemas; a known schema's hint has range `"0-100"`, an unknown one is `{}` |
| Repository.Repo.GetEntityStatic | data/repo.py:158-162 | an unknown entity raises KeyError and only KeyError; otherwise the stored `static_json` |
| Vectors.KeyIdOfPair | data/vectors.py:79-80 | a pair is rendered `kind:id`, which splits back into the pair when the kind has no `:` |
| Vectors.KeyIdOfString | data/vectors.py:80 | a string key is used as it is |
| Vectors.NewRowMeta | data/vectors.py:102-113 | a new row carries exactly those of `domain`, `area`, `content_hash` and `last_embedded_hash` that the metadata has, with their values |
| Vectors.RowsWithKey | data/vectors.py:141-143 | the rows under a key are rows of the table with that key |
| Vectors.FirstWithKeyIsHead | data/vectors.py:140-144 | `get_meta`'s scan finds the first row under the key |
| Vectors.RowsWithKeyAppend | data/vectors.py:115 | adding rows puts the new rows of a key after the old ones |
| Vectors.WithoutRows | data/vectors.py:96-98 | the delete removes every row of a batch key and no other row |
| Vectors.DistinctRowsWithKey | data/vectors.py:102-115 | in a batch with distinct keys each key has exactly its own new row |
| Vectors.RowsMissing | data/vectors.py:102-115 | a key outside the batch has no new row |
| Vectors.UpsertReplaces | data/vectors.py:95-115 | for a batch with distinct keys each batch key afterwards has exactly its new row (delete then add, not a merge), and every other key keeps its rows |
| Vectors.LastHashAfterUpsert | data/vectors.py:147-149 | after an upsert `get_last_hash` of a batch key gives that item's `last_embedded_hash`, or `None` |
| Vectors.Take | data/vectors.py:125 | `.limit(top_k)` gives at most `top_k` hits, the first ones of the ranking |
| Vectors.VectorStore.constructor | data/vectors.py:13-15 | no table and no dimension lock at start |
| Vectors.VectorStore.AddOrUpdateBatch | data/vectors.py:52-115 | an empty batch is a no-op; a first vector whose length differs from the locked dimension raises ValueError and changes nothing; otherwise the dimension is locked to it and the batch keys' old rows are deleted; a later vector of another length then makes the add of the fixed-size `Vector(dim)` column fail with ValueError, leaving the rows deleted; otherwise the batch's rows are added; every stored vector keeps the table's length |
| Vectors.UpsertedDim | data/vectors.py:67 | a batch whose vectors all have the table's length leaves every stored vector at that length |
| Vectors.VectorStore.Query | data/vectors.py:118-133 | without a table the result is `[]`; otherwise at most `top_k` hits in rank order, each scored by its reported score, else `1 - distance`, else 0 |
| Vectors.VectorStore.GetMeta | data/vectors.py:136-144 | the first row under the key, and `None` without a table |
| Vectors.VectorStore.GetLastHash | data/vectors.py:147-149 | the `last_embedded_hash` of the key's first row, or `None` |
| Vectors.VectorStore.Reset | data/vectors.py:152-157 | the table and the dimension lock are gone |
| Vectors.VectorStore.Count | data/vectors.py:160-163 | the number of rows, 0 without a table |
| Vectors.BuildRows | data/vectors.py:102-113 | the row loop computes one new row per item, in order |
| Vectors.CarryLoop | data/vectors.py:110-112 | the field loop computes the whitelisted fields present in the metadata |
| Vectors.CarryStep | data/vectors.py:110-112 | one more field is copied exactly when the metadata has it |
| Vectors.Score | data/vectors.py:128-131 | a stored `score` wins; otherwise `1 - _distance`, which lies in [-1, 1] for a cosine distance in [0, 2]; `0.0` without either |
| Vectors.NearerScoresHigher | data/vectors.py:125-131 | without stored scores, a nearer hit scores at least as high, so the cosine ranking is the score ranking |
| HaClient.BaseUrl | ha/client.py:21-28 | a non-empty `HA_URL` wins: the base is `HA_URL` with its trailing slashes, and only those, removed; with none of `HA_URL`, `HA_SCHEME`, `HA_HOST`, `HA_PORT` set it is `http://localhost:8123` |
| HaClient.Block | ha/client.py:85-88 | an item contributes a domain only together with a dict of services |
| HaClient.ServicesMapErr | ha/client.py:84-85 | once an item is not a dict (`item.get` raises AttributeError) the whole map fails with AttributeError |
| HaClient.ServicesMapErrKind | ha/client.py:84-85 | the only failure of `services_map` is AttributeError |
| HaClient.ServicesMapErrStep | ha/client.py:84-85 | one more item fails the map exactly when the earlier items failed or the item is not a dict |
| HaClient.ServicesMapErrAt | ha/client.py:84-85 | a failed map has an item that is not a dict |
| HaClient.ServicesMapNonDict | ha/client.py:84-85 | an item that is not a dict fails the map |
| HaClient.ServicesMapFails | ha/client.py:84-85 | the map fails exactly when some item is not a dict |
| HaClient.ServicesMapStep | ha/client.py:84-88 | one more item either sets its domain to its services dict or leaves that domain as it was |
| HaClient.BlocksOf | ha/client.py:84-88 | one counted block per item |
| HaClient.BlocksOfIndex | ha/client.py:84-88 | block `i` is what item `i` contributes |
| HaClient.ServicesMapIsCollect | ha/client.py:82-89 | a successful map is the later-wins collection of the counted blocks |
| HaClient.CollectStep | ha/client.py:88 | `out[dom] = svcs` for a later block overrides an earlier one |
| HaClient.CollectHas | ha/client.py:88 | a domain is collected exactly when some block names it |
| HaClient.NamedStep | ha/client.py:88 | some block names the domain exactly when the last one does or an earlier one does |
| HaClient.ServicesMapHas | ha/client.py:82-89 | a domain is in the map exactly when some item offers it with a string domain and a dict of services |
| HaClient.ServicesMapLast | ha/client.py:82-89 | a domain maps to the services of the last item offering it |
| HaClient.ServicesMapValues | ha/client.py:86-88 | every value of the map is a dict |
| HaClient.ServicesMapOf | ha/client.py:82-89 | the map built over the service blocks has each domain at most once |
| HaClient.ServicesMapLoop | ha/client.py:82-89 | the loop of `services_map` computes the services map of the items, failure included |
| HaClient.Payload | ha/client.py:103-109 | the payload fails exactly when `dict(service_data or {})` fails, and holds each truthy target under its own key |
| HaClient.PayloadEntries | ha/client.py:103-109 | the payload is `service_data` with `entity_id`, `area_id` and `device_id` set exactly when they are truthy, and every other key kept |
| HaClient.PayloadOfDict | ha/client.py:103-109 | a dict `service_data` is copied and then the three ids are set in order |
| HaClient.SetIfTruthyFind | ha/client.py:104-109 | a key is set exactly when its value is truthy; no other key changes |
| PyValues.SubstringChar | ha/client.py:113 | `"." in action_id` is membership of the character |
| HaClient.RouteOfString | ha/client.py:113-116 | an action id with a `.` splits at its first `.` into domain and service; one without is `light.turn_on` |
| HaClient.Route | ha/client.py:113-116 | a string action id always routes; `None`, a bool or a number fails the `in` test with TypeError |
| HaClient.Pop | ha/client.py:117-118 | `args.pop(k, None)` works exactly on a dict: what is left lacks `k`, keeps every other key, and the popped value is the one stored at `k`, `None` when absent |
| HaClient.ExecutePayload | ha/client.py:112-119 | `execute` posts to the routed service with `args` minus the popped ids, plus `device_id`, `area_id` and `entity_id` exactly when they are truthy |
| HaClient.Client.constructor | ha/client.py:35-45 | a client with a token has the given base and token, an empty services cache and no requests |
| HaClient.Client.Services | ha/client.py:77-80 | while the cache is empty a call fetches `/api/services` and caches the answer; a failed GET raises and leaves the cache empty; a filled cache is returned without a request |
| HaClient.Client.ServicesMap | ha/client.py:82-89 | the services map of the cached services, or of the fetched answer, or the failed GET's error, and the cache as `services()` leaves it |
| HaClient.Client.DomainServices | ha/client.py:91-92 | the services of one domain, `{}` when it is absent, a failure of the map or of the GET passed on |
| HaClient.Client.CallService | ha/client.py:94-110 | one POST to `/api/services/<domain>/<service>` with the payload, and its answer or its failure as the result; a bad `service_data` raises before any request |
| HaClient.Client.Execute | ha/client.py:112-120 | one POST to the routed service, and the result `{"status": "ok", "service": "<domain>.<service>", "result": …}`, or the POST's failure; a bad route or `args` raises before any request |
| HaClient.Connect | ha/client.py:35-39 | construction fails with RuntimeError exactly when `HA_TOKEN` is unset or empty; otherwise the base URL is composed from the environment |
| RoutesChat.FetchStep | app/routes_chat.py:50-57 | a FETCH_MORE that ends the turn makes no service call and stores nothing it does not answer |
| RoutesChat.FetchArea | app/routes_chat.py:53-54 | a failing `params`/`area` lookup ends the turn with that exception and stores nothing |
| RoutesChat.Extend | app/routes_chat.py:55 | extending the candidates either goes on to the next round or fails without a reply stored |
| RoutesChat.ExecuteStep | app/routes_chat.py:58-66 | EXECUTE_AND_REPLY always ends the turn; a failed service call raises after the request went out; the stored reply is the answered one |
| RoutesChat.StepOf | app/routes_chat.py:43-66 | a decision that ends the turn stores its reply exactly when it answers it, and summarises exactly then |
| RoutesChat.Rounds | app/routes_chat.py:42-71 | at most two decisions are taken; the turn either settles or gives up with the fallback; a service call happens only in a round actually taken |
| RoutesChat.RoundOf | app/routes_chat.py:43 | a round that ends the turn counts one more decision, and a failing `decide_and_reply` escapes |
| RoutesChat.Turn | app/routes_chat.py:27-71 | the classifier's reply ends the turn before any decision; otherwise the bundle is built and the rounds run; at most two decisions |
| RoutesChat.RoundEnds | app/routes_chat.py:42-66 | a decision that ends the turn is the turn's outcome |
| RoutesChat.RoundsUnfold | app/routes_chat.py:42-56 | the loop is the current round's step followed by the remaining rounds |
| RoutesChat.NoRoundLeft | app/routes_chat.py:68-71 | after the last round the fallback reply is given |
| RoutesChat.RoundGoesOn | app/routes_chat.py:55-56 | a `continue` runs the next round with the extended bundle |
| RoutesChat.StepModes | app/routes_chat.py:44-58 | FETCH_MORE and EXECUTE_AND_REPLY dispatch to their branch |
| RoutesChat.UnparseableReplies | app/routes_chat.py:43-49 | a decision model output without a JSON object ends the turn with the fixed parse-failure reply, stored and summarised |
| RoutesChat.ClassifierReply | app/routes_chat.py:32-36 | a `reply` classification answers its text with no decision and no service call, stored and summarised |
| RoutesChat.ReplyEnds | app/routes_chat.py:45-49 | a REPLY decision answers its text, stored and summarised, with no service call |
| RoutesChat.ExecuteEnds | app/routes_chat.py:58-66 | an EXECUTE_AND_REPLY decision whose call succeeds makes exactly one service call and answers `reply_text`, stored and summarised |
| RoutesChat.ExecuteFailsAfterPost | app/routes_chat.py:61-63 | an EXECUTE_AND_REPLY decision whose POST fails has still made that one call and ends the turn with the error, nothing stored |
| RoutesChat.FetchGoesOn | app/routes_chat.py:50-56 | a `devices_for_area` fetch appends the area's devices to the candidates and runs the next round |
| RoutesChat.FetchAppends | app/routes_chat.py:52-56 | the fetch step appends the area's devices to the candidate list |
| RoutesChat.FetchDispatch | app/routes_chat.py:52-53 | a `devices_for_area` fetch looks up the area from `params` |
| RoutesChat.FetchLooksUp | app/routes_chat.py:54 | the area is looked up among the devices |
| RoutesChat.ExtendAppends | app/routes_chat.py:55 | `extend` appends after the existing candidates |
| RoutesChat.OtherFetchEnds | app/routes_chat.py:57 | any other fetch kind answers "Need more info to proceed." and stores nothing |
| RoutesChat.TwoSkippedGiveUp | app/routes_chat.py:42-71 | two decisions with unrecognised modes give the fallback reply, stored but not summarised, with no service call |
| RoutesChat.NoSessionNoSummary | app/routes_chat.py:35 | without a stored session the summary update changes nothing |
| RoutesChat.Round | app/routes_chat.py:44-66 | one decision, performed, posts exactly the call its step makes |
| RoutesChat.Fetch | app/routes_chat.py:50-57 | the FETCH_MORE branch computes the fetch step |
| RoutesChat.ExtendCandidates | app/routes_chat.py:55 | the in-place `extend` computes the extended bundle |
| RoutesChat.Execute | app/routes_chat.py:58-66 | the EXECUTE_AND_REPLY branch computes its step and posts exactly the routed call, also when the POST then fails |
| RoutesChat.RoundStep | app/routes_chat.py:43-66 | one pass of the loop body either ends the turn with the rounds' outcome or leaves the rest of the rounds to the next bundle, and posts its call |
| RoutesChat.DecisionLoop | app/routes_chat.py:42-71 | the loop computes the rounds' outcome and posts at most its one call |
| RoutesChat.Classified | app/routes_chat.py:27-71 | after classification the turn computes the outcome and posts its call |
| RoutesChat.Persist | app/routes_chat.py:34-35 | the assistant reply is appended to the chat's messages and the summary updated exactly as the outcome says |
| RoutesChat.ChatTurn | app/routes_chat.py:18-71 | a missing `HA_TOKEN` fails before anything is stored; otherwise the user message is stored first, then the turn's reply, at most one service call is made, and the answer is the turn's |
| RoutesChat.Respond | app/routes_chat.py:27-71 | classification, decisions and persistence together: the outcome, its service call and the stored reply |
| RoutesChat.Serve | app/routes_chat.py:20-71 | with a client, the messages gain the user message and the turn's reply, and the posts are the turn's call |
| Text.Lower | data/repo.py:62-67 | `lower()` keeps the length and lowers each character |
| Text.LStrip | core/intent_extractor.py:37 | the left-stripped text is a suffix that does not start with whitespace, and everything dropped is whitespace |
| Text.RStrip | core/intent_extractor.py:37 | the right-stripped text is a prefix that does not end with whitespace, and everything dropped is whitespace |
| Text.RStripChar | ha/client.py:24 | `rstrip("/")` drops exactly the trailing run of that character |
| Text.ReplaceChar | data/repo.py:73 | `replace("_", " ")` swaps that character in place and keeps the length |
| Text.IndexOf | data/builders.py:126 | the first occurrence of a character, none exactly when it is absent |
| Text.SplitFirst | ha/client.py:114 | `split(c, 1)` gives the text before the first `c` and the rest, and rejoins to the input |
| Text.SplitFirstJoin | ha/client.py:114 | splitting `a + c + b` where `a` has no `c` gives back `(a, b)` |
| Text.SplitAll | utils/jsonio.py:15 | `split("-")` gives at least one piece, no piece holds `-`, and joining the pieces with `-` gives the text back |
| Text.NatToStringDigits | utils/jsonio.py:15-16 | `str(n)` of a non-negative integer is all digits and reads back as `n` |
| Text.ParseIntNotNumeric | utils/jsonio.py:15-16 | `int` of non-blank text starting with neither a sign nor a digit raises |
| Text.StripUnpadded | data/builders.py:14 | stripping text without outer whitespace changes nothing |
| Text.ParseIntOfNat | utils/jsonio.py:16 | `int(str(n)) == n` for non-negative `n` |
| Text.LexLeTotal | data/builders.py:99 | string order is total |
| Text.LexLeTrans | data/builders.py:99 | string order is transitive |
| Text.LexLeAntisym | data/builders.py:99 | string order is antisymmetric |
| Text.Insert | data/builders.py:99 | insertion adds one element |
| Text.InsertPerm | data/builders.py:99 | insertion adds the element and loses none |
| Text.InsertSorted | data/builders.py:99 | insertion into a sorted list keeps it sorted |
| Text.InsertHeadBound | data/builders.py:99 | the head of a sorted list bounds everything inserted behind it |
| Text.ConsSorted | data/builders.py:99 | a head below a sorted tail gives a sorted list |
| Text.Sort | data/builders.py:99 | `sorted` keeps the length |
| Text.SortPerm | data/builders.py:99 | `sorted` is a permutation of its input |
| Text.SortSorted | data/builders.py:99 | `sorted` gives a list in string order |
| Text.SortSameElements | data/repo.py:173 | a string is in the sorted list exactly when it is in the input |
| PyValues.Keys | data/builders.py:99 | `keys()` lists the keys in insertion order, one per entry |
| PyValues.Find | data/vectors.py:128-142 | `get` finds a value exactly when the key is present, and that value is stored under the key |
| PyValues.Snoc | core/resolver.py:29 | `append` adds the element last and keeps the others in place |
| PyValues.Set | core/decide_and_reply.py:28 | `d[k] = v` keeps an existing key's position and puts a new key last |
| PyValues.FindSet | core/decide_and_reply.py:28 | after `d[k] = v`, `k` maps to `v` and no other key changes |
| PyValues.SetKeepsDistinct | core/decide_and_reply.py:28 | `d[k] = v` keeps the keys distinct |
| PyValues.Delete | ha/client.py:117-118 | `pop` leaves the key absent and every other key as it was |
| PyValues.FindDistinct | data/vectors.py:142 | with distinct keys, a stored entry is what `get` finds |
| PyValues.FindAppend | data/repo.py:186 | an entry added last is found only when its key is new |
| PyValues.FindUpdate | data/repo.py:179-185 | after `update(extra)` the keys of `extra` map to its values and every other key is unchanged |
| PyValues.StrList | data/builders.py:99 | a list of strings becomes a list value element by element |
| PyValues.NatToString | utils/jsonio.py:15-16 | `str(n)` is never empty |
| Text.Strip | data/builders.py:14 | `strip()` gives text with no whitespace at either end, made of characters of the input and never longer |
| Text.StripKeeps | data/builders.py:17 | only whitespace is stripped: text holding a character that is not whitespace does not strip to nothing |
| Text.ParseInt | utils/jsonio.py:15-16 | `int(s)` is negative only for text with a minus sign |
| Text.ParseFloatTrunc | core/resolver.py:12 | `int(float(v))` is negative only for text with a minus sign |
| PyValues.DictOf | core/resolver.py:26 | `dict(x)` copies a dict; a non-iterable raises TypeError; any other result comes from key/value pairs and has distinct keys |
| PyValues.PairsDict | core/resolver.py:26 | `dict` of a sequence of pairs has distinct keys |
| PyValues.PairsDictOk | core/resolver.py:26 | `dict` of a sequence succeeds exactly when every element is a pair with a string key |
| PyValues.PairsDictKeys | core/resolver.py:26 | a key is in the dict exactly when some pair has it |
| PyValues.PairsDictLast | core/resolver.py:26 | a key maps to the value of the last pair with that key |

## Where the design and the code differ

The model follows the code in each case.

- **Errors.** The design says the user never sees internal error text.
  The route lets `KeyError`, `AttributeError` and the other exceptions of
  the decision branches escape. The model carries them as `Err` outcomes:
  no reply is stored and the summary is not updated.
- **Re-embedding.** The design describes an incremental synchronisation
  that skips unchanged content. `sync_all` (ha/syncer.py:34-61) embeds
  every state and every service on every call. The model proves the
  counts of that full pass.
- **Broadening.** The design has a fetch-more decision re-run the resolver
  with a broader scope. The route instead appends
  `repo.devices_for_area(area)` to the candidate list
  (app/routes_chat.py:52-56).
- **Classifier.** The route imports `extract_intent_or_reply` from
  core/intent_extractor.py, which does not define it. The classifier's
  answer is therefore a parameter of the turn.
- **Summaries.** The route never calls `load_or_init_session`. A chat whose
  session was never created keeps no summary, and `update_summary` does
  nothing on it (`RoutesChat.NoSessionNoSummary`).

## Left out

- Language-model and embedding calls: their HTTP clients (core/llm_client.py, core/big_llm.py, data/embedding.py) and the prompt texts are not part of this model. Their answers are function parameters, and these are total: a failing call is not modelled. In the source `embed_texts` raises on a failed POST and on a missing or empty embedding (data/embedding.py:17-21), and that exception propagates out of `sync_all` before `add_devices`; the `embed` parameter of `Syncer.SyncAll` and the `chat` and `classify` parameters of the chat route always answer.
- LanceDB: nearest-neighbour ranking is the `rank` parameter of `VectorStore.Query`. The SQL-like delete filter strings are replaced by deletion by key. data/vectors_devices.py and data/vectors_actions.py are not part of this model.
- Builders.HashDict: SHA-1 is not modelled. The content hash is a collision-free digest of the canonical sort-keys form of the content, so only "same content gives same hash, different content gives different hash" is stated. No property of the real SHA-1 is claimed.
- `json.dumps` and `json.loads` are parameters: `dumps` for serialisation and `decode` for decoding.
- Text.ParseFloatTrunc: `float()` is modelled for decimal text with an optional sign, with single underscores allowed between digits. Exponents, `nan` and `inf` are left out, and such text counts as unparseable. The model keeps the exact decimal value: there is no rounding to the nearest IEEE double (`"2.9999999999999999"` gives 2 here and 3 in Python, `"9007199254740993"` keeps its last digit) and no overflow to `inf` (a numeral beyond the double range gives an integer here, where `int()` raises OverflowError).
- Resolver.NormalizedValue: takes the exact integer part from `Text.ParseFloatTrunc`, so it inherits the missing double rounding, and a numeral beyond the double range becomes an integer where the source's bare `except` keeps the string.
- Resolver.NormalizeString: the same gap as `Resolver.NormalizedValue`; a numeric string whose double rounds across an integer, or that overflows to `inf`, is normalised differently here.
- Text.Lower: lower-casing is ASCII only. Non-ASCII letters are kept as they are.
- JSON numbers other than the integers the core compares and clamps are not modelled. The vector components and the scores of `VectorStore.Query` are Dafny `real`s, not IEEE floats.
- The clock (`_now`, `time.time`) is the parameter `now`.
- ha/client.py: `_get`/`_post` are recorded requests. Their answers are parameters: the decoded reply, or the error `raise_for_status` raises. The `timeout` argument, the content-type test of `_post` (a reply that is not JSON becomes `None`), and the dotenv loading at import are left out.
- ha/client.py: `state` and `states_batch` are network I/O and are not part of this model; `states_batch` swallows every error of its GETs. `states()` is the `states` parameter of `SearchInterface.ResolveDevices` and `Syncer.SyncAll`: a list of states or the error of the GET. An answer that is not a list is not modelled.
- utils/env.py, utils/logging.py and app/main.py are configuration and startup and are not part of this model.
- core/interface.py (orchestration), data/search_devices.py (I/O plumbing), core/history.py (a constant) and `Searcher.search` (data/search_interface.py:133-148) are not part of this model.
- scripts/ and the tests that need a live Home Assistant or language-model server are not part of this model.
- `sync_embeddings`, `Repo.ensure_hydrated` and `try_get_entity_static` are called from scripts but are not defined in the repository, so they are not part of this model.
- data/models.py: the Pydantic alias of `Schema.schema_data` is not modelled. A stored schema is a record of its properties and hint.
- asyncio: every `await` runs to completion in order, and there is no concurrency.
- The FastAPI request model `TurnIn` is replaced by the route's arguments. `tenant_id` is accepted by `Repo.LoadOrInitSession` only, because the route never uses it.
- Aliasing: `clamp_value`, `_normalize_args`, the `data["args"] = …` assignment and `execute`'s `pop`s mutate dicts in place. No caller observes the old dict afterwards, so these are modelled as functions that return the updated dict. `build_bundle_from_intent` copies the intent's args (core/resolver.py:26), so the intent is unchanged by construction.
- Repository.Repo.UpsertEntity: an `entity_id` that is a number, a bool or `None` is a valid dict key in the source (data/repo.py:114-124), and the snapshot is stored under it. Here dict keys are strings, so such a snapshot gives TypeError and nothing changes.
- Repository.EntityKey: gives TypeError for an `entity_id` that is not a string, for the same reason.
- PyValues.PairsDictOk: succeeds only when every pair has a string key. Python's `dict()` also accepts a number, bool or `None` as key (`dict([(1, 2)])`); here such a pair raises TypeError, since dict keys are strings.
- PyValues.DictOf: a key/value pair whose key is a number, a bool or `None` is accepted by `dict()` in the source; here it raises TypeError, since dict keys are strings.
- utils/filters.py:8 and utils/filters.py:15 print a diagnostic line for input that is not a dict. Output to the console is not modelled; the values returned are.
- IntentExtractor.ExtractIntents: the model's reply is a string. The `str(out)` branch for a reply that is not a string (core/intent_extractor.py:37) is not modelled.
