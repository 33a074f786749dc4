# De-identification post-processing of the Private AI thin client

This project models, in Dafny, the client-side post-processing of the
Private AI thin client for Python (`privateai_client`), together with the
URI builder the client uses to reach the de-identification service.

After the service has returned the entities it found in a batch of texts,
`deidentify_text` rewrites each text itself. For each (text, entity list)
pair it visits the entities in order of their start index. It picks the
entity processor configured for the entity's best label, or the default
processor. It replaces the entity's span, shifted by how much the earlier
replacements have grown the text, with what the processor returned. It
also overwrites the entity's own text with that replacement. Three
processors come with the client:

- `MaskEntityProcessor` repeats a masking string once per character of
  the entity.
- `MarkerEntityProcessor` numbers entities per label (`[NAME_GIVEN_1]`,
  `[NAME_GIVEN_2]`, …). Its counters live on the instance and keep growing
  across calls and texts.
- `FuzzyMatchEntityProcessor` compares the entity text with a list of
  known words by Damerau–Levenshtein distance, optionally ignoring case.
  Depending on the BLOCK/ALLOW strategy it either returns the text
  unchanged or masks or numbers it (`NAME_GIVEN_1`, without brackets).
  Its constructor validates its settings.

`PAIURIs` builds the service's base URI from a url, or from a scheme, host
and port. It derives the endpoint URIs by stripping slashes from each part
and joining the parts with `/`.

The modules follow the source files:

| module | file | source |
|---|---|---|
| `Types` | `types.dfy` | exceptions, results, the dynamically typed values the fuzzy constructor inspects, entities, label counters |
| `Strings` | `strings.dfy` | `s * n`, `str.lower()`, the `f"{key}_{n}"` token |
| `EditDistance` | `edit_distance.dfy` | the distance of `pyxdameraulevenshtein` (optimal string alignment) |
| `DefaultProcessors` | `default_processors.dfy` | `post_processing/processors/default.py` |
| `FuzzyMatch` | `fuzzy_match.dfy` | `post_processing/processors/fuzzy_match.py` |
| `PostProcessing` | `deidentify.dfy` | `post_processing/__init__.py` and its verbatim copy `post_processing/post_processing.py` |
| `PaiUris` | `pai_uris.dfy` | `components/pai_uris.py` |

The engine is imperative, as the source is:

- `DeidentifyText` and `DeidentifyOne` are loops over the texts and the
  entities.
- The marker and fuzzy processors are classes whose `counts` field the
  calls update in place.
- Each method is proved against a specification function. `Run` is the
  inner loop after `k` entities and `RunBatch` the outer loop after `n`
  texts.
- `post_processing/post_processing.py:30-49` repeats the body of
  `deidentify_text` from `post_processing/__init__.py:19-36` line for
  line. The model defines it once, and the table below cites
  `__init__.py`.
- `Run` and `RunBatch` are generic in what a processor call does (an
  `Apply` value), so the engine's lemmas hold for any processor
  behaviour. The methods instantiate them with `ApplyOne`, the behaviour
  of the three processors.

The lemmas about `Run` and `RunBatch` state what the source promises:

- On entities whose spans lie within the text, are ordered and do not
  overlap, the shifted splices replace exactly those spans of the
  original text (`RunReplaces`).
- The offset is the total change in length so far (`RunOffset`).
- An exception stops everything (`RunStops`, `RunBatchStops`).
- A marker processor used for every entity emits its counters' next
  markers and never repeats one (`RunWithOneMarker`, `MarkerRunDistinct`).
- Output `k` is text `k` rewritten from the counters that the earlier
  texts left (`RunBatchAt`).

### Where the code and its tests disagree

The model follows the code in each case.

- `default.py:19` returns the marker in brackets, `[NAME_GIVEN_1]`. The
  tests at `tests/test_post_processing.py:67` and `:140` expect
  `NAME_GIVEN_1`. `SecondNameMarker` and `FreshMarkerSequence` state the
  bracketed form.
- The known-words check at `fuzzy_match.py:49-53` negates a two-element
  tuple. A non-empty tuple is always truthy, so the check never raises.
  The tests at `tests/test_post_processing.py:198` and `:207` expect it to
  reject a dict and a list holding a number. In the model a dict is
  accepted; calling the processor then iterates its keys. A list with a
  non-string raises at call time (`WordDistancesSpec`).
- No threshold check exists. The test at
  `tests/test_post_processing.py:217` expects `"two"` to be rejected. In
  the model the constructor accepts it, and the comparison
  `min_dist <= threshold` raises a `TypeError` at call time (`AtMost`).
- An empty known-words list passes the constructor. Every call then
  raises `ValueError` from `min` (`EmptyKnownWordsFails`).

## Model

| member | source | states |
|---|---|---|
| PostProcessing.DeidentifyText | src/privateai_client/post_processing/__init__.py:10-36 | the result is the de-identified texts of the first min(#texts, #entity lists) pairs, in order, or the first exception a processor raised; the processors' counters and the entities' texts end as that run leaves them |
| PostProcessing.VisitText | src/privateai_client/post_processing/__init__.py:20-35 | one turn of the outer loop advances the batch run by one pair, or reports the exception that ended the batch |
| PostProcessing.DeidentifyOne | src/privateai_client/post_processing/__init__.py:21-34 | the inner loop over one text gives the text, entity list, counters and exception of the run over all its entities in sorted order |
| PostProcessing.VisitEntity | src/privateai_client/post_processing/__init__.py:24-34 | one turn of the inner loop advances the run by one entity, or ends it with the processor's exception and nothing changed |
| PostProcessing.Settle | src/privateai_client/post_processing/__init__.py:30-34 | an exception leaves text, offset, entities and counters as they were and stops the text; a replacement is spliced in at the span shifted by the offset, the offset grows by the change in length and the entity's text is overwritten |
| PostProcessing.CallTracked | src/privateai_client/post_processing/__init__.py:29-30 | a call returns what the processor's behaviour gives on its current counters; only the called processor's counters change, and only when it returns |
| PostProcessing.CallProcessor | src/privateai_client/post_processing/__init__.py:30 | a call on the processor object agrees with `ApplyOne`, and a raising call leaves the counters unchanged |
| PostProcessing.AfterCall | src/privateai_client/post_processing/__init__.py:30 | when every other processor's counters are unchanged, the new state is the old one with the called processor's entry replaced |
| PostProcessing.Choose | src/privateai_client/post_processing/__init__.py:29 | the configured processor for the label when there is one, else the default |
| PostProcessing.SortOrder | src/privateai_client/post_processing/__init__.py:23 | the visiting order lists every entity index exactly once, by ascending start index, equal starts in their original order (Python's stable sort) |
| PostProcessing.SortPrefix | src/privateai_client/post_processing/__init__.py:23 | sorting the first n entities gives exactly the indices below n, stably sorted |
| PostProcessing.Insert | src/privateai_client/post_processing/__init__.py:23 | inserting a later index into a stably sorted order keeps it sorted and adds just that index |
| PostProcessing.SortedDistinct | src/privateai_client/post_processing/__init__.py:23 | a stably sorted order visits no entity twice |
| PostProcessing.Clamp | src/privateai_client/post_processing/__init__.py:34 | a slice bound past the end of the text stops at the end, a negative one at the start; one inside the text is kept |
| PostProcessing.Visit | src/privateai_client/post_processing/__init__.py:24-34 | a visit that does not raise adds exactly one replacement; one that raises adds none; nothing is visited after an exception |
| PostProcessing.Run | src/privateai_client/post_processing/__init__.py:23-34 | after k entities without an exception there are exactly k replacements, and never more |
| PostProcessing.VisitFails | src/privateai_client/post_processing/__init__.py:30 | a raising call ends the text's run with the text, offset and counters it had before |
| PostProcessing.VisitSplices | src/privateai_client/post_processing/__init__.py:24-34 | a returning call splices its replacement at the span shifted by the offset, moves the offset by the change in length, keeps the processor's new counters and overwrites that entity's text |
| PostProcessing.RunStops | src/privateai_client/post_processing/__init__.py:30 | once a processor has raised, later entities change nothing |
| PostProcessing.Overwrite | src/privateai_client/post_processing/__init__.py:30 | overwriting entity texts keeps the number of entities |
| PostProcessing.OverwriteAt | src/privateai_client/post_processing/__init__.py:30 | a visited entity's text becomes its replacement and nothing else about it changes; an unvisited entity is unchanged |
| PostProcessing.RunOffset | src/privateai_client/post_processing/__init__.py:31-32 | the offset is the sum over visited entities of replacement length minus original text length |
| PostProcessing.RunReplaces | src/privateai_client/post_processing/__init__.py:21-34 | on in-bounds, ordered, non-overlapping spans whose length matches the entity text, the working text is the original with each visited span replaced and the gaps kept, and its length is the original's plus the offset |
| PostProcessing.AllToMarkerIff | src/privateai_client/post_processing/__init__.py:29 | the recursive condition "the first k entities go to marker processor m" holds exactly when the processor chosen for each of them is m |
| PostProcessing.MarkerVisit | src/privateai_client/post_processing/__init__.py:29-30 | an entity routed to a marker processor gets that processor's next marker and moves its counters as one marker call does |
| PostProcessing.RunWithOneMarker | src/privateai_client/post_processing/__init__.py:23-34 | when one marker processor handles every entity, the replacements are exactly its markers for the labels in visiting order, continuing from its counters, and its counters end as those calls leave them |
| PostProcessing.RunBatch | src/privateai_client/post_processing/__init__.py:19-35 | the entity lists keep their number, and after n pairs without an exception there are n outputs |
| PostProcessing.BatchStep | src/privateai_client/post_processing/__init__.py:20-35 | one more pair appends that text's rewrite, replaces its entity list and carries the counters forward to the next text |
| PostProcessing.RunBatchStops | src/privateai_client/post_processing/__init__.py:30 | once a processor has raised, later texts change nothing |
| PostProcessing.RunBatchAt | src/privateai_client/post_processing/__init__.py:35 | output k is text k rewritten by its own entities, starting from the counters the earlier texts left |
| PostProcessing.EmptyListUnchanged | src/privateai_client/post_processing/__init__.py:22 | a text with an empty entity list is output unchanged |
| PostProcessing.OutputCount | src/privateai_client/post_processing/__init__.py:20 | `zip` stops at the shorter input: there are min(#texts, #entity lists) outputs, as many as texts exactly when there are no more texts than entity lists |
| DefaultProcessors.MaskEntityProcessor.Call | src/privateai_client/post_processing/processors/default.py:8-9 | the mask has length \|masking string\| × \|entity text\| and position i holds character i mod \|masking string\| of the masking string, so it is the masking string repeated once per entity character |
| DefaultProcessors.MarkerEntityProcessor.constructor | src/privateai_client/post_processing/processors/default.py:13-14 | a new marker processor starts with no counts |
| DefaultProcessors.MarkerEntityProcessor.Call | src/privateai_client/post_processing/processors/default.py:16-19 | the label's count goes up by one, no other count changes, and the marker is `[label_n]` with the new count |
| DefaultProcessors.MarkerStepCounts | src/privateai_client/post_processing/processors/default.py:17-18 | one call raises its own label's count by one and leaves every other label's count alone |
| DefaultProcessors.MarkerTextInjective | src/privateai_client/post_processing/processors/default.py:19 | equal markers have equal label and number |
| DefaultProcessors.MarkerRun | src/privateai_client/post_processing/processors/default.py:16-19 | a sequence of calls emits one marker per entity |
| DefaultProcessors.MarkerRunSnoc | src/privateai_client/post_processing/processors/default.py:16-19 | one more call continues from the counts the earlier calls left |
| DefaultProcessors.MarkerRunCounts | src/privateai_client/post_processing/processors/default.py:14-18 | after a sequence of calls each label's count has grown by its number of occurrences |
| DefaultProcessors.MarkerRunAt | src/privateai_client/post_processing/processors/default.py:17-19 | the k-th marker carries its label's starting count plus its occurrences up to and including k |
| DefaultProcessors.MarkerPairDistinct | src/privateai_client/post_processing/processors/default.py:17-19 | two different calls of one instance give different markers |
| DefaultProcessors.MarkerRunDistinct | src/privateai_client/post_processing/processors/default.py:17-19 | one instance never emits the same marker twice over any sequence of calls |
| DefaultProcessors.FreshMarkerSequence | src/privateai_client/tests/test_post_processing.py:123-140 | a fresh instance numbers NAME_GIVEN, LOCATION_COUNTRY, NAME_GIVEN as 1, 1, 2 |
| DefaultProcessors.SecondNameMarker | src/privateai_client/post_processing/processors/default.py:19 | the second NAME_GIVEN marker is `[NAME_GIVEN_2]`, with brackets |
| FuzzyMatch.ValidateAttributes | src/privateai_client/post_processing/processors/fuzzy_match.py:44-57 | the settings are accepted exactly when strategy is BLOCK or ALLOW, process type is MARKER or MASK, the masking character is a string and ignore-casing is a bool; the first failing check in source order gives the error, down to the ignore-casing error when only that check fails; the known-words error never arises |
| FuzzyMatch.FuzzyMatchEntityProcessor.Init | src/privateai_client/post_processing/processors/fuzzy_match.py:8-23 | the processor keeps its settings as given and starts with no counts |
| FuzzyMatch.FuzzyMatchEntityProcessor.New | src/privateai_client/post_processing/processors/fuzzy_match.py:8-24 | construction raises the validation error when there is one, else gives a fresh processor with those settings and no counts |
| FuzzyMatch.FuzzyMatchEntityProcessor.Call | src/privateai_client/post_processing/processors/fuzzy_match.py:26-42 | a call returns the text, its mask or its label's next token as the gate decides, and moves the counters as `FuzzyStep` does; a raising call leaves the counters unchanged |
| FuzzyMatch.WordDistances | src/privateai_client/post_processing/processors/fuzzy_match.py:27-31 | one distance per known word |
| FuzzyMatch.WordDistancesSpec | src/privateai_client/post_processing/processors/fuzzy_match.py:27-31 | the distances exist exactly when every known word is a string, and the k-th is the distance between the (folded) entity text and the (folded) k-th word |
| FuzzyMatch.SeqMinIsMin | src/privateai_client/post_processing/processors/fuzzy_match.py:29 | `min` returns an element that no element is below |
| FuzzyMatch.MinDistanceWithin | src/privateai_client/post_processing/processors/fuzzy_match.py:27-33 | the minimum distance is within t exactly when some known word is within t of the entity text |
| FuzzyMatch.EmptyKnownWordsFails | src/privateai_client/post_processing/processors/fuzzy_match.py:27-31 | with no known words every call raises the `ValueError` of `min` on an empty sequence |
| FuzzyMatch.StrategyFlip | src/privateai_client/post_processing/processors/fuzzy_match.py:32-35 | swapping BLOCK and ALLOW inverts the pass-through decision and keeps any error |
| FuzzyMatch.FuzzyStepEffect | src/privateai_client/post_processing/processors/fuzzy_match.py:35-42 | a passed entity comes back unchanged; a masked one is the masking string repeated once per character of its text; the counters change exactly when the entity is numbered, and then only its own label's count, by one, which the token carries |
| FuzzyMatch.BlockedMarkerStep | src/privateai_client/post_processing/processors/fuzzy_match.py:40-42 | a blocked entity under MARKER becomes `label_n` with its label's next count |
| FuzzyMatch.IgnoreCasingDistances | src/privateai_client/post_processing/processors/fuzzy_match.py:27-29 | with case ignored, texts equal up to ASCII case get the same distances |
| FuzzyMatch.IgnoreCasingGate | src/privateai_client/post_processing/processors/fuzzy_match.py:27-33 | with case ignored, texts equal up to ASCII case get the same decision |
| FuzzyMatch.JoshIsBlocked | src/privateai_client/tests/test_post_processing.py:156 | "Josh" is within 2 of "John", so BLOCK against John and Peter does not pass it |
| FuzzyMatch.JoshIsMasked | src/privateai_client/tests/test_post_processing.py:156 | masking the blocked "Josh" gives "####" and no counter moves |
| FuzzyMatch.JoshIsMarked | src/privateai_client/tests/test_post_processing.py:160 | marking the blocked "Josh" gives `NAME_GIVEN_1` and the count 1 for NAME_GIVEN |
| FuzzyMatch.CaseMatters | src/privateai_client/tests/test_post_processing.py:161 | respecting case, "Josh" and "JOSH" are not at distance 0; ignoring case they are |
| EditDistance.DistZeroIffEqual | src/privateai_client/post_processing/processors/fuzzy_match.py:29 | the distance is zero exactly between equal strings |
| EditDistance.DistAtMostLonger | src/privateai_client/post_processing/processors/fuzzy_match.py:29 | the distance never exceeds the longer string's length |
| Strings.Repeat | src/privateai_client/post_processing/processors/default.py:9 | `s * n` has length \|s\| × n and only characters of s |
| Strings.RepeatAt | src/privateai_client/post_processing/processors/default.py:9 | character i of `s * n` is character i mod \|s\| of s: n copies of s one after another |
| Strings.Lower | src/privateai_client/post_processing/processors/fuzzy_match.py:28-29 | lower-casing keeps the length and maps each character on its own |
| Strings.Decimal | src/privateai_client/post_processing/processors/default.py:19 | a count is written as a non-empty string of digits with no leading zero |
| Strings.DecimalRoundTrip | src/privateai_client/post_processing/processors/default.py:19 | reading the written count back gives the count |
| Strings.NumberedShape | src/privateai_client/post_processing/processors/fuzzy_match.py:42 | the token is the label, an underscore, then only digits |
| Strings.NumberedInjective | src/privateai_client/post_processing/processors/fuzzy_match.py:42 | equal tokens have equal label and number |
| PaiUris.New | src/privateai_client/components/pai_uris.py:5-20 | a given url is taken verbatim; otherwise scheme and host are both needed, else `ValueError`; with both, construction succeeds exactly when the scheme cut at its first `://` is http or https |
| PaiUris.NewAssembled | src/privateai_client/components/pai_uris.py:8-16 | with a valid scheme and host the base is `scheme://host`, followed by `:port` when a port is given |
| PaiUris.SchemeRoundTrip | src/privateai_client/components/pai_uris.py:10-16 | cutting the assembled base at its first `://` gives back the scheme, and what follows is host and port |
| PaiUris.BeforeFirst | src/privateai_client/components/pai_uris.py:10 | `split(sep)[0]` is the longest prefix containing no occurrence of sep, and sep occurs right after it unless it is the whole string |
| PaiUris.TrimStart | src/privateai_client/components/pai_uris.py:73 | the result does not start with a slash |
| PaiUris.TrimStartSpan | src/privateai_client/components/pai_uris.py:73 | the result is a suffix and everything removed is slashes |
| PaiUris.TrimEnd | src/privateai_client/components/pai_uris.py:73 | the result does not end with a slash |
| PaiUris.TrimEndSpan | src/privateai_client/components/pai_uris.py:73 | the result is a prefix and everything removed is slashes |
| PaiUris.StripSlashes | src/privateai_client/components/pai_uris.py:73 | `strip("/")` neither starts nor ends with a slash |
| PaiUris.StripSlashesSpan | src/privateai_client/components/pai_uris.py:73 | the stripped string is a substring with only slashes removed on either side |
| PaiUris.StripSlashesKeeps | src/privateai_client/components/pai_uris.py:73 | a string with no slash at either end is kept |
| PaiUris.StripSlashesIdempotent | src/privateai_client/components/pai_uris.py:73 | stripping twice is stripping once |
| PaiUris.Split | src/privateai_client/components/pai_uris.py:73 | splitting on `/` gives at least one piece |
| PaiUris.JoinSplit | src/privateai_client/components/pai_uris.py:73 | joining the pieces of a split with `/` gives back the string |
| PaiUris.SplitJoin | src/privateai_client/components/pai_uris.py:73 | splitting a join of slash-free parts gives back the parts |
| PaiUris.StripAll | src/privateai_client/components/pai_uris.py:73 | every argument is stripped, in order |
| PaiUris.CreateUriSegments | src/privateai_client/components/pai_uris.py:72-73 | a URI built from parts whose stripped forms are slash-free splits back into exactly those stripped parts |
| PaiUris.CreateUriAppend | src/privateai_client/components/pai_uris.py:72-73 | one more argument appends `/` and its stripped form |
| PaiUris.CreateUriUnder | src/privateai_client/components/pai_uris.py:72-73 | `_create_uri(base, *segs)` with slash-free segments is the stripped base, `/`, then the segments joined by `/`; every endpoint is built this way |
| PaiUris.PaiUris.Bleep | src/privateai_client/components/pai_uris.py:30-32 | the stripped base followed by `/v3/bleep` |
| PaiUris.PaiUris.Health | src/privateai_client/components/pai_uris.py:34-36 | the stripped base followed by `/healthz` |
| PaiUris.PaiUris.Metrics | src/privateai_client/components/pai_uris.py:38-40 | the stripped base followed by `/metrics` |
| PaiUris.PaiUris.Diagnostics | src/privateai_client/components/pai_uris.py:42-44 | the stripped base followed by `/diagnostics` |
| PaiUris.PaiUris.ProcessText | src/privateai_client/components/pai_uris.py:46-48 | the stripped base followed by `/v3/process/text` |
| PaiUris.PaiUris.ProcessFilesUri | src/privateai_client/components/pai_uris.py:50-54 | the stripped base followed by `/v3/process/files/uri` |
| PaiUris.PaiUris.ReidentifyText | src/privateai_client/components/pai_uris.py:56-60 | the stripped base followed by `/v3/process/text/reidentify` |
| PaiUris.PaiUris.ProcessFilesBase64 | src/privateai_client/components/pai_uris.py:62-66 | the stripped base followed by `/v3/process/files/base64` |
| PaiUris.PaiUris.Version | src/privateai_client/components/pai_uris.py:68-70 | the stripped base followed by a single `/`, since the empty last part stays |

## Left out

- HTTP requests, the response wrapper and the LLM connectors are not modelled. The engine takes the entity lists as values: text, start and end index, best label. `response.entities` becomes a parameter.
- Arbitrary Python callables as processors are not modelled. The engine's `Run`, `RunBatch` and their lemmas are generic in the processor behaviour. The methods call only the three processors defined here.
- Entity dictionaries are values, not shared objects. The in-place `entity["text"] = …` becomes an updated entity list that the methods return. Aliasing between entity dicts, or with the caller's response, is not captured.
- PostProcessing.Clamp: Python resolves a negative slice index from the end of the string; the model clamps it to 0, so the two differ whenever a shifted index goes negative. That happens when earlier replacements shrink the text by more than a later span's start (nested or overlapping spans, e.g. a span inside a longer name already replaced by a short marker) or when an entity's text is longer than its span. `RunReplaces` covers in-bounds, ordered, non-overlapping spans whose length matches the entity text, where no shifted index is negative.
- Strings.Lower: only ASCII letters are lower-cased. Python's full Unicode case mapping, including characters whose lower-case form has a different length, is not modelled.
- Types.Message: the texts of interpreter-raised exceptions (`TypeError`, `AttributeError`, the `min` error) only approximate CPython's wording. The program's own `ValueError` texts are exact.
- Float thresholds, float or other numeric labels, and any known-word iterable besides str, list, tuple, set and dict are not modelled. A bool threshold counts as 0 or 1, as in Python.
- The port is a string. The constructor's `**kwargs` are ignored. A url, scheme or host that is not a string is not modelled; an empty string counts as missing, as Python's truthiness makes it.
- The property `pai_uri` and the constant `api_version` ("v3") are not separate members. They are the field `paiUri` and the constant `ApiVersion`.
- The older copies of the URI builder (`components/pai_uris.py`, `src/components/pai_uris.py`) and the rest of the client are not part of this model.
- FuzzyMatch.CaseMatters: the test at `tests/test_post_processing.py:161` also expects "Josh" to pass. That needs the exact distances to "JOSH" and "Peter", which the model does not compute; the lemma only shows that the distance to "JOSH" is non-zero.
- The end-to-end tests at `tests/test_post_processing.py:38-67` and `:70-106` are not restated as lemmas. The marker case is covered by `RunWithOneMarker` with `SecondNameMarker`, and the fuzzy case by the engine lemmas with `FuzzyStepEffect`.
