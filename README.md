# taiwan-news-ai-search, core model in Dafny

This project models the core of a Taiwanese news-search back end and proves
properties of that model. It covers three groups of code.

**The ranking core.**
- The 29-slot feature vector of the learning-to-rank pipeline.
- The XGBoost re-ranker: shadow mode compares its order with the LLM's; production mode sorts by the predicted score.
- The MMR (Maximal Marginal Relevance) diversity re-ranker.
- The post-ranking step that sends the map message and gates MMR.
- The per-conversation results cache, whose entries expire after a TTL.

**The data tools around the ranking core.**
- Training-data export and validation.
- The source-tier filter of the reasoning pipeline.
- The nesting-reduction helpers and the configuration loader.
- The deep-research output schemas and the deep-research mode detection.
- The fast-track retrieval path.
- The threshold and length sentence chunkers, with their proof-of-concept scripts (the threshold run, the by-source analysis, the test-data preparation).
- The architecture-diagram rules and the JSON newline escaper they use.
- The incremental code indexer.
- The failed-upload processor.

**The seven retrieval-provider clients.** They share one bounded TTL cache (`ProviderCache`):
- Central Weather Bureau;
- OpenWeatherMap;
- TWSE/TPEX stocks;
- global stocks;
- Taiwan company registry;
- Wikipedia;
- Wikidata.

## Files

| module | file |
|---|---|
| `Wrappers`, `Text` (option/result, Python string operations) | text.dfy |
| `Values` (JSON-like values, truthiness) | values.dfy |
| `Features` | features.dfy |
| `Xgboost` | xgboost.dfy |
| `Mmr` | mmr.dfy |
| `PostRanking` | post_ranking.dfy |
| `ResultsStore` | results_cache.dfy |
| `TrainingExport` | training_export.dfy |
| `TrainingValidate` | training_validate.dfy |
| `SourceTier` | source_tier.dfy |
| `RefactoringPatterns` | refactoring_patterns.dfy |
| `ConfigLoader` | config_loader.dfy |
| `Schemas` | schemas.dfy |
| `DeepResearch` | deep_research.dfy |
| `FastTrack` | fast_track.dfy |
| `PocChunking` | poc_chunking.dfy |
| `PocLengthAnalysis` | poc_length_analysis.dfy |
| `PocRunner` | poc_runner.dfy |
| `PocSourceAnalysis` | poc_source_analysis.dfy |
| `PrepareTestData` | prepare_test_data.dfy |
| `Architecture` | architecture.dfy |
| `JsonEscape` | json_escape.dfy |
| `Indexer` | indexer.dfy |
| `FailedUpload` | failed_upload.dfy |
| `ProviderCache` | provider_cache.dfy |
| `CwbWeather` | cwb_weather.dfy |
| `GlobalWeather` | global_weather.dfy |
| `Twse` | twse.dfy |
| `Yfinance` | yfinance.dfy |
| `TwCompany` | tw_company.dfy |
| `Wikipedia` | wikipedia.dfy |
| `Wikidata` | wikidata.dfy |

## Conventions

- Python floats are `real`s. Python ints are unbounded `int`s, as in Python.
- The clock is a parameter: `now` in seconds, or `today`, or a day age.
- These are function parameters: every network reply, the embedding model, the cosine, JSON/YAML decoding, and float-to-text rendering.
- An exception that escapes becomes the `Err` case of a `Result`. A timeout becomes an explicit outcome.
- Async code is modelled sequentially. No operation in the model interleaves with another.
- State the source changes in place is modelled as a `class` with fields. Examples: the results cache, the provider TTL cache, the config cache, the file index, the post-ranking step. Loops become methods with invariants, proved against the functions that specify them.
- Where the written description and the code differ, the model follows the code. Two examples:
  - the results cache's `retrieve` deletes an expired entry when it looks it up;
  - an entry whose age equals the TTL is still served.

## Model

| member | source | states |
|---|---|---|
| Architecture.HeaderFor | scripts/update_architecture.py:169-176 | the group of a module id belongs to the last header parsed with that id, and there is none exactly when no header has it |
| Architecture.ChildrenOf | scripts/update_architecture.py:179-183 | a module's children are drawn from the parsed nodes, in parse order |
| Architecture.HeaderGroups | scripts/update_architecture.py:168-176 | after the header pass, exactly the module ids with a header have a group, at level 0 and with no children yet |
| Architecture.CollectHeaders | scripts/update_architecture.py:166-176 | the header loop builds exactly those groups |
| Architecture.AssignGroups | scripts/update_architecture.py:152-189 | every node keeps its id, module id and header flag and has no level; a non-header node's parent is its module's header when there is one; each header's group has level 0 and its module's non-header nodes as children, in order |
| Architecture.JoinedNodes | scripts/update_architecture.py:179-184 | the membership pass keeps each node's id, module id and header flag and adds or loses no group |
| Architecture.JoinedParents | scripts/update_architecture.py:180-184 | a non-header node's parent group is the header id of its module, when there is one, and headers get none |
| Architecture.JoinedChildren | scripts/update_architecture.py:179-183 | each group gains exactly its module's non-header nodes, appended in parse order |
| Architecture.JoinGroups | scripts/update_architecture.py:178-184 | the membership loop computes the same nodes and groups as the membership pass |
| Architecture.LevelOf | scripts/update_architecture.py:224-254 | headers get level 0; otherwise an int level in the file's `levels:` section wins; then level 1 for a node with a non-empty parent group; then the `builtin:` section; then the fallback map; the level stays undecided exactly when no rule applies |
| Architecture.GroupMemberLevel | scripts/update_architecture.py:237-240 | a group member without its own int level gets level 1 |
| Architecture.AppendMissing | scripts/update_architecture.py:215-219 | appending the new children keeps the existing list as a prefix, adds only items not already present, and loses none of either list |
| Architecture.MergeGroup | scripts/update_architecture.py:209-219 | a group the `levels:` section names with `children` takes its int level and gains its children; any other group is unchanged |
| Architecture.DetermineLevels | scripts/update_architecture.py:194-256 | groups and nodes are taken from the id-keyed dicts the script builds, one per id in first-seen order, and every group is merged with the file and every node gets the level the priority order decides |
| Architecture.DictBy | scripts/update_architecture.py:206 | a dict comprehension keyed by id holds exactly the ids it was built from |
| Architecture.DictByKeys | scripts/update_architecture.py:206 | the keys are distinct and in first-seen order, every item's key is present, each value carries its key, and the value is the last item with that key |
| Architecture.DuplicateIdsCollapse | scripts/update_architecture.py:206 | two items with the same id collapse into one key holding the second |
| Architecture.KeepKnown | scripts/update_architecture.py:521-524 | the kept edges are exactly those whose two ends are known nodes, never more than given |
| Architecture.DetectDataflowEdges | scripts/update_architecture.py:465-528 | the defined data flows are kept exactly when both ends are nodes of the diagram |
| Architecture.KeepKnownIdempotent | scripts/update_architecture.py:810-815 | filtering edges by known nodes a second time changes nothing |
| Architecture.FinalNodeIds | scripts/update_architecture.py:739-808 | the composed graph's node ids are the diagram's nodes and the old layout's nodes with a non-empty id |
| Architecture.FinalEdges | scripts/update_architecture.py:804-825 | with old edges, exactly those whose two ends survive; with none, the data flows |
| Architecture.UpdateGroupEntry | scripts/update_architecture.py:614-623 | an existing group entry changes exactly when the group has a child the entry lacks, and then only by appending the missing children |
| Architecture.UpdateNodeEntry | scripts/update_architecture.py:638-648 | an existing node entry gets a level only when it had none and a label only when it had an empty one; it counts as changed exactly when it differs |
| Architecture.GroupStep | scripts/update_architecture.py:604-623 | one group adds its id as a key, is new exactly when the id was absent, and leaves every existing level and label alone |
| Architecture.GroupPass | scripts/update_architecture.py:603-623 | the group pass keeps every existing key, level and label, and counts at most one change per group |
| Architecture.GroupPassKeys | scripts/update_architecture.py:604-613 | the group pass adds exactly the group ids as keys |
| Architecture.GroupPassCounts | scripts/update_architecture.py:606-613 | the group pass's `new_cnt` is the number of keys it added |
| Architecture.GroupPassStep | scripts/update_architecture.py:604-623 | the pass over one more group is one more group step |
| Architecture.UpdateGroupEntries | scripts/update_architecture.py:603-623 | the group loop computes the group pass |
| Architecture.NodeStep | scripts/update_architecture.py:626-648 | one node adds its id as a key, is new exactly when the id was absent, and never overwrites a level or a non-empty label |
| Architecture.NodePass | scripts/update_architecture.py:625-648 | the node pass keeps every key and never overwrites an existing level or non-empty label |
| Architecture.NodePassKeys | scripts/update_architecture.py:626-637 | the node pass adds exactly the node ids as keys |
| Architecture.NodePassCounts | scripts/update_architecture.py:631-637 | the node pass's `new_cnt` is the number of keys it added |
| Architecture.NodePassStep | scripts/update_architecture.py:626-648 | the pass over one more node is one more node step |
| Architecture.UpdateNodeEntries | scripts/update_architecture.py:625-648 | the node loop computes the node pass |
| Architecture.UpdateYamlEntries | scripts/update_architecture.py:597-650 | the new `levels:` section and both counts are exactly those of the group pass followed by the node pass: `new_cnt` is the keys the two passes add and `updated_cnt` the existing entries they change; afterwards the file has the old keys plus every group and node id, and `new_cnt` is the number of keys added |
| Architecture.RemovedEntries | scripts/update_architecture.py:655-666 | the reported keys are exactly the file's keys that name neither a node nor a group, never more than the keys |
| Architecture.RemovedEntriesInOrder | scripts/update_architecture.py:662-664 | the report over two stretches of keys is the report over the first followed by the report over the second, so it follows the file's key order |
| Architecture.RemovedEntry | scripts/update_architecture.py:663-664 | a single key is reported exactly when it names neither a node nor a group |
| ConfigLoader.LoadFile | code/python/core/config_loader.py:53-63 | a missing file is `FileNotFoundError`, exactly; a loaded document is truthy or the empty dict |
| ConfigLoader.SectionGet | code/python/core/config_loader.py:80 | `get` fails exactly on a document that is not a dict, and gives the default for a missing key |
| ConfigLoader.ModeEntry | code/python/core/config_loader.py:99 | the mode's entry, else the `discovery` entry, else an empty dict; a non-dict section fails |
| ConfigLoader.ModePatterns | code/python/core/config_loader.py:77-80 | a document without `mode_patterns` gives an empty dict |
| ConfigLoader.DefaultMode | code/python/core/config_loader.py:82-85 | a document without `default_mode` gives `discovery` |
| ConfigLoader.SectionMode | code/python/core/config_loader.py:97-99 | a document without the section gives an empty dict |
| ConfigLoader.Path | code/python/core/config_loader.py:141-148 | a path that leads somewhere ends at a non-`None` value |
| ConfigLoader.GetKey | code/python/core/config_loader.py:120-150 | a missing file gives the default, and the result is `None` only when the default is |
| ConfigLoader.GetKeyNested | code/python/core/config_loader.py:138-148 | a dotted key walks one dict level per piece |
| ConfigLoader.SplitCharAfter | code/python/core/config_loader.py:138 | splitting at the dots gives the first piece and then the pieces of the rest |
| ConfigLoader.Lookup | code/python/core/config_loader.py:138-150 | the loop over the key pieces gives the value at the path, or the default |
| ConfigLoader.CachedIn | code/python/core/config_loader.py:39 | finds the cache entry of a name, or reports that there is none |
| ConfigLoader.ConfigLoader.constructor | code/python/core/config_loader.py:21-37 | a new loader has an empty cache |
| ConfigLoader.ConfigLoader.Load | code/python/core/config_loader.py:39-63 | `load` returns what reading the file gives; a cached document moves to the most-recently-used end and nothing else changes; a loaded one is appended and, beyond twenty entries, the least recently used entry is evicted; a missing file leaves the cache as it was |
| ConfigLoader.ConfigLoader.Reload | code/python/core/config_loader.py:65-73 | every cached document is dropped, whatever name is given |
| ConfigLoader.ConfigLoader.GetModePatterns | code/python/core/config_loader.py:77-80 | the `mode_patterns` of the loaded `mode_detection` document, or the load error |
| ConfigLoader.ConfigLoader.GetDefaultMode | code/python/core/config_loader.py:82-85 | the `default_mode` of the loaded `mode_detection` document, or the load error |
| ConfigLoader.ConfigLoader.GetCriticRules | code/python/core/config_loader.py:87-99 | the mode's entry of `mode_compliance_rules` in `critic_rules`, or the load error |
| ConfigLoader.ConfigLoader.GetSourceTierConfig | code/python/core/config_loader.py:101-113 | the mode's entry of `source_tier_config` in `source_filtering`, or the load error |
| ConfigLoader.ConfigLoader.GetTierDefinitions | code/python/core/config_loader.py:115-118 | the `tier_definitions` of `source_filtering`, or the load error |
| ConfigLoader.ConfigLoader.Get | code/python/core/config_loader.py:120-150 | `get` gives the default for a missing file and otherwise looks up the dotted key |
| PocChunking.ChunkingResult.AvgChunkSize | code/python/indexing/poc_chunking.py:50-54 | 0 without chunks; otherwise the mean times the chunk count is the total of the chunks' character counts |
| PocChunking.CollapseSpaces | code/python/indexing/poc_chunking.py:107 | collapsing whitespace never lengthens the text, empties only the empty text, and keeps whether it starts with whitespace |
| PocChunking.CollapseSingleSpaces | code/python/indexing/poc_chunking.py:107 | the collapsed text has no two whitespace characters in a row, and each is a plain space |
| PocChunking.CollapseKeepsText | code/python/indexing/poc_chunking.py:107 | collapsing keeps every non-space character, in order |
| PocChunking.SqueezeTrimLeft | code/python/indexing/poc_chunking.py:107 | stripping the left keeps every non-space character |
| PocChunking.Pieces | code/python/indexing/poc_chunking.py:111-112 | splitting with a captured mark gives at least one piece |
| PocChunking.MarkSplitParts | code/python/indexing/poc_chunking.py:111-112 | each piece of the split is one mark or a run without marks |
| PocChunking.MarkSplitConcat | code/python/indexing/poc_chunking.py:111-112 | joining the pieces gives back the text |
| PocChunking.LongOnly | code/python/indexing/poc_chunking.py:132 | every kept sentence has at least five characters and is one of the sentences |
| PocChunking.LongOnlyKeeps | code/python/indexing/poc_chunking.py:132 | every sentence of five characters or more is kept |
| PocChunking.StripSlice | code/python/indexing/poc_chunking.py:121-129 | `strip()` leaves a stretch of its text |
| PocChunking.StripBeforeMark | code/python/indexing/poc_chunking.py:120-122 | stripping a run closed by a mark only trims its left |
| PocChunking.KeepPlain | code/python/indexing/poc_chunking.py:128-129 | the final run without a mark strips to at most one sentence, without marks |
| PocChunking.KeepMarked | code/python/indexing/poc_chunking.py:118-123 | a run closed by a mark gives one sentence, ending in that mark |
| PocChunking.CollectShape | code/python/indexing/poc_chunking.py:114-129 | every sentence the loop collects is stripped, non-empty, and holds a mark only at its end |
| PocChunking.SentencesShape | code/python/indexing/poc_chunking.py:96-134 | empty text has no sentences; every sentence is stripped, has at least five characters, and holds a mark only at its end |
| PocChunking.SplitSentences | code/python/indexing/poc_chunking.py:96-134 | `split_sentences` returns those sentences |
| PocChunking.GatherSentences | code/python/indexing/poc_chunking.py:114-129 | the gathering loop collects the stripped runs that each mark closes, then the final run |
| PocChunking.ComputeSimilarity | code/python/indexing/poc_chunking.py:145-164 | fewer than two embeddings give no similarities; otherwise one per neighbouring pair, the cosine of that pair |
| PocChunking.Similarities | code/python/indexing/poc_chunking.py:262-265 | one similarity per neighbouring pair of sentences |
| PocChunking.CountBelow | code/python/indexing/poc_chunking.py:197 | the number of cuts is at most the number of similarities |
| PocChunking.CountBelowMonotone | code/python/indexing/poc_chunking.py:197 | a higher threshold never makes fewer cuts |
| PocChunking.LaidOutText | code/python/indexing/poc_chunking.py:189-224 | the chunks' texts join to the join of all their sentences, and their character counts add up to where the last chunk ends |
| PocChunking.ChunkAt | code/python/indexing/poc_chunking.py:199-222 | chunk i has index i and at least one sentence, its text is its sentences joined, and its offsets locate that text in the joined text |
| PocChunking.LaidOutCount | code/python/indexing/poc_chunking.py:189-224 | there are never more chunks than sentences |
| PocChunking.Close | code/python/indexing/poc_chunking.py:199-207 | closing the chunk under way keeps the layout and every sentence, and moves the position past its text |
| PocChunking.ChunkByThreshold | code/python/indexing/poc_chunking.py:166-224 | no sentences give no chunks and one sentence gives one chunk; otherwise it raises exactly when there are too many similarities; the chunks keep every sentence in order, laid out end to end, one more than the cuts |
| PocChunking.CutAtLowSimilarity | code/python/indexing/poc_chunking.py:189-224 | the cutting loop fails exactly on an out-of-range `sentences[i + 1]` and otherwise lays out the sentences it reached, one chunk more than the cuts |
| PocChunking.Engine.ChunkArticle | code/python/indexing/poc_chunking.py:226-278 | the result keeps the url, headline and body length, uses the engine's threshold unless one is given, chunks exactly the body's sentences end to end, and has one similarity per neighbouring pair |
| PocChunking.ChunkSentences | code/python/indexing/poc_chunking.py:261-268 | embedding, comparing and cutting lays out all sentences, one chunk more than the cuts |
| PocChunking.SimilaritiesOfEmbeddings | code/python/indexing/poc_chunking.py:262-265 | comparing the embeddings of the sentences gives their similarities |
| PocChunking.AverageOfArticle | code/python/indexing/poc_chunking.py:50-54 | the mean chunk size of a chunked article is the length of its joined sentences over the chunk count |
| PocChunking.DataStart | code/python/indexing/poc_length_analysis.py:236 | the data rows start after the `url\t` header line, if there is one |
| PocChunking.ParsedRows | code/python/indexing/poc_length_analysis.py:236-242 | a value is kept exactly when some row parses to it, and there are never more values than rows |
| PocChunking.ParsedPrefix | code/python/indexing/poc_length_analysis.py:236-242 | what the first rows give is the start of what all rows give, so a row limit keeps the first values |
| PocChunking.TabIndex | code/python/indexing/poc_chunking.py:283 | finds the first tab |
| PocChunking.SplitAtFirstTab | code/python/indexing/poc_chunking.py:283 | `split('\t', 1)` cuts at the first tab into two parts |
| PocChunking.ParseTsvLine | code/python/indexing/poc_chunking.py:281-289 | a stripped line without a tab raises `ValueError`; otherwise the URL is the text before the first tab and the data is the decoded rest, or a decoding error |
| DeepResearch.ModeName | code/python/methods/deep_research.py:106 | the mode is one of `strict`, `discovery`, `monitor` |
| DeepResearch.DetectResearchMode | code/python/methods/deep_research.py:98-128 | strict exactly when the lower-cased query holds a fact-check keyword; monitor exactly when it holds no fact-check keyword and a monitoring one; discovery otherwise |
| DeepResearch.TemporalContext | code/python/methods/deep_research.py:172-190 | the context has exactly its six keys and today's date; no temporal range gives a non-temporal context with method `none` and no dates; otherwise the range's entries are copied, `is_temporal` defaulting to false |
| FastTrack.SiteSupportsStandardRetrieval | code/python/core/fastTrack.py:27-35 | `all` supports standard retrieval exactly when aggregation is disabled; any other site exactly when it is not listed |
| FastTrack.RetrievalCount | code/python/core/fastTrack.py:71-80 | 150 items exactly for a query with a temporal keyword, otherwise 50 |
| FastTrack.Recent | code/python/core/fastTrack.py:93-112 | never more recent rows than rows |
| FastTrack.RecentExactly | code/python/core/fastTrack.py:95-112 | the recent rows are exactly the rows dated within the last 365 days; an undated or unparsable row is dropped |
| FastTrack.TemporalFilter | code/python/core/fastTrack.py:114-120 | at most 80 rows, never more than were retrieved |
| FastTrack.TemporalFilterKeeps | code/python/core/fastTrack.py:114-120 | with at least 50 recent rows only recent rows are kept; otherwise the first 80 retrieved rows whatever their dates; either way only retrieved rows |
| FastTrack.FilterRecent | code/python/core/fastTrack.py:91-120 | the date-filtering loop computes that filter |
| FastTrack.Handler.constructor | code/python/core/fastTrack.py:42-58 | the handler state the fast track reads and sets |
| FastTrack.FastTrack.constructor | code/python/core/fastTrack.py:38-40 | the fast track keeps its handler |
| FastTrack.FastTrack.Do | code/python/core/fastTrack.py:60-131 | nothing changes for an ineligible query; otherwise retrieval is marked done, the retrieved rows (date-filtered for a temporal query) become the final retrieved items, and ranking starts unless the query is done or the fast track aborted |
| Features.IndexLayout | code/python/training/feature_engineering.py:35-74 | the 29 index constants name slots 0 to 28 once each, and the five blocks of 6, 8, 7, 6 and 2 features tile the vector in order |
| Features.KeywordCount | code/python/training/feature_engineering.py:131-132 | the keywords are the words of at least two characters: never more than the words, and all of them exactly when every word is that long |
| Features.ExtractQueryFeatures | code/python/training/feature_engineering.py:84-141 | an empty query gives all zeros; otherwise the length and word count, a quote flag set exactly when there is a `"` or `'`, a digit flag set exactly when there is a digit, a question-word flag set exactly when the lower-cased query contains one of the 15 words, and at most as many keywords as words |
| Features.FullWidthYearHasNumbers | code/python/training/feature_engineering.py:121 | `\d` matches Unicode digits: "２０２４年選舉" and "2024年選舉" have numbers, "年度選舉" has none |
| Features.PopulatedFields | code/python/training/feature_engineering.py:194-195 | at most all five fields are populated |
| Features.ExtractDocumentFeatures | code/python/training/feature_engineering.py:146-216 | the description's word count; the age in days when the date is present and parses, else 999999; author and date flags set exactly when the field is non-empty; completeness is populated fields / 5, within [0, 1]; and the three lengths |
| Features.PublicationFlagIgnoresParsing | code/python/training/feature_engineering.py:178-191 | the publication-date flag does not depend on whether the date parses, while an unparsable date gives recency 999999 |
| Features.OverlapRatio | code/python/training/feature_engineering.py:259-263 | the overlap ratio lies in [0, 1], is 0 for an empty query word set, and otherwise times the query word count gives the shared word count |
| Features.ExtractQueryDocFeatures | code/python/training/feature_engineering.py:221-276 | the five retrieval scores pass through; the overlap ratio is that of the lower-cased word sets of the query and of title plus description; the title match is set exactly when the title is non-empty and contains the query, ignoring case |
| Text.MaxOf | code/python/training/feature_engineering.py:306-307 | `max` of a non-empty list of numbers is one of them and bounds all of them |
| Features.Insert | code/python/training/feature_engineering.py:313 | inserting into an ascending list keeps it ascending and adds exactly the item |
| Features.SortAsc | code/python/training/feature_engineering.py:313 | `sorted(all_llm_scores)` is ascending and a permutation of the scores |
| Features.IndexOf | code/python/training/feature_engineering.py:314 | `list.index(x)` is the first position holding x |
| Features.CountLessSort | code/python/training/feature_engineering.py:313-314 | sorting does not change how many scores lie below a value |
| Features.SortedIndexIsCountLess | code/python/training/feature_engineering.py:314 | in an ascending list, the first position of a value is the number of elements below it |
| Features.PercentileRankIsCountLess | code/python/training/feature_engineering.py:313-314 | the rank of a score in the sorted list is the number of scores strictly below it, and less than the number of scores |
| Features.PercentileRank | code/python/training/feature_engineering.py:314 | the rank is the count of lower scores when the score is present, and 0 when it is absent |
| Features.ExtractRankingFeatures | code/python/training/feature_engineering.py:281-329 | the relative score is the score over a positive maximum, and 1.0 when there is none; the percentile is 50 for at most one score, otherwise rank / (n - 1) × 100 (0 for an absent score) and always within [0, 100]; the position change is retrieval minus ranking position |
| Features.EncodeIntent | code/python/training/feature_engineering.py:354-359 | SPECIFIC encodes to 0 and EXPLORATORY to 1, exactly; every other intent, including None, encodes to 2 |
| Features.ExtractMmrFeatures | code/python/training/feature_engineering.py:334-364 | a missing diversity score becomes 0.0, a present one passes through, and the intent is encoded |
| Features.FeatureVector | code/python/core/xgboost_ranker.py:236-275 | the vector has 29 slots and each feature sits at its index constant |
| FailedUpload.TruncateText | crawled/failed_upload_processing.py:76-80 | a text within the limit is returned as is; a longer one keeps exactly its first `max_chars` characters followed by the truncation mark |
| FailedUpload.SiteFromUrl | crawled/failed_upload_processing.py:83-98 | a non-empty override is returned; otherwise the URL's domain, and a ValueError exactly when there is none |
| FailedUpload.LoadLine | crawled/failed_upload_processing.py:118-140 | a line without a tab is skipped; a decodable JSON column is stored under its URL, `None` for a JSON `null`; an undecodable one is stored as None, except on the first two-column line, which is taken for a header |
| FailedUpload.NullFirstLineStored | crawled/failed_upload_processing.py:130-160 | a `null` first line is not taken for a header: its URL is stored with no schema and classified as invalid JSON |
| FailedUpload.LoadFirstLine | crawled/failed_upload_processing.py:117-140 | the header flag stays set exactly while no two-column line has been read |
| FailedUpload.LoadLastLine | crawled/failed_upload_processing.py:118-140 | reading one more line stores exactly what that line stores |
| FailedUpload.LoadLastWins | crawled/failed_upload_processing.py:132-138 | each URL maps to what its last storing line stored: a later line with the same URL overwrites an earlier one |
| FailedUpload.RecordPrefix | crawled/failed_upload_processing.py:118-140 | what a line stores does not depend on the lines after it |
| FailedUpload.LoadTsv | crawled/failed_upload_processing.py:115-140 | the loading loop builds the URL table of the TSV lines |
| FailedUpload.CategoryOf | crawled/failed_upload_processing.py:149-199 | the category, decided in order: missing from the TSV exactly when the URL is absent, invalid JSON exactly when it is stored as None, then an empty headline, an empty body, a body over 50000 characters, and unknown otherwise |
| FailedUpload.Classify | crawled/failed_upload_processing.py:145-199 | each failure carries its item's category and URL; the logged reason is kept for the missing, invalid and unknown categories; fixed reasons are used for the headline and body checks; the reason is never empty |
| FailedUpload.Of | crawled/failed_upload_processing.py:143-199 | a category's list holds only failures of that category, in order |
| FailedUpload.Failures | crawled/failed_upload_processing.py:145-199 | one classified failure per item, in item order |
| FailedUpload.GroupedByCategory | crawled/failed_upload_processing.py:143-201 | each category's list holds exactly that category's failures, in item order, and no empty list is kept |
| FailedUpload.GroupedPartition | crawled/failed_upload_processing.py:143-201 | every failed item lands in exactly one category: the lists' lengths add up to the item count |
| FailedUpload.ClassifyFailures | crawled/failed_upload_processing.py:143-201 | the classifying loop builds exactly that grouping |
| FailedUpload.Retryable | crawled/failed_upload_processing.py:439-441 | missing from TSV, invalid JSON, missing headline and missing body are never retried |
| FailedUpload.RetriedCategories | crawled/failed_upload_processing.py:435-452 | the categories retried are exactly the retryable categories present that the operator answered yes to |
| FailedUpload.ErrorReason | crawled/failed_upload_processing.py:296-307 | the upload error reason, decided in order: "token" gives the token limit, "rate" or 429 the rate limit, "embedding" an embedding error naming the type; otherwise the type and at most 100 characters of the message |
| FailedUpload.ItemOf | crawled/failed_upload_processing.py:376-380 | a data line's URL is the text before the first tab and holds no tab |
| FailedUpload.LogLine | crawled/failed_upload_processing.py:362-380 | blank and '#' lines add no item (a '#' line may set the source TSV); any other line adds exactly its URL and reason |
| FailedUpload.ReadLogItems | crawled/failed_upload_processing.py:358-380 | there is one item per data line and no item's URL holds a tab |
| FailedUpload.ParseLog | crawled/failed_upload_processing.py:358-380 | the log loop computes the items and the source TSV |
| GlobalWeather.FreezingReadingDropped | code/python/retrieval_providers/global_weather_client.py:221-233 | as written, a reply of 0 °C in calm air with no description or humidity holds three readings, yet the snippet shows none of them |
| GlobalWeather.PartsShowEveryReading | code/python/retrieval_providers/global_weather_client.py:221-233 | corrected: one part per reading present, in the order description, temperature, range, humidity, wind; it agrees with the code as written wherever no reading is zero |
| GlobalWeather.LocationLabel | code/python/retrieval_providers/global_weather_client.py:236 | "name, country", or the name alone without a country |
| GlobalWeather.FormatWeather | code/python/retrieval_providers/global_weather_client.py:189-245 | an article exactly for a 200 reply; its title is "[國際天氣] " plus the location (the city as asked when the reply has no name); its link is the city page of the reply's id; its snippet joins, with the bar separator, the parts the code as written builds (a zero reading is left out by its truthiness test), or is 無資料 when there are none |
| GlobalWeather.ParseResponse | code/python/retrieval_providers/global_weather_client.py:118-139 | a timeout stays a timeout; a fetched reply becomes the weather formatted as the code is written |
| GlobalWeather.GlobalWeatherClient.constructor | code/python/retrieval_providers/global_weather_client.py:43-70 | the client is enabled only when configured and given an API key; the cache has the configured flag, TTL and size bound, and starts empty |
| GlobalWeather.GlobalWeatherClient.Search | code/python/retrieval_providers/global_weather_client.py:72-145 | disabled, nothing is returned or cached; enabled, the stripped city is fetched as typed but cached under its lower-cased form, following the shared cache protocol |
| GlobalWeather.GlobalWeatherClient.IsAvailable | code/python/retrieval_providers/global_weather_client.py:297-304 | available exactly when the client is enabled and has a non-empty API key |
| Indexer.ExcludeDir | tools/indexer.py:125-131 | a directory is skipped exactly when its name starts with '.' or is one of the listed names |
| Indexer.LastDot | tools/indexer.py:137 | finds the last '.' of a file name, or reports that there is none |
| Indexer.Suffix | tools/indexer.py:137 | the suffix is empty or a tail of the name that starts with its only '.', at least two characters long |
| Indexer.IncludeFile | tools/indexer.py:134-145 | a file is indexed exactly when its lower-cased suffix is one of the included extensions |
| Indexer.PatternsDisjoint | tools/indexer.py:35-52 | no excluded pattern is an included extension, so the two later exclusion tests in `should_include_file` never fire |
| Indexer.ScanFiles | tools/indexer.py:148-157 | yields exactly the walked files that lie under no excluded directory and are included |
| Indexer.Visit | tools/indexer.py:186-226 | one file adds one to exactly one counter; a stored row at least as new is skipped and unchanged; an unreadable file is an error; otherwise the row is written and counted as updated or added; no other row changes |
| Indexer.ScanCounts | tools/indexer.py:186-226 | every scanned file is counted exactly once |
| Indexer.ScanKeys | tools/indexer.py:186-226 | the scan keeps every stored row, only adds rows for paths it saw, and leaves the rows of unseen paths unchanged |
| Indexer.DeletedUnseen | tools/indexer.py:228-238 | after clean-up the table holds exactly the seen paths that have rows, and `deleted` counts the stored paths the scan did not see |
| Indexer.ScanSettles | tools/indexer.py:202-222 | after a scan over distinct paths every readable scanned file's row is up to date |
| Indexer.ScanSettledUnchanged | tools/indexer.py:202-205 | a scan over up-to-date files changes no row and adds or updates nothing |
| Indexer.IndexTwice | tools/indexer.py:178-238 | indexing an unchanged tree a second time changes nothing: no additions, updates or deletions |
| Indexer.ScanLoop | tools/indexer.py:184-226 | the scan loop computes the table, the counters and `current_files` |
| Indexer.DeleteUnseen | tools/indexer.py:228-235 | the clean-up deletes exactly the stored paths not seen and counts each once |
| Indexer.FileIndex.constructor | tools/indexer.py:66-122 | a new index starts with an empty table |
| Indexer.FileIndex.IndexFiles | tools/indexer.py:178-238 | `index_files` leaves the table and the stats that the scan and the clean-up compute |
| Indexer.FileIndex.ListByExtension | tools/indexer.py:291-305 | lists exactly the stored paths whose extension equals the normalised one |
| Indexer.NormaliseExtension | tools/indexer.py:295-303 | the extension asked for gets a leading '.' and is lower-cased |
| Indexer.NormaliseExtensionIdempotent | tools/indexer.py:295-303 | "PY", "py" and ".py" ask for the same extension, and normalising twice changes nothing |
| Indexer.UnitIndex | tools/indexer.py:310-314 | the unit index lies between the starting unit and TB |
| Indexer.UnitBounds | tools/indexer.py:310-314 | the amount shown is below 1024 unless the unit is TB, and at least 1 in every unit above B |
| Indexer.FormatSize | tools/indexer.py:308-314 | `format_size` shows the size divided by 1024 per step up, in the first unit where it is below 1024 |
| JsonEscape.EscapeNewlinesInJson | scripts/update_architecture.py:843-868 | the scan loop computes the scan as written: a quote not preceded by a backslash toggles the flag, and a newline while the flag is set becomes `\n` |
| JsonEscape.AsWrittenLength | scripts/update_architecture.py:855-866 | each newline the scan takes to be inside a string adds one character, and a text with none comes back unchanged |
| JsonEscape.AsWrittenNoRawNewline | scripts/update_architecture.py:855-866 | rescanning the output finds no newline inside a string |
| JsonEscape.EscapedQuoteKeepsFlag | scripts/save_layout_to_html.py:49-52 | a quote right after a backslash is copied and leaves the flag as it was |
| JsonEscape.EscapeNewlines | scripts/save_layout_to_html.py:28-59 | with the JSON lexer's string rule, the output grows by one character per newline inside a string, is unchanged when there is none, has no raw newline inside a string, and leaves the lexer in the same state as the input |
| JsonEscape.EscapeLength | scripts/save_layout_to_html.py:46-57 | each newline inside a string adds one character, and a text with none comes back unchanged |
| JsonEscape.EscapeNoRawNewline | scripts/save_layout_to_html.py:46-57 | the output has no raw newline inside a string, and `\` then `n` moves the lexer exactly as the newline did |
| JsonEscape.EscapedBackslashClosesString | scripts/save_layout_to_html.py:50-51 | on `"\\"` followed by a newline, the lexer leaves the text unchanged while the scan as written turns the newline outside the string into `\n` |
| Mmr.ClassifyOutcomes | code/python/core/mmr.py:75-119 | the query is SPECIFIC (λ 0.8) exactly when it holds more specific cues than exploratory ones, EXPLORATORY (λ 0.5) exactly when it holds fewer, and BALANCED with λ unchanged on a tie |
| Mmr.NoCueIsBalanced | code/python/core/mmr.py:96-116 | a query with no cue of either kind is BALANCED and keeps λ |
| Mmr.Clamp01 | code/python/core/mmr.py:187 | `max(0, min(1, x))` lies in [0, 1] and leaves values already there unchanged |
| Mmr.Cosine | code/python/core/mmr.py:160-191 | the similarity lies in [0, 1]; a zero norm, or vectors of different lengths (the library raises), give 0.0 |
| Mmr.Candidates | code/python/core/mmr.py:213 | the candidates are the results with an embedding, never more than the results |
| Mmr.NonVector | code/python/core/mmr.py:312 | the padding pool is the results without an embedding |
| Mmr.Scores | code/python/core/mmr.py:226 | one ranking score per candidate |
| Mmr.MinOf | code/python/core/mmr.py:228 | `min(scores)` is a score below all of them |
| Mmr.Normalisation | code/python/core/mmr.py:226-229 | the range is positive (1.0 when all scores are equal) and every score lies between the minimum, which some candidate has, and minimum + range |
| Mmr.RelevanceInUnitRange | code/python/core/mmr.py:242-259 | normalised relevance lies in [0, 1] |
| Mmr.MaxSimPrefix | code/python/core/mmr.py:262-265 | the highest similarity to the selected documents, starting from 0.0, lies in [0, 1] |
| Mmr.BestUpTo | code/python/core/mmr.py:254-272 | the scan picks only an unselected candidate |
| Mmr.BestIsFirstArgmax | code/python/core/mmr.py:250-272 | the scan picks something exactly when some candidate is unselected; its pick has the highest MMR score among them and, the comparison being strict, is the earliest such candidate |
| Mmr.Greedy | code/python/core/mmr.py:232-281 | the rounds give as many scores as picks, between 1 and the number of rounds, the first pick being candidate 0 and every pick a valid candidate |
| Mmr.Range | code/python/core/mmr.py:249 | `range(n)` holds exactly 0 to n - 1 |
| Mmr.Unpicked | code/python/core/mmr.py:249-256 | with fewer picks than candidates, some candidate is still unpicked |
| Mmr.GreedySteps | code/python/core/mmr.py:237-277 | round 1 scores the first candidate by its normalised relevance and every later round records its scan's pick and score |
| Mmr.GreedyDistinct | code/python/core/mmr.py:233-276 | no candidate is picked twice |
| Mmr.GreedyLength | code/python/core/mmr.py:249-277 | while candidates last every round picks one, so t rounds give t picks |
| Mmr.LaterPicksMaximise | code/python/core/mmr.py:249-277 | every pick after the first has the highest MMR score among the candidates not yet picked, and no earlier such candidate ties with it |
| Mmr.PureRelevanceDescends | code/python/core/mmr.py:268 | with λ = 1 similarity is ignored, so the picks after the first come in descending relevance |
| Mmr.PickedDocs | code/python/core/mmr.py:238-275 | the selected results are the candidates at the picked positions, in order |
| Mmr.Rounds | code/python/core/mmr.py:237-249 | there is always at least one selection round |
| Mmr.PadShape | code/python/core/mmr.py:312-316 | padding keeps the picks and their scores as a prefix, adds the first `top_k - picks` results without an embedding, each with score 0.0 |
| Mmr.RerankShortcuts | code/python/core/mmr.py:208-221 | empty input gives two empty lists; with at most three embedded results the first `top_k` results come back unchanged with zero scores |
| Mmr.RerankPicksFirst | code/python/core/mmr.py:224-281 | when MMR runs, the picks come first with their round scores, the first being the first embedded result with its normalised relevance in [0, 1] |
| Mmr.RerankPadding | code/python/core/mmr.py:312-318 | when MMR runs, everything after the picks is a result without an embedding, in input order, with score 0.0 |
| Mmr.RerankLength | code/python/core/mmr.py:193-318 | for `top_k` of at least 1 both lists have the same length, at most `top_k` |
| Mmr.MmrReranker.constructor | code/python/core/mmr.py:39-53 | the query is kept; an empty query keeps λ and BALANCED, any other gets the λ and intent of the vote |
| Mmr.MmrReranker.DetectIntentAndAdjustLambda | code/python/core/mmr.py:57-119 | an empty query returns λ and leaves the intent; any other returns the vote's λ and records its intent |
| Mmr.MmrReranker.Rerank | code/python/core/mmr.py:193-318 | the re-ranking returns the results and scores the specification above describes |
| Mmr.SelectGreedy | code/python/core/mmr.py:232-281 | the selection loop computes the greedy rounds, as many as `max(1, min(top_k, n))` |
| Mmr.ScanBest | code/python/core/mmr.py:250-272 | one scan returns the scan's pick and its MMR score |
| Mmr.MaxSimilarity | code/python/core/mmr.py:262-265 | the inner loop returns the highest similarity to the selected documents, within [0, 1] |
| ProviderCache.Parse | code/python/retrieval_providers/wikidata_client.py:114-128 | a timeout stays a timeout; a fetched reply is parsed |
| ProviderCache.AsList | code/python/retrieval_providers/wikidata_client.py:121-122 | `[result]` exactly when there is a result, else `[]` |
| ProviderCache.OldestExists | code/python/retrieval_providers/wikidata_client.py:338-340 | a non-empty cache has an entry with the oldest timestamp, so `min` finds one to evict |
| ProviderCache.Probed | code/python/retrieval_providers/wikidata_client.py:103-110 | after a miss, the key's expired entry is gone (when caching is on) and no other entry changes |
| ProviderCache.StoredBounded | code/python/retrieval_providers/wikidata_client.py:329-343 | storing keeps the cache within its size bound, maps the key to the value and the current time, and keeps every other surviving entry |
| ProviderCache.TimeoutFindsNothing | code/python/retrieval_providers/wikidata_client.py:103-135 | with caching on, a miss followed by a timeout finds no stale entry: the check has already deleted the expired one |
| ProviderCache.StoreThenHit | code/python/retrieval_providers/wikidata_client.py:103-125 | a value stored at time t is served from the cache by every search before t + TTL, whatever the fetch would give |
| ProviderCache.TtlCache.constructor | code/python/retrieval_providers/wikidata_client.py:55-59 | the cache has the configured flag, TTL and size bound, and starts empty |
| ProviderCache.TtlCache.Probe | code/python/retrieval_providers/wikidata_client.py:102-110 | a hit exactly for an enabled cache holding the key within its TTL, returning the cached value and changing nothing; otherwise an expired entry is deleted |
| ProviderCache.TtlCache.Update | code/python/retrieval_providers/wikidata_client.py:329-343 | when full, the oldest entry is evicted before `(value, now)` is stored; it fails exactly where `min` of an empty cache raises, and then changes nothing |
| ProviderCache.TtlCache.Search | code/python/retrieval_providers/wikidata_client.py:100-141 | the answer and the new cache are those of the protocol: a hit answers from the cache; a truthy fetched result answers and is stored; a timeout falls back to the entry still cached; a failing store answers nothing |
| ProviderCache.TtlCache.Clear | code/python/retrieval_providers/wikidata_client.py:346-356 | returns the number of entries held and empties the cache |
| ProviderCache.TtlCache.Stats | code/python/retrieval_providers/wikidata_client.py:358-370 | reports the entry count, within the size bound, and the TTL in hours |
| PocLengthAnalysis.TotalLenIsLength | code/python/indexing/poc_length_analysis.py:102-103 | the summed sentence lengths are the length of the joined text, so `char_count` is the length of `text` |
| PocLengthAnalysis.GreedyCovers | code/python/indexing/poc_length_analysis.py:93-111 | the closed groups and the group under way hold every sentence once, in order |
| PocLengthAnalysis.GreedyFits | code/python/indexing/poc_length_analysis.py:96-111 | every group the packing loop forms stays within the target unless it holds a single sentence |
| PocLengthAnalysis.Finish | code/python/indexing/poc_length_analysis.py:113-128 | a short remainder is merged into the last chunk when there is one, otherwise it becomes a chunk of its own; no earlier chunk changes and no sentence is lost |
| PocLengthAnalysis.GroupsPartition | code/python/indexing/poc_length_analysis.py:79-130 | the groups hold every sentence once, in order; none is empty; no sentences give no groups |
| PocLengthAnalysis.GroupsFit | code/python/indexing/poc_length_analysis.py:96-121 | every chunk but the last stays within the target unless it holds a single sentence, and so does the last one unless a short remainder was merged into it |
| PocLengthAnalysis.LengthChunksShape | code/python/indexing/poc_length_analysis.py:62-130 | the chunks' texts join to the joined sentences; each chunk holds a sentence, its text is its sentences joined and its `char_count` is that text's length |
| PocLengthAnalysis.PackMerge | code/python/indexing/poc_length_analysis.py:116-121 | merging the remainder extends the last chunk's sentences, embeddings, text and count together |
| PocLengthAnalysis.PairsCount | code/python/indexing/poc_length_analysis.py:138-143 | row i is compared with every later row, so the first n rows give n(2m - n - 1)/2 pairs |
| PocLengthAnalysis.PairsTotal | code/python/indexing/poc_length_analysis.py:137-143 | two rows or more give m(m - 1)/2 pairs, at least one |
| PocLengthAnalysis.Mean | code/python/indexing/poc_length_analysis.py:146 | the mean times the count is the sum |
| PocLengthAnalysis.Least | code/python/indexing/poc_length_analysis.py:147 | the least value is one of the values and no greater than any |
| PocLengthAnalysis.Greatest | code/python/indexing/poc_length_analysis.py:148 | the greatest value is one of the values and no less than any |
| PocLengthAnalysis.InternalCount | code/python/indexing/poc_length_analysis.py:132-150 | fewer than two rows give no statistics; otherwise every pair of rows is compared once |
| PocLengthAnalysis.InternalStats | code/python/indexing/poc_length_analysis.py:145-150 | the average is the mean of the pairwise similarities, and the least and greatest bound them all |
| PocLengthAnalysis.Cohesions | code/python/indexing/poc_length_analysis.py:192-196 | at most one cohesion per chunk |
| PocLengthAnalysis.CharCounts | code/python/indexing/poc_length_analysis.py:192-193 | one length per chunk |
| PocLengthAnalysis.Chunker.ChunkByLength | code/python/indexing/poc_length_analysis.py:62-130 | `chunk_by_length` returns the packed groups of the text's sentences, the short remainder merged |
| PocLengthAnalysis.Chunker.PackByLength | code/python/indexing/poc_length_analysis.py:88-111 | the packing loop keeps the closed chunks and the group under way in step with the greedy grouping |
| PocLengthAnalysis.Chunker.CloseRemainder | code/python/indexing/poc_length_analysis.py:113-128 | the end of `chunk_by_length` packs the finished grouping |
| PocLengthAnalysis.Chunker.InternalSimilarity | code/python/indexing/poc_length_analysis.py:132-150 | the nested loops compute the pairwise statistics |
| PocLengthAnalysis.Chunker.AppendRow | code/python/indexing/poc_length_analysis.py:139-143 | the inner loop appends row i's similarities with every later row |
| PocLengthAnalysis.Chunker.BetweenChunkSimilarity | code/python/indexing/poc_length_analysis.py:156-168 | fewer than two chunks give none; otherwise one similarity per neighbouring pair of chunk centroids |
| PocLengthAnalysis.BodyOf | code/python/indexing/poc_length_analysis.py:184-186 | a falsy body is skipped; a string body is used exactly when it has at least 100 characters; a truthy non-string body raises |
| PocLengthAnalysis.LongBody | code/python/indexing/poc_source_analysis.py:58-59 | a body counts exactly when it is truthy, has a length and that length is at least 100 |
| PocLengthAnalysis.MeanOrZero | code/python/indexing/poc_length_analysis.py:207-210 | 0 for no values; otherwise the mean times the count is the sum |
| PocLengthAnalysis.PerArticle | code/python/indexing/poc_length_analysis.py:206 | 0 for no articles; otherwise the average times the article count is the chunk total |
| PocLengthAnalysis.SkippedArticle | code/python/indexing/poc_length_analysis.py:184-186 | a skipped article leaves the tally as it was |
| PocLengthAnalysis.TallyCounts | code/python/indexing/poc_length_analysis.py:183-200 | the tally keeps one length per chunk and at most one cohesion and one boundary similarity per chunk |
| PocLengthAnalysis.PerArticleAverage | code/python/indexing/poc_length_analysis.py:202-206 | the average divides the chunk count by every article, skipped ones included, and is 0 with no articles |
| PocLengthAnalysis.AllSkipped | code/python/indexing/poc_length_analysis.py:183-213 | when every article is skipped nothing is chunked, every statistic is 0, yet every article is counted |
| PocLengthAnalysis.ErrorSticks | code/python/indexing/poc_length_analysis.py:183-200 | once an article raises, the analysis fails with that error whatever follows |
| PocLengthAnalysis.AnalyzeLength | code/python/indexing/poc_length_analysis.py:171-213 | `analyze_length` returns the summary of the articles' tally |
| PocLengthAnalysis.AddArticle | code/python/indexing/poc_length_analysis.py:188-200 | one usable article adds its chunks to the tally |
| PocLengthAnalysis.GatherChunks | code/python/indexing/poc_length_analysis.py:192-196 | the loop over one article's chunks collects their lengths and the cohesion of each chunk that has one |
| PostRanking.StrOf | code/python/core/post_ranking.py:73 | `str` of a string is the string itself |
| PostRanking.CutAtDict | code/python/core/post_ranking.py:60-62 | the cut keeps a prefix of the address that holds no `", {"`, and changes the address exactly when it holds one |
| PostRanking.StructuredParts | code/python/core/post_ranking.py:67-73 | the present, non-dict values of the four street fields, as strings, never more than the fields |
| PostRanking.CountryPart | code/python/core/post_ranking.py:75-81 | the country adds at most one part: a dict's `name` or a string not starting with `{` |
| PostRanking.Strings | code/python/core/post_ranking.py:84 | `join` succeeds exactly when every part is a string, and then joins exactly those strings |
| PostRanking.Structured | code/python/core/post_ranking.py:65-87 | a structured address becomes a string or nothing; it fails only on a country dict whose name is not a string |
| PostRanking.AddressOf | code/python/core/post_ranking.py:44-88 | a result without a schema dict has no address |
| PostRanking.Locations | code/python/core/post_ranking.py:40-93 | at most one location per result |
| PostRanking.LocationsFromSchemas | code/python/core/post_ranking.py:44-52 | only results with a schema object give a location |
| PostRanking.MapMessage | code/python/core/post_ranking.py:31-123 | a map message is sent exactly when collecting succeeds and at least half of a non-empty result list has an address, and it carries exactly those locations |
| PostRanking.MapSent | code/python/core/post_ranking.py:101-116 | one check sends at most one message, and one exactly when there is a map message |
| PostRanking.CollectLocations | code/python/core/post_ranking.py:43-93 | the collecting loop computes the locations or the first error |
| PostRanking.LocationsStop | code/python/core/post_ranking.py:33-123 | an error part-way through the results is the final error, caught as a whole |
| PostRanking.Handler.constructor | code/python/core/post_ranking.py:12-13 | the handler state the step reads: the connection flag, `query_done` and the ranked answers |
| PostRanking.PostRankingStep.CheckAndSendMapMessage | code/python/core/post_ranking.py:31-123 | adds the map message, if any, to what the handler has sent, and changes nothing else |
| PostRanking.PostRankingStep.Do | code/python/core/post_ranking.py:15-21 | a dead connection only marks the query done; a live one sends the map message, if any |
| PostRanking.Attach | code/python/core/post_ranking.py:165-168 | every answer whose url has a vector gets it; the others are unchanged |
| PostRanking.Strip | code/python/core/post_ranking.py:202-203 | afterwards no answer keeps a vector, and nothing else changes |
| PostRanking.ApplyMmrReranking | code/python/core/post_ranking.py:134-203 | the answers stay as they are when MMR is disabled, when there are no more than the threshold, or when no vector is known; otherwise all of them are re-ranked with their vectors, and none keeps a vector afterwards |
| PocSourceAnalysis.ExtractSource | code/python/indexing/poc_source_analysis.py:20-33 | the source is 其他 exactly when the URL contains none of udn.com, ltn.com, cna.com, ettoday, chinatimes; otherwise it is the label of the first of them, in that order, that the URL contains |
| PocSourceAnalysis.FirstMatch | code/python/indexing/poc_source_analysis.py:22-33 | the if/elif chain as a table walk: the fallback when no fragment occurs, else the label of the first fragment that does |
| PocSourceAnalysis.Tagged | code/python/indexing/poc_source_analysis.py:56-66 | a line yields an article exactly when it parses, its JSON is an object and its body is truthy with length at least 100; the article records the URL, `extract_source` of it and the body length |
| PocSourceAnalysis.Take | code/python/indexing/poc_source_analysis.py:53-55 | stopping at `max_per_file` keeps a prefix: nothing for a count that is not positive, else min(count, available) items |
| PocSourceAnalysis.LoadFile | code/python/indexing/poc_source_analysis.py:46-66 | the reading loop with its `count >= max_per_file` break keeps exactly the first `max_per_file` usable articles of the file's data rows |
| PocSourceAnalysis.LoadArticlesFromMultipleTsv | code/python/indexing/poc_source_analysis.py:36-70 | the result is the concatenation, in file order, of each existing file's kept articles; missing files contribute nothing |
| PocSourceAnalysis.LoadedTagged | code/python/indexing/poc_source_analysis.py:41-66 | every loaded article has a body of length at least 100 equal to its recorded length, carries the source its URL names, and each file adds at most `max_per_file` articles |
| PocSourceAnalysis.OfSourceMembers | code/python/indexing/poc_source_analysis.py:77-79 | an article is in a source's group exactly when it is loaded and has that source; a group is empty exactly when no article names the source |
| PocSourceAnalysis.Order | code/python/indexing/poc_source_analysis.py:77-79 | the sources in order of first appearance hold each source that occurs, once |
| PocSourceAnalysis.GroupBySource | code/python/indexing/poc_source_analysis.py:76-79 | the defaultdict loop builds exactly the grouping: one key per source that occurs, holding that source's articles in input order |
| PocSourceAnalysis.BandsPartition | code/python/indexing/poc_source_analysis.py:81-86 | the buckets <500, [500,1000) and >=1000 hold every article exactly once: their sizes add up to the number of articles and an article is in a bucket iff its length fits it |
| PocSourceAnalysis.BodyText | code/python/indexing/poc_source_analysis.py:105-106 | the body handed to `chunk_by_length` fails (AttributeError in `strip`) exactly when it is truthy and not a string; a falsy non-string body gives no text |
| PocSourceAnalysis.ArticleFigures | code/python/indexing/poc_source_analysis.py:105-110 | one article's chunk count and neighbour similarities fail exactly when its body does |
| PocSourceAnalysis.GroupFails | code/python/indexing/poc_source_analysis.py:104-110 | a group fails exactly when one of its articles does, and then with the first failing article's error |
| PocSourceAnalysis.GroupErrorSticks | code/python/indexing/poc_source_analysis.py:104-110 | once an article fails, the rest of the group does not change the outcome |
| PocSourceAnalysis.GroupFailsOnBody | code/python/indexing/poc_source_analysis.py:104-110 | with the chunker's own figures, a group fails exactly when it holds a truthy non-string body |
| PocSourceAnalysis.MeasureArticle | code/python/indexing/poc_source_analysis.py:105-110 | chunking one body by length and computing its between-chunk similarities gives that article's figures |
| PocSourceAnalysis.GatherGroup | code/python/indexing/poc_source_analysis.py:101-110 | the per-article loop accumulates exactly the group's total chunk count and concatenated similarities, or the first error |
| PocSourceAnalysis.GatherArticle | code/python/indexing/poc_source_analysis.py:104-110 | one pass of the loop extends the running figures by the next article's figures |
| PocSourceAnalysis.AnalyzeGroup | code/python/indexing/poc_source_analysis.py:101-122 | a group's entry is its size, total chunks divided by its size, the mean of its similarities (0 when there are none) and, for source groups only, the similarities themselves |
| PocSourceAnalysis.OverSourcesEntries | code/python/indexing/poc_source_analysis.py:97-122 | visiting the sources fails exactly when a group of at least 3 articles fails; otherwise there is one entry per such group and it is that group's summary |
| PocSourceAnalysis.AnalyzeSources | code/python/indexing/poc_source_analysis.py:97-124 | the source loop, skipping groups under 3 articles, computes exactly the source entries |
| PocSourceAnalysis.LabelsDistinct | code/python/indexing/poc_source_analysis.py:83-85 | the three length labels are pairwise different |
| PocSourceAnalysis.OverBandsFails | code/python/indexing/poc_source_analysis.py:132-159 | writing the length entries fails exactly when a length group of at least 3 articles fails |
| PocSourceAnalysis.OverBandsKeys | code/python/indexing/poc_source_analysis.py:132-159 | the entries after the length loop are the earlier ones plus the label of each length group of at least 3 articles |
| PocSourceAnalysis.OverBandsValues | code/python/indexing/poc_source_analysis.py:148-157 | each length group of at least 3 articles has its summary under its label |
| PocSourceAnalysis.OverBandsKept | code/python/indexing/poc_source_analysis.py:132-159 | an earlier entry whose key is no written label keeps its value |
| PocSourceAnalysis.AnalyzeBands | code/python/indexing/poc_source_analysis.py:132-159 | the length loop, skipping groups under 3 articles, computes exactly the length entries written over the source entries |
| PocSourceAnalysis.EveryBand | code/python/indexing/poc_source_analysis.py:82-86 | the loop visits every length group |
| PocSourceAnalysis.AnalyzeBySource | code/python/indexing/poc_source_analysis.py:73-161 | the analysis computes the source entries and then the length entries over them |
| PocSourceAnalysis.AnalysisEntries | code/python/indexing/poc_source_analysis.py:97-161 | the analysis fails iff a source or length group of at least 3 articles fails; otherwise its keys are exactly the sources with at least 3 articles and the labels of length groups with at least 3, a length entry is that group's summary, and a source entry is its group's summary unless a length label took its name |
| PocSourceAnalysis.SourceEntries | code/python/indexing/poc_source_analysis.py:97-124 | the source entries stated by each source's articles: keys are exactly the sources with at least 3 articles |
| PrepareTestData.Scanned | code/python/indexing/prepare_test_data.py:21-24 | the lines read are a prefix of the data rows after an optional `url\t` header, and exactly min(max_lines, rows) of them for a non-negative `max_lines` |
| PrepareTestData.CandidateOf | code/python/indexing/prepare_test_data.py:25-34 | a line yields (url, data, length) exactly when it splits at a tab into a URL and a JSON object whose `articleBody` is truthy with length at least 100; the length recorded is that body's |
| PrepareTestData.CandidatesUsable | code/python/indexing/prepare_test_data.py:30-32 | every candidate read has a body of at least 100 characters whose length it records |
| PrepareTestData.ParseTsvFile | code/python/indexing/prepare_test_data.py:14-36 | the result is exactly the candidates among the lines read, in file order; there are no more of them than lines read, and each is usable |
| PrepareTestData.ReadRows | code/python/indexing/prepare_test_data.py:24-34 | the reading loop keeps exactly the lines that parse, in order |
| PrepareTestData.Bucket | code/python/indexing/prepare_test_data.py:52-54 | a bucket holds no more articles than there are |
| PrepareTestData.BandsPartition | code/python/indexing/prepare_test_data.py:52-54 | the buckets <500, [500,1500] and >1500 hold every article exactly once: their sizes add up to the number of articles and each article is in the bucket its length fits |
| PrepareTestData.Sample | code/python/indexing/prepare_test_data.py:63-64 | a sample holds as many articles as positions drawn |
| PrepareTestData.ContributionShape | code/python/indexing/prepare_test_data.py:63-79 | a bucket contributes min(requested, available) of its own articles, and the whole bucket when it has fewer than requested |
| PrepareTestData.SelectArticlesByLength | code/python/indexing/prepare_test_data.py:39-81 | fails (ValueError from `random.sample`) exactly when a count is negative; otherwise the selection is the short, then medium, then long contributions, of length the sum of min(requested, available), each segment drawn from its own bucket |
| PrepareTestData.InOrder | code/python/indexing/prepare_test_data.py:63-79 | extending short, then medium, then long keeps each segment's articles in its own place |
| ResultsStore.Live | code/python/core/results_cache.py:71-80 | the sweep keeps exactly the entries that have not expired, unchanged |
| ResultsStore.RetrieveSpec | code/python/core/results_cache.py:44-69 | results come back exactly when the entry exists and has not expired, and then the cache is unchanged; otherwise `None`, and an expired entry is dropped |
| ResultsStore.StoreThenRetrieve | code/python/core/results_cache.py:26-69 | results stored at one time come back unchanged from a retrieve at most `ttl_seconds` later |
| ResultsStore.ExpiredIsForgotten | code/python/core/results_cache.py:62-66 | more than `ttl_seconds` later the entry is gone, and retrieving it removes it |
| ResultsStore.StoreKeepsOthers | code/python/core/results_cache.py:35-42 | storing keeps every other live conversation as it was and drops the expired ones |
| ResultsStore.CleanupIdempotent | code/python/core/results_cache.py:71-80 | sweeping twice at the same time removes nothing more |
| ResultsStore.TotalResultsRemove | code/python/core/results_cache.py:87 | the results total does not depend on the order the entries are counted in |
| ResultsStore.ResultsCache.constructor | code/python/core/results_cache.py:20-24 | a new cache is empty, with the given time to live |
| ResultsStore.ResultsCache.Default | code/python/core/results_cache.py:20-24 | `ResultsCache()` with the default argument is empty, with a time to live of 300 seconds |
| ResultsStore.ResultsCache.Store | code/python/core/results_cache.py:26-42 | the entry is written and the expired ones swept; with a non-negative time to live the new entry survives the sweep |
| ResultsStore.ResultsCache.Retrieve | code/python/core/results_cache.py:44-69 | the answer and the new cache are those of `retrieve` |
| ResultsStore.ResultsCache.CleanupExpired | code/python/core/results_cache.py:71-80 | the collect-then-delete loop leaves exactly the live entries |
| ResultsStore.ResultsCache.GetStats | code/python/core/results_cache.py:82-88 | the entry count and the total number of cached results |
| RefactoringPatterns.Walk | code/python/core/refactoring_patterns.py:44-54 | a path that leads somewhere ends at a non-`None` value |
| RefactoringPatterns.SafeGet | code/python/core/refactoring_patterns.py:21-54 | the result is `None` only when the default is; with no keys it is the data, or the default for `None` |
| RefactoringPatterns.SafeGetDictStep | code/python/core/refactoring_patterns.py:48-49 | a dict step moves to the key's value; a missing key ends in the default |
| RefactoringPatterns.SafeGetAttrStep | code/python/core/refactoring_patterns.py:44-54 | from `None` the result is the default; a step from anything but a dict goes through `getattr`: a missing attribute, or one that is `None`, ends in the default, and otherwise the walk goes on from the attribute |
| RefactoringPatterns.SafeGetLoop | code/python/core/refactoring_patterns.py:44-54 | the loop computes `safe_get` |
| RefactoringPatterns.Select | code/python/core/refactoring_patterns.py:90 | the comprehension keeps exactly the items satisfying the predicate, never more than the list |
| RefactoringPatterns.FilterItems | code/python/core/refactoring_patterns.py:88-91 | no predicates keep every item |
| RefactoringPatterns.SelectSelect | code/python/core/refactoring_patterns.py:89-90 | filtering twice is filtering once by both predicates |
| RefactoringPatterns.FilterItemsSelectsAll | code/python/core/refactoring_patterns.py:57-91 | the predicate-by-predicate passes keep exactly the items satisfying all predicates, in input order |
| RefactoringPatterns.FilterItemsLoop | code/python/core/refactoring_patterns.py:88-91 | the loop computes `filter_items` |
| RefactoringPatterns.ProcessIfValid | code/python/core/refactoring_patterns.py:94-126 | valid non-`None` data is processed; `None` or refused data gives the default |
| RefactoringPatterns.ProcessIfTruthy | code/python/core/refactoring_patterns.py:103-109 | corrected: the guard the docstring says the helper replaces processes exactly the truthy data the validator accepts, and gives the default otherwise |
| RefactoringPatterns.ProcessIfValidVersusGuard | code/python/core/refactoring_patterns.py:103-126 | the helper and the guard agree on `None` and on truthy data; on falsy data other than `None` that the validator accepts, the helper processes it and the guard gives the default |
| RefactoringPatterns.ZeroIsProcessed | code/python/core/refactoring_patterns.py:122-126 | as written, the number 0 with an accepting validator is processed, where the guard gives the default |
| RefactoringPatterns.FirstMatch | code/python/core/refactoring_patterns.py:129-160 | no match gives the default; otherwise the first matching item |
| RefactoringPatterns.SwitchOn | code/python/core/refactoring_patterns.py:205-239 | a listed value gives its case, any other the default |
| RefactoringPatterns.Collected | code/python/core/refactoring_patterns.py:193-198 | at most one result per item |
| RefactoringPatterns.Failed | code/python/core/refactoring_patterns.py:199-201 | exactly the items whose processing raised |
| RefactoringPatterns.BatchPartition | code/python/core/refactoring_patterns.py:194-201 | every item gives exactly one of: a kept result, a skipped `None`, a handled error |
| RefactoringPatterns.BatchProcess | code/python/core/refactoring_patterns.py:163-202 | the non-`None` results in order, and the failed items handed to the handler when there is one |
| RefactoringPatterns.FirstFalse | code/python/core/refactoring_patterns.py:268-271 | the index of the first false outcome: every earlier outcome holds |
| RefactoringPatterns.ChainConditions | code/python/core/refactoring_patterns.py:242-272 | with short-circuiting, true exactly when every condition holds, calling them up to the first false one; without it every condition is called and the result is true |
| RefactoringPatterns.ValidateAndExtract | code/python/core/refactoring_patterns.py:275-320 | `None` exactly for a non-dict or a missing required key; otherwise the required keys and the present optional keys, each with the data's value |
| PocRunner.Window | code/python/indexing/poc_runner.py:89-91 | the `max_articles` break keeps a prefix of the data rows: all of them when the limit is missing or 0, else at most max(limit, 0) rows |
| PocRunner.ArticleOf | code/python/indexing/poc_runner.py:93-101 | a line yields an article exactly when it parses and its JSON is an object; headline and body default to '' when the key is missing |
| PocRunner.LoadArticles | code/python/indexing/poc_runner.py:78-103 | the loading loop keeps, in order, the parsable lines among the first `max_articles` data rows after the header |
| PocRunner.LoadRows | code/python/indexing/poc_runner.py:89-101 | the row loop keeps exactly the rows of the window that parse, in order, and never more rows than the window |
| PocRunner.Prepare | code/python/indexing/poc_runner.py:109-114 | `headline[:30]` and `len(articleBody)` raise TypeError exactly when the headline cannot be sliced or the body has no length; otherwise the original length is the body's length and a non-string body yields no sentences |
| PocRunner.ChunkCountMonotone | code/python/indexing/poc_runner.py:118-124 | a higher threshold never yields fewer chunks; no chunks exactly when the text has no sentences; never more chunks than sentences |
| PocRunner.Preview | code/python/indexing/poc_runner.py:136 | the preview is the whole text up to 200 characters, otherwise its first 200 characters followed by '...' |
| PocRunner.Summaries | code/python/indexing/poc_runner.py:131-139 | one summary per chunk |
| PocRunner.SummariesTotal | code/python/indexing/poc_runner.py:131-139 | the summaries' sentence counts add up to the sentences the chunks hold |
| PocRunner.SimStats | code/python/indexing/poc_runner.py:140-144 | min, max and average are all None for no scores; otherwise min and max are scores bounding every score and the average is their mean |
| PocRunner.SummarizeCounts | code/python/indexing/poc_runner.py:127-130 | the stored sentence count is the body's sentence count, the chunk count is the count the threshold gives, the chunk summaries are numbered 0, 1, … each with at least one sentence, and their sentences add up to all of the body's |
| PocRunner.SummarizeMeasures | code/python/indexing/poc_runner.py:127-139 | the stored average chunk size is the joined sentences' length per chunk and the similarity statistics are those of the adjacent-sentence similarities |
| PocRunner.RunThreshold | code/python/indexing/poc_runner.py:118-145 | one threshold's entry is correct for the body: counts, chunk summaries, average size and similarity statistics as the two lemmas above state |
| PocRunner.OutcomePut | code/python/indexing/poc_runner.py:127 | storing a correct entry under a threshold keeps every entry of the per-threshold map correct |
| PocRunner.ProcessArticle | code/python/indexing/poc_runner.py:108-150 | an article fails exactly when its headline or body has the wrong type; otherwise it records URL, headline, body length and a correct entry for every threshold tried |
| PocRunner.ProcessAll | code/python/indexing/poc_runner.py:108-150 | the run fails with the error of the first article that fails; otherwise there is one result per article, each correct for every threshold |
| PocRunner.ProcessedCovers | code/python/indexing/poc_runner.py:155-160 | after processing, every tried threshold has an entry in every article's results, so the statistics' lookups cannot fail |
| PocRunner.ChunkCounts | code/python/indexing/poc_runner.py:157-160 | one chunk count per article |
| PocRunner.Fewest | code/python/indexing/poc_runner.py:182 | `min(chunk_counts)` is one of the counts and no count is smaller |
| PocRunner.Most | code/python/indexing/poc_runner.py:183 | `max(chunk_counts)` is one of the counts and no count is larger |
| PocRunner.SentenceCounts | code/python/indexing/poc_runner.py:172-175 | one sentence count per chunk |
| PocRunner.StatsRange | code/python/indexing/poc_runner.py:177-186 | the statistics of a threshold count every article; its min and max chunks are counts of some article and bound every article's count; with no articles every figure is 0 |
| PocRunner.PositiveSizesPositive | code/python/indexing/poc_runner.py:161-165 | the sizes averaged are all positive and there is at most one per article |
| PocRunner.PositiveSizesComplete | code/python/indexing/poc_runner.py:161-165 | every article with a positive average chunk size contributes it |
| PocRunner.AllChunksCount | code/python/indexing/poc_runner.py:168-181 | the chunks gathered across articles number the total chunk count when each article stores all its chunks |
| PocRunner.TotalMonotone | code/python/indexing/poc_runner.py:180 | a pointwise smaller list of counts has a smaller sum |
| PocRunner.TotalChunksMonotone | code/python/indexing/poc_runner.py:155-181 | over the same articles, a higher threshold yields at least as many chunks in total |
| PocRunner.Distinct | code/python/indexing/poc_runner.py:153-186 | the thresholds keyed in the statistics: the same thresholds, each once |
| PocRunner.StatsByThreshold | code/python/indexing/poc_runner.py:153-186 | one statistics record per distinct threshold, each the statistics of the results at that threshold |
| PocRunner.RunPoc | code/python/indexing/poc_runner.py:55-195 | with the default thresholds 0.75, 0.80, 0.85, 0.90 when none are given: the run fails with the first failing article's error, otherwise it records every loaded article correctly and the statistics of every distinct threshold |
| PocRunner.Distance | code/python/indexing/poc_runner.py:233 | the distance to the target 5.5 is non-negative and is the difference in one direction or the other |
| PocRunner.SuggestedThreshold | code/python/indexing/poc_runner.py:227-239 | the suggestion is the threshold of the first record closest to 5.5 chunks per article, and none when there are no records or that threshold is 0 |
| Schemas.StrOf | code/python/reasoning/schemas.py:17 | a string field accepts exactly a string |
| Schemas.Whole | code/python/reasoning/schemas.py:18 | a number reads as an integer exactly when it has no fractional part, and then as the integer it equals |
| Schemas.IntOf | code/python/reasoning/schemas.py:18 | an integer field accepts a number exactly when it has no fractional part, as that integer, and, as the validation library's lax mode does, a string exactly when `int()` reads it; nothing else |
| Schemas.NumericStringCoerced | code/python/reasoning/schemas.py:18 | a string of digits validates to the number it writes, as that number itself does |
| Schemas.StrsOf | code/python/reasoning/schemas.py:22-25 | a list-of-strings field accepts a list, one string per item |
| Schemas.StrItems | code/python/reasoning/schemas.py:22-25 | the accepted strings are exactly the items |
| Schemas.IntsOf | code/python/reasoning/schemas.py:18-21 | a list-of-integers field accepts a list, one integer per item |
| Schemas.IntItems | code/python/reasoning/schemas.py:18-21 | an accepted list of integers has one entry per item |
| Schemas.IntItemsReads | code/python/reasoning/schemas.py:18-21 | an accepted list holds, in order, the integer each item reads as |
| Schemas.IntItemsRefuses | code/python/reasoning/schemas.py:18-21 | a list of integers is refused exactly when one of its items does not read as an integer |
| Schemas.StrList | code/python/reasoning/schemas.py:22-25 | a list of strings dumps to a JSON list of the same length |
| Schemas.IntList | code/python/reasoning/schemas.py:18-21 | a list of integers dumps to a JSON list of the same length |
| Schemas.StrItemsRoundTrip | code/python/reasoning/schemas.py:22-25 | a dumped list of strings validates back to itself |
| Schemas.IntItemsRoundTrip | code/python/reasoning/schemas.py:18-21 | a dumped list of integers validates back to itself |
| Schemas.Required | code/python/reasoning/schemas.py:16-17 | a missing required field fails |
| Schemas.Listed | code/python/reasoning/schemas.py:18-29 | a missing list field with `default_factory=list` is empty |
| Schemas.Check | code/python/reasoning/schemas.py:40-41 | a check reports its field exactly when it fails |
| Schemas.AnalystStatusOf | code/python/reasoning/schemas.py:15 | the status accepts exactly `DRAFT_READY` and `SEARCH_REQUIRED` |
| Schemas.ParseAnalyst | code/python/reasoning/schemas.py:12-50 | a validated analyst output is valid (draft of 100 characters or more when ready, positive citations); a failure names at least one field, and a ready status with a short draft fails on `draft` |
| Schemas.AnalystRoundTrip | code/python/reasoning/schemas.py:12-50 | a valid analyst output validates back to itself from its JSON object |
| Schemas.CriticStatusOf | code/python/reasoning/schemas.py:56 | the status accepts exactly `PASS`, `WARN` and `REJECT` |
| Schemas.ComplianceOf | code/python/reasoning/schemas.py:62-64 | the compliance accepts exactly `符合` and `違反` |
| Schemas.ParseCritic | code/python/reasoning/schemas.py:53-72 | a validated critic output is valid (critique of 50 characters or more); a failure names at least one field |
| Schemas.CriticRoundTrip | code/python/reasoning/schemas.py:53-72 | a valid critic output validates back to itself from its JSON object |
| Schemas.ConfidenceOf | code/python/reasoning/schemas.py:86-88 | the confidence accepts exactly `High`, `Medium` and `Low` |
| Schemas.ParseWriter | code/python/reasoning/schemas.py:75-99 | a validated writer output is valid (report of 200 characters or more, positive sources); a failure names at least one field, and a missing `sources_used` fails on it |
| Schemas.WriterRoundTrip | code/python/reasoning/schemas.py:75-99 | a valid writer output validates back to itself from its JSON object |
| TrainingExport.ScoresOf | code/python/training/export_training_data.py:122-124 | a query's scores come from its own rows, in row order |
| TrainingExport.ScoresKeys | code/python/training/export_training_data.py:122-126 | the map's keys are exactly the query ids of the rows |
| TrainingExport.ScoresLists | code/python/training/export_training_data.py:122-126 | each query's list holds exactly its rows' LLM scores, in row order |
| TrainingExport.ScoresCoverRows | code/python/training/export_training_data.py:274 | every row's query has a list, so the lookup in `export_to_csv` cannot fail |
| TrainingExport.ScoresTotal | code/python/training/export_training_data.py:122-126 | the lists' lengths add up to the row count |
| TrainingExport.ComputeScoresPerQuery | code/python/training/export_training_data.py:115-126 | the grouping loop builds that map |
| TrainingExport.RowFeatures | code/python/training/export_training_data.py:128-219 | 29 features, with the LLM score in its slot, NULL scores read as 0.0, and the intent always encoded as BALANCED (2) |
| TrainingExport.HeaderLayout | code/python/training/export_training_data.py:241-258 | the header has 30 distinct names: each feature's name at its index, then `label` |
| TrainingExport.RunsInvariant | code/python/training/export_training_data.py:264-271 | during the loop, the closed groups plus the open one count every row seen, each group at least 1, one group per run of equal ids |
| TrainingExport.QueryGroupsRunLength | code/python/training/export_training_data.py:264-285 | `query_groups` is the run-length encoding of the query ids: one group per run, each at least 1, adding up to the row count |
| TrainingExport.QueryIds | code/python/training/export_training_data.py:266 | one query id per row, in order |
| TrainingExport.MetadataOf | code/python/training/export_training_data.py:288-298 | the metadata counts every row as a sample and every group as a query, and lists the 29 feature names without `label` |
| TrainingExport.MetadataConsistent | code/python/training/export_training_data.py:284-298 | the exported groups add up to the sample count, each is at least 1, and `label` is not a feature name |
| TrainingExport.CsvRow | code/python/training/export_training_data.py:275-281 | a data row is 30 values wide and ends with the LLM final score as the label |
| TrainingExport.Lines | code/python/training/export_training_data.py:264-281 | one CSV data row per log row |
| TrainingExport.LinesAt | code/python/training/export_training_data.py:264-281 | CSV row i is the line of log row i |
| TrainingExport.WriteRows | code/python/training/export_training_data.py:264-285 | the writing loop writes each row's line in order and computes the run-length query groups |
| TrainingExport.ExportToCsv | code/python/training/export_training_data.py:221-300 | returns the row count, one data row per log row (its features and label) and the metadata of the export |
| Text.Lower | code/python/methods/deep_research.py:108 | `lower()` keeps the length and lowers each character |
| Text.UpperChar | code/python/retrieval_providers/yfinance_client.py:96 | an upper-cased character is no lower-case ASCII letter, and is whitespace exactly when the character was |
| Text.Upper | code/python/retrieval_providers/yfinance_client.py:96 | `upper()` keeps the length and raises each character |
| Text.ContainsAt | code/python/core/post_ranking.py:60 | `t in s` holds when `t` occurs at some offset of `s` |
| Text.ContainsChar | code/python/core/post_ranking.py:60 | a one-character substring test is a membership test |
| Text.Find | code/python/core/post_ranking.py:62 | the first offset where the text occurs, found exactly when it occurs |
| Text.SplitOnce | code/python/indexing/poc_chunking.py:283 | `split(sep, 1)` gives one part exactly when the separator is absent, otherwise the text before the first separator and the rest, which join back to the text |
| Text.NotContainsBeforeFind | code/python/core/post_ranking.py:62 | no prefix that ends by the first occurrence holds the text |
| Text.SplitOnceHead | code/python/core/post_ranking.py:62 | the part before the first separator does not hold it |
| Text.SplitOnceChar | code/python/indexing/poc_chunking.py:283 | the part before the first tab holds no tab |
| Text.CountIn | code/python/core/mmr.py:96-97 | the count of keywords found is at most the keyword count, and positive exactly when some keyword occurs |
| Text.TrimLeft | code/python/indexing/poc_chunking.py:107 | `lstrip()` removes exactly the leading whitespace |
| Text.TrimRight | code/python/indexing/poc_chunking.py:107 | `rstrip()` removes exactly the trailing whitespace |
| Text.Strip | code/python/reasoning/filters/source_tier.py:58 | `strip()` never lengthens and leaves no whitespace at either end |
| Text.Word | code/python/training/feature_engineering.py:114 | the first word of `split()` is the longest whitespace-free prefix |
| Text.SplitWords | code/python/training/feature_engineering.py:114 | every word `split()` returns is non-empty and holds no whitespace |
| Text.SplitBlank | code/python/training/feature_engineering.py:175 | a blank string splits into no words |
| Text.Join | code/python/core/post_ranking.py:84 | joining no parts gives the empty string, and one part gives that part |
| Text.SplitChar | code/python/core/config_loader.py:138 | `split(c)` gives at least one piece, none holding the separator |
| Text.JoinSplitChar | code/python/core/config_loader.py:138 | joining the pieces with the separator gives the text back |
| Text.ConcatAppend | code/python/indexing/poc_chunking.py:199 | joining two lists of pieces one after the other joins their texts one after the other |
| Text.ConcatCons | code/python/indexing/poc_chunking.py:199 | joining a piece in front of a list puts its text in front |
| Text.SliceTo | crawled/failed_upload_processing.py:80 | `xs[:k]` is the first k items, clipped at the length; a negative k counts from the end |
| Text.Repeat | code/python/core/mmr.py:217 | `[v] * k` is k copies of v, none for a negative k |
| Text.IntText | code/python/reasoning/filters/source_tier.py:150 | `str` of an integer is its decimal digits, after a '-' when it is negative |
| Text.DigitOf | code/python/training/feature_engineering.py:121 | a character is a decimal digit of some script, with a value below 10, or is none |
| Text.DigitValue | code/python/training/feature_engineering.py:121 | a decimal digit's value is below 10 |
| Text.DigitFromRuns | code/python/training/feature_engineering.py:121 | a character is a digit of the table exactly when it lies in one of the runs of ten, and its value is its offset in that run |
| Text.DecimalRuns | code/python/training/feature_engineering.py:121 | a character is a decimal digit exactly when it lies in one of Unicode's runs of ten decimal digits |
| Text.FullWidthDigitIsDecimal | code/python/training/feature_engineering.py:121 | the full-width digits ０ to ９ are decimal digits with their values |
| Text.CjkIsNotDecimal | code/python/training/feature_engineering.py:121 | no CJK character (U+3000 to U+9FFF) is a decimal digit |
| Text.AsciiDigitIsDecimal | code/python/training/feature_engineering.py:121 | the ASCII digits are decimal digits with their values |
| Text.DecimalIsNotSpace | code/python/retrieval_providers/tw_company_client.py:223 | no decimal digit is whitespace |
| Text.DecimalIsNotSign | code/python/retrieval_providers/tw_company_client.py:223 | no decimal digit is a sign or an underscore |
| Text.ParseInt | code/python/retrieval_providers/tw_company_client.py:223 | `int()` of a string succeeds exactly when, after stripping and one sign, what is left is decimal digits with single underscores between them |
| Text.ParseIntDigits | code/python/retrieval_providers/tw_company_client.py:223 | digits of any script, with single underscores between them, read as the number they write |
| Text.TrimRightUnique | code/python/reasoning/filters/source_tier.py:132 | `rstrip()` is the prefix that ends in a non-space character and is followed only by whitespace |
| Values.Get | code/python/methods/deep_research.py:185 | `get` of a missing key is `None` |
| Values.GetOr | code/python/reasoning/filters/source_tier.py:58 | `get` with a default gives the key's value, or the default when the key is missing |
| Values.Len | code/python/indexing/poc_source_analysis.py:59 | `len` is defined exactly for strings, lists and dicts, and is 0 exactly for the falsy ones |
| Values.OrChain | code/python/core/post_ranking.py:54-57 | a chain of `or` gives the first truthy value, or the last value when none is truthy |
| SourceTier.MaxTier | code/python/reasoning/filters/source_tier.py:51-52 | a mode without a configuration allows up to tier 5 |
| SourceTier.SiteOf | code/python/reasoning/filters/source_tier.py:58 | a missing site is the empty string; reading the site fails exactly when it is present and not a string |
| SourceTier.Prefix | code/python/reasoning/filters/source_tier.py:136-150 | the prefix is a bracketed tag |
| SourceTier.PrefixUnknownIff | code/python/reasoning/filters/source_tier.py:147-150 | the prefix reads unknown exactly for tier 999 |
| SourceTier.DescriptionOf | code/python/reasoning/filters/source_tier.py:131 | a missing description is the empty string |
| SourceTier.Described | code/python/reasoning/filters/source_tier.py:132 | the stripped text is the tier prefix, a space and the description without its trailing whitespace, or the prefix alone when the description is blank |
| SourceTier.DescribedText | code/python/reasoning/filters/source_tier.py:132 | the right strip of prefix, space and description removes the description's trailing whitespace, and the space too when nothing else is left |
| SourceTier.WithMetadata | code/python/reasoning/filters/source_tier.py:120-132 | the copy has the item's keys plus the metadata and description, every other value unchanged, the metadata and description as given |
| SourceTier.Enrich | code/python/reasoning/filters/source_tier.py:100-134 | the enriched copy's description is the tier prefix, a space and the item's description without trailing whitespace, or the prefix alone for a blank description |
| SourceTier.Fold | code/python/reasoning/filters/source_tier.py:56-73 | the loop keeps at most every item, and its only failure is an `AttributeError` |
| SourceTier.PicksOf | code/python/reasoning/filters/source_tier.py:56-73 | the indices of the kept items, in increasing order |
| SourceTier.FoldOkIff | code/python/reasoning/filters/source_tier.py:56-73 | the loop succeeds exactly when no item fails |
| SourceTier.FoldIsPicks | code/python/reasoning/filters/source_tier.py:56-73 | the loop's output is the enriched copies of the kept items, in input order |
| SourceTier.PicksComplete | code/python/reasoning/filters/source_tier.py:56-73 | every kept item is picked |
| SourceTier.PicksAll | code/python/reasoning/filters/source_tier.py:56-73 | when every item is kept, every index is picked in order |
| SourceTier.FoldStops | code/python/reasoning/filters/source_tier.py:56-73 | an error part-way through the items is the final error |
| SourceTier.SourceTierFilter.TierInfoOf | code/python/reasoning/filters/source_tier.py:83-98 | a known source gets its configured tier information, any other source tier 999 and type `unknown` |
| SourceTier.SourceTierFilter.GetTier | code/python/reasoning/filters/source_tier.py:152-163 | a known source's configured tier, otherwise 999 |
| SourceTier.SourceTierFilter.Step | code/python/reasoning/filters/source_tier.py:56-73 | one item fails exactly when its site is not a string, is kept exactly when it survives the mode's filter, and is then its enriched copy |
| SourceTier.SourceTierFilter.FilterAndEnrich | code/python/reasoning/filters/source_tier.py:32-81 | the kept enriched items, in order; strict mode never returns an empty list and raises `NoValidSourcesError` exactly when nothing survives |
| SourceTier.SourceTierFilter.FilterKeepsExactly | code/python/reasoning/filters/source_tier.py:56-73 | the filter fails exactly when some site is not a string; otherwise it returns the enriched copies of exactly the surviving items, in input order |
| SourceTier.SourceTierFilter.NonStrictKeepsAll | code/python/reasoning/filters/source_tier.py:65-73 | outside strict mode every item is kept, in order, as its enriched copy |
| SourceTier.SourceTierFilter.EnrichedTier | code/python/reasoning/filters/source_tier.py:61-72 | the enriched copy records the tier of its site |
| SourceTier.SourceTierFilter.StrictKeepsKnownTiers | code/python/reasoning/filters/source_tier.py:66-69 | in strict mode every kept item has a known tier no larger than the maximum |
| SourceTier.SourceTierFilter.FilterAndEnrichItems | code/python/reasoning/filters/source_tier.py:54-81 | the loop and the strict-mode check compute `filter_and_enrich` |
| CwbWeather.FindKey | code/python/retrieval_providers/cwb_weather_client.py:239-240 | the exact mapping entry for a name, and none exactly when no key equals it |
| CwbWeather.FirstRelated | code/python/retrieval_providers/cwb_weather_client.py:243-245 | the first mapping entry, in order, whose key contains the name or is contained in it; none exactly when no entry is related |
| CwbWeather.NormaliseSound | code/python/retrieval_providers/cwb_weather_client.py:226-247 | the normalised place is always one of the mapping's values; an exact key wins over a partial match; a name is unknown exactly when no key is related to the stripped name |
| CwbWeather.BlankIsFirst | code/python/retrieval_providers/cwb_weather_client.py:236-245 | a blank name is contained in every key, so it is read as the first entry's place |
| CwbWeather.CwbWeatherClient.constructor | code/python/retrieval_providers/cwb_weather_client.py:101-127 | the client is enabled only when configured and given an API key; the cache has the configured flag, TTL and size bound, and starts empty |
| CwbWeather.CwbWeatherClient.Search | code/python/retrieval_providers/cwb_weather_client.py:129-205 | disabled or an unknown place: nothing is returned or cached; otherwise the shared cache protocol, keyed by the normalised place |
| CwbWeather.CwbWeatherClient.IsAvailable | code/python/retrieval_providers/cwb_weather_client.py:383-390 | available exactly when the client is enabled and has a non-empty API key |
| Twse.Channel | code/python/retrieval_providers/twse_client.py:197-198 | the channel is `tse_<code>.tw` for the listed market and `otc_<code>.tw` otherwise |
| Twse.LastPrice | code/python/retrieval_providers/twse_client.py:219-225 | the last trade price, or when it is "-" the open, or failing that the previous close |
| Twse.Truncate | code/python/retrieval_providers/twse_client.py:235 | `int(x)` truncates toward zero |
| Twse.PriceLineOf | code/python/retrieval_providers/twse_client.py:227-243 | the numeric line exactly when price, previous close and volume all parse; the change is price minus previous close, and the percentage is change × 100 / previous close, or 0 for a zero close |
| Twse.FromExchange | code/python/retrieval_providers/twse_client.py:178-261 | an article exactly for a 200 reply with a non-empty `msgArray`; the title names the market, the stock (the code when unnamed) and the code; the source is the exchange |
| Twse.ListedMarketFirst | code/python/retrieval_providers/twse_client.py:159-176 | a code the listed market answers is always taken from it; the OTC market answers only codes the listed market does not; nothing is found when neither does |
| Twse.ParseResponses | code/python/retrieval_providers/twse_client.py:111-132 | a timeout stays a timeout; the two replies become the stock found |
| Twse.TwseClient.constructor | code/python/retrieval_providers/twse_client.py:44-63 | the flag and the cache's configuration are those given, and the cache starts empty |
| Twse.TwseClient.Search | code/python/retrieval_providers/twse_client.py:65-138 | disabled, nothing is returned or cached; enabled, the shared cache protocol keyed by the stripped code |
| Twse.TwseClient.IsAvailable | code/python/retrieval_providers/twse_client.py:306-313 | available exactly when enabled |
| TwCompany.Filter | code/python/retrieval_providers/tw_company_client.py:183-188 | an eight-digit number is matched exactly, anything else by name containment |
| TwCompany.CapitalOf | code/python/retrieval_providers/tw_company_client.py:221-233 | no capital shows nothing; a capital that is not an integer is shown as given |
| TwCompany.CapitalBands | code/python/retrieval_providers/tw_company_client.py:223-229 | parsed capitals of at least 10^8 are shown in 億 (amount × 10^8 = capital), those of at least 10^4 in 萬, and smaller ones as the plain number |
| TwCompany.SnippetParts | code/python/retrieval_providers/tw_company_client.py:236-244 | at most four parts, and none exactly when number, capital, representative and status are all empty |
| TwCompany.Snippet | code/python/retrieval_providers/tw_company_client.py:246-250 | the address, when there is one, ends the snippet on its own line; no parts and no address give 無詳細資料 |
| TwCompany.Link | code/python/retrieval_providers/tw_company_client.py:255 | the registry page of the number when there is one, else the registry's home page |
| TwCompany.FormatCompany | code/python/retrieval_providers/tw_company_client.py:196-259 | an article exactly for a 200 reply with a record; the title is "[公司登記] " and the company name (the query when unnamed) |
| TwCompany.ParseResponse | code/python/retrieval_providers/tw_company_client.py:114-135 | a timeout stays a timeout; a reply becomes the formatted company |
| TwCompany.TwCompanyClient.constructor | code/python/retrieval_providers/tw_company_client.py:44-63 | the flag and the cache's configuration are those given, and the cache starts empty |
| TwCompany.TwCompanyClient.Search | code/python/retrieval_providers/tw_company_client.py:65-141 | the request filter is built from the stripped query; disabled, nothing is returned or cached; enabled, the shared cache protocol keyed by the stripped query |
| Yfinance.MoveOf | code/python/retrieval_providers/yfinance_client.py:205-206 | the change is last minus previous close, the percentage is change × 100 / previous close (0 for a zero close) and, for a positive close, is non-negative exactly when the price did not fall |
| Yfinance.Sign | code/python/retrieval_providers/yfinance_client.py:207 | "+" exactly for a change that is not negative |
| Yfinance.CapOf | code/python/retrieval_providers/yfinance_client.py:225-229 | a market cap below 10^9 is not shown |
| Yfinance.CapBands | code/python/retrieval_providers/yfinance_client.py:226-229 | caps of at least 10^12 are shown in T and the others in B, the amount times its unit being the cap |
| Yfinance.FundamentalParts | code/python/retrieval_providers/yfinance_client.py:223-229 | nothing is appended exactly when the P/E ratio is falsy and the cap is falsy or below 10^9 |
| Yfinance.FormatStock | code/python/retrieval_providers/yfinance_client.py:166-243 | an article exactly when the quote has a last price and a previous close; the title uses the short name only with fundamentals; the snippet starts with the price line and is only that without fundamentals |
| Yfinance.ParseReply | code/python/retrieval_providers/yfinance_client.py:118-139 | a timeout stays a timeout; a reply becomes the formatted stock |
| Yfinance.NormaliseSymbol | code/python/retrieval_providers/yfinance_client.py:96 | `symbol.upper().strip()` leaves no lower-case ASCII letter and never lengthens the symbol |
| Yfinance.YfinanceClient.constructor | code/python/retrieval_providers/yfinance_client.py:45-70 | the flags and the cache's configuration are those given, and the cache starts empty |
| Yfinance.YfinanceClient.Search | code/python/retrieval_providers/yfinance_client.py:72-145 | disabled, nothing is returned or cached; enabled, the shared cache protocol keyed by the normalised symbol, so "nvda " and "NVDA" share an entry |
| Yfinance.YfinanceClient.IsAvailable | code/python/retrieval_providers/yfinance_client.py:288-295 | available exactly when enabled |
| TrainingValidate.ValidateMetadata | code/python/training/validate_training_data.py:134-158 | the metadata is returned exactly when all eight required keys are present, otherwise `None` |
| TrainingValidate.RowTallyCounts | code/python/training/validate_training_data.py:48-52 | one row adds its empty or `None` cells to the count; a cell past the header's width raises (`header[j]`) once a missing value is reported there |
| TrainingValidate.TallyCounts | code/python/training/validate_training_data.py:46-52 | the scan counts exactly the missing cells of all rows and cannot raise when no row is wider than the header |
| TrainingValidate.ScanRow | code/python/training/validate_training_data.py:48-52 | the inner loop computes that one-row tally |
| TrainingValidate.ScanMissing | code/python/training/validate_training_data.py:46-52 | the outer loop computes the tally over all rows |
| TrainingValidate.CsvStructure | code/python/training/validate_training_data.py:23-59 | an empty file raises `StopIteration`; a pass means a 30-column header and a data-row count equal to `total_samples` as Python compares a count with a JSON value (`100.0` and `true` for 1 included); missing values only warn |
| TrainingValidate.ValidateCsvStructure | code/python/training/validate_training_data.py:23-59 | the method's result is that check |
| TrainingValidate.RowRanges | code/python/training/validate_training_data.py:77-84 | updating the ranges by one row keeps one range per column |
| TrainingValidate.Ranges | code/python/training/validate_training_data.py:73-84 | the collected ranges have one entry per header column |
| TrainingValidate.WidenContains | code/python/training/validate_training_data.py:80-81 | the `min`/`max` update keeps the old range and covers the new value |
| TrainingValidate.RowRangesSpec | code/python/training/validate_training_data.py:77-84 | one row fails exactly when a numeric cell lies past the width (`IndexError`); otherwise the new ranges contain the old and cover its numeric cells, non-numeric cells skipped |
| TrainingValidate.RangesSpec | code/python/training/validate_training_data.py:73-84 | collecting fails exactly when some row overflows the width; otherwise every numeric cell lies within its column's range |
| TrainingValidate.RowRangesStops | code/python/training/validate_training_data.py:77-84 | an error part-way through a row is the row's error |
| TrainingValidate.RangesStops | code/python/training/validate_training_data.py:76-84 | an error part-way through the rows ends the collection |
| TrainingValidate.WidenRow | code/python/training/validate_training_data.py:77-84 | the inner loop computes the one-row update |
| TrainingValidate.CollectRanges | code/python/training/validate_training_data.py:73-84 | the outer loop computes the ranges over all rows |
| TrainingValidate.FeatureRanges | code/python/training/validate_training_data.py:61-111 | the range check only warns, so it passes exactly when reading succeeds: a non-empty file, a non-empty header (`mins[-1]`) and no numeric cell past the header's width |
| TrainingValidate.ValidateFeatureRanges | code/python/training/validate_training_data.py:61-111 | the method's result is that check |
| TrainingValidate.SumValues | code/python/training/validate_training_data.py:118 | `sum` of a JSON list succeeds exactly when every item is a number or a boolean, and otherwise raises `TypeError` |
| TrainingValidate.SumOf | code/python/training/validate_training_data.py:118 | `sum` of a list sums its items; of a string or a dict it is 0 when empty and `TypeError` otherwise; of a number, a boolean or `None` it is `TypeError` |
| TrainingValidate.SumNums | code/python/training/validate_training_data.py:118 | `sum` of a JSON list of numbers is their sum |
| TrainingValidate.QueryGroupsCheck | code/python/training/validate_training_data.py:113-132 | the check passes exactly when `sum(query_groups)` equals `total_samples` (a number of that value or a boolean counting 1 or 0), and raises exactly what `sum` raises; for a list of group sizes, exactly when they add up to `total_samples`; an empty string sums to 0; small groups only warn |
| TrainingValidate.LaxGroups | code/python/training/validate_training_data.py:117-121 | `""` passes against 0 samples, `[true, 99]` against `100.0` samples, and `["3"]` raises `TypeError` |
| TrainingValidate.Validation | code/python/training/validate_training_data.py:160-203 | the data passes only when both files exist, the metadata has every key and all three checks pass |
| TrainingValidate.RunValidation | code/python/training/validate_training_data.py:160-203 | the method's result is that verdict |
| TrainingValidate.MetaJson | code/python/training/export_training_data.py:288-298 | the exporter's metadata object has every key the validator requires |
| TrainingValidate.ExportPassesValidation | code/python/training/validate_training_data.py:160-203 | what the exporter writes (its 30-name header, one 30-value row per logged row, its metadata) passes all validation checks, however the numbers are written |
| Wikidata.KindOf | code/python/retrieval_providers/wikidata_client.py:178-183 | the company query exactly for "company", the person query exactly for "person", and the generic query otherwise |
| Wikidata.Closing | code/python/retrieval_providers/wikidata_client.py:288 | where a SPARQL reader ends the label literal: at a quote not taken by a backslash escape |
| Wikidata.EscapeAsWritten | code/python/retrieval_providers/wikidata_client.py:283 | `name.replace('"', '\\"')` never shortens the name |
| Wikidata.EscapeAsWrittenClosesEarly | code/python/retrieval_providers/wikidata_client.py:283-288 | the name `\"` escapes to `\\"`, which a SPARQL reader closes after two characters, inside the name |
| Wikidata.Escape | code/python/retrieval_providers/wikidata_client.py:283 | escaping backslashes as well as quotes never shortens the name |
| Wikidata.EscapeClosesAtEnd | code/python/retrieval_providers/wikidata_client.py:283-288 | with both escaped, the literal closes exactly at its own closing quote, whatever the name holds |
| Wikidata.EscapeDecodes | code/python/retrieval_providers/wikidata_client.py:283-288 | a SPARQL reader decodes the escaped name back to the name |
| Wikidata.LabelLiteral | code/python/retrieval_providers/wikidata_client.py:288 | the `"…"@en` literal closes right after the escaped name and decodes to the name |
| Wikidata.Year | code/python/retrieval_providers/wikidata_client.py:228 | the year is the first four characters, or the whole date when it is shorter |
| Wikidata.Labelled | code/python/retrieval_providers/wikidata_client.py:225-256 | a field contributes a labelled part exactly when it is non-empty |
| Wikidata.SnippetParts | code/python/retrieval_providers/wikidata_client.py:219-256 | there are no parts exactly when the description and every field of the entity kind are empty; at most 5 parts for a company, 4 for a person and 1 otherwise |
| Wikidata.Snippet | code/python/retrieval_providers/wikidata_client.py:258 | no parts give 無詳細資料, and a single part is the snippet itself |
| Wikidata.LastSegment | code/python/retrieval_providers/wikidata_client.py:261 | `uri.split("/")[-1]` is the suffix after the last slash and holds no slash |
| Wikidata.Link | code/python/retrieval_providers/wikidata_client.py:261-262 | the entity page when the URI's last segment is non-empty, the URI itself otherwise |
| Wikidata.FormatEntity | code/python/retrieval_providers/wikidata_client.py:197-271 | an article exactly for a 200 reply with at least one binding; its title is "[Wikidata] " plus the label (the name when absent), with the snippet and link of the first binding |
| Wikidata.ParseResponse | code/python/retrieval_providers/wikidata_client.py:114-135 | a timeout stays a timeout; a fetched reply becomes the formatted entity |
| Wikidata.CacheKey | code/python/retrieval_providers/wikidata_client.py:102 | the key is the entity type, a colon, then the name |
| Wikidata.WikidataClient.constructor | code/python/retrieval_providers/wikidata_client.py:45-64 | the client's flag and the cache's flag, TTL in seconds and size bound are those configured, and the cache starts empty |
| Wikidata.WikidataClient.Search | code/python/retrieval_providers/wikidata_client.py:66-141 | disabled, nothing is returned or cached; enabled, the stripped name is looked up through the cache under `type:name`, and the result list and cache update are the shared cache protocol's answer for that lookup |
| Wikipedia.RFind | code/python/retrieval_providers/wikipedia_client.py:251 | `str.rfind(c, 0, hi)` is the last index below the bound that holds c, and none exactly when no such index does |
| Wikipedia.LastBefore | code/python/retrieval_providers/wikipedia_client.py:251-254 | the last position before `end` that holds c, and none exactly when no position does |
| Wikipedia.SentenceEnd | code/python/retrieval_providers/wikipedia_client.py:251-254 | the cut point is a full stop (。 first, else .) before the limit |
| Wikipedia.WithEllipsis | code/python/retrieval_providers/wikipedia_client.py:260-261 | "..." is appended exactly when the text does not already end a sentence, so the result always ends one |
| Wikipedia.TruncateOverflows | code/python/retrieval_providers/wikipedia_client.py:251-263 | as written, a long summary with no full stop in its first `max` characters comes back as `max + 1` characters |
| Wikipedia.TruncateWithinLimit | code/python/retrieval_providers/wikipedia_client.py:237-263 | corrected: a short summary is kept whole; a long one comes back within the limit, ending a sentence, cut after the last full stop when there is one past the first character, and otherwise as its first `max - 3` characters with the ellipsis |
| Wikipedia.TruncateAsWrittenShape | code/python/retrieval_providers/wikipedia_client.py:247-263 | as written, a short summary is kept; a long one is at most `max + 1` characters and ends a sentence; it agrees with the corrected cut when there is a full stop, and otherwise is the first `max - 2` characters, with "..." unless they already end a sentence |
| Wikipedia.Summaries | code/python/retrieval_providers/wikipedia_client.py:199-235 | at most one summary per page: every fetched page's summary, cut as the code is written, and nothing else, each marked `encyclopedia` from `wikipedia`, with a snippet of at most `max + 1` characters |
| Wikipedia.NonEmpty | code/python/retrieval_providers/wikipedia_client.py:140-141 | only a non-empty list of summaries is cached |
| Wikipedia.ParsePages | code/python/retrieval_providers/wikipedia_client.py:133-151 | a timeout stays a timeout; fetched pages become their summaries, cut as the code is written |
| Wikipedia.WikipediaClient.constructor | code/python/retrieval_providers/wikipedia_client.py:48-84 | the language is the one passed in when non-empty, else the configured one; the limits and the cache's flag, TTL and size bound are those configured, and the cache starts empty |
| Wikipedia.WikipediaClient.KeyFor | code/python/retrieval_providers/wikipedia_client.py:109-120 | the cache key is query, count and language, with a missing or zero count replaced by the configured one |
| Wikipedia.WikipediaClient.Search | code/python/retrieval_providers/wikipedia_client.py:86-157 | disabled, nothing is returned or cached; enabled, the result list and the cache update are the shared cache protocol's answer for the key, with `[]` when nothing answers |
| Xgboost.LlmScores | code/python/core/xgboost_ranker.py:152-160 | `all_llm_scores` holds each result's LLM score, in order |
| Xgboost.CollectLlmScores | code/python/core/xgboost_ranker.py:152-160 | the gathering loop yields exactly `all_llm_scores` |
| Xgboost.FeatureRow | code/python/core/xgboost_ranker.py:163-275 | every result's feature row has the 29 features |
| Xgboost.DictRowDefaults | code/python/core/xgboost_ranker.py:165-189 | a dict result's retrieval and ranking positions are both its index, so there is no position change, no diversity score, and the BALANCED intent code 2 |
| Xgboost.RowLlmSlot | code/python/core/xgboost_ranker.py:185-267 | every row holds the result's own LLM score in the `llm_final_score` slot |
| Xgboost.RowFor | code/python/core/xgboost_ranker.py:215-275 | the row built from the precomputed query features and score list is the result's feature row |
| Xgboost.XgboostRanker.ExtractFeatures | code/python/core/xgboost_ranker.py:114-279 | a fresh n × 29 matrix whose row i is result i's feature row |
| Xgboost.XgboostRanker.FillRow | code/python/core/xgboost_ranker.py:163-277 | filling row i writes result i's features and no other row |
| Xgboost.SetRow | code/python/core/xgboost_ranker.py:277 | `features[i, :] = row` writes row i and leaves every other row alone |
| Xgboost.Column | code/python/core/xgboost_ranker.py:303 | the LLM column holds column j of every row |
| Xgboost.NormaliseByMax | code/python/core/xgboost_ranker.py:306-309 | normalising keeps one score per result |
| Xgboost.NormalisedScores | code/python/core/xgboost_ranker.py:306-309 | dividing by a positive maximum keeps the LLM order, maps the top score to 1.0 and non-negative scores into [0, 1]; a maximum that is not positive gives all zeros |
| Xgboost.PredictColumn | code/python/core/xgboost_ranker.py:301-324 | prediction yields one score and one confidence per result, and raises exactly when there is no model and no results (`max()` of an empty array) |
| Xgboost.Predict | code/python/core/xgboost_ranker.py:281-324 | a matrix that is not 29 wide fails the assertion; otherwise the prediction is made from the LLM-score column |
| Xgboost.CalculateConfidence | code/python/core/xgboost_ranker.py:326-346 | `abs(p - 0.5) * 2` is non-negative and 0 exactly at 0.5; for predictions in [0, 1] it is at most 1 and equals 1 exactly at 0 and 1 |
| Xgboost.InsertDescSorted | code/python/core/xgboost_ranker.py:454-458 | inserting into a list sorted by descending score keeps it sorted and adds exactly the item |
| Xgboost.SortDescSorted | code/python/core/xgboost_ranker.py:454-458 | `sorted(…, reverse=True)` by score is ordered by descending score and is a permutation of its input |
| Xgboost.SortDescKeepsSorted | code/python/core/xgboost_ranker.py:454-458 | the sort is stable: a list already in descending order, ties included, comes back as it is |
| Xgboost.Urls | code/python/core/xgboost_ranker.py:503-508 | one URL per result, in order |
| Xgboost.ArgsortIsPermutation | code/python/core/xgboost_ranker.py:511 | `argsort(-scores)` is a permutation of the indices |
| Xgboost.ArgsortKeepsOrder | code/python/core/xgboost_ranker.py:511 | scores that already descend are ranked in their own order; ties keep position order, the model's tie rule |
| Xgboost.Pick | code/python/core/xgboost_ranker.py:512 | `xgb_urls` holds the URL of each index of the model ranking |
| Xgboost.PositionChanges | code/python/core/xgboost_ranker.py:546-550 | at most one change per LLM position, each non-negative |
| Xgboost.NoPositionChange | code/python/core/xgboost_ranker.py:546-550 | two identical rankings of distinct URLs have every position change 0 |
| Xgboost.AgreeingRankings | code/python/core/xgboost_ranker.py:476-558 | when the model's scores already descend in LLM order and the URLs are distinct, the top-10 overlap is 1.0 and the average position change 0.0 (for tied scores, under the position tie rule) |
| Xgboost.MetricBounds | code/python/core/xgboost_ranker.py:515-552 | the top-10 overlap lies in [0, 1] and the average position change is non-negative |
| Xgboost.FirstDict | code/python/core/xgboost_ranker.py:449-451 | the position of the first dict result, every result before it being an object |
| Xgboost.Attach | code/python/core/xgboost_ranker.py:449-451 | the results before the first dict get their score and confidence attached, the rest are unchanged, and the loop raises exactly when there is a dict |
| Xgboost.AttachScores | code/python/core/xgboost_ranker.py:449-451 | the attaching loop computes that outcome |
| Xgboost.OutcomeCases | code/python/core/xgboost_ranker.py:370-445 | disabled, shadow mode and a missing model outside shadow mode all return the list unchanged and not marked as ML-ranked; the result count and shadow flag are recorded; shadow mode adds comparison metrics unless prediction raised on an empty list |
| Xgboost.ProductionSorts | code/python/core/xgboost_ranker.py:447-467 | in production mode with object results the output is marked as ML-ranked, sorted by descending score, and a permutation of the scored input; as the placeholder scores are all zero and the sort is stable, it is the scored input in its original order |
| Xgboost.ModelCache.constructor | code/python/core/xgboost_ranker.py:29 | the global model cache starts empty |
| Xgboost.XgboostRanker.constructor | code/python/core/xgboost_ranker.py:43-66 | configuration defaults are `models/xgboost_ranker_v1_binary.json`, 0.8, 2 and shadow mode on; the ranker stays enabled only if configured and its model is cached, the file exists or shadow mode is on |
| Xgboost.XgboostRanker.LoadModel | code/python/core/xgboost_ranker.py:68-112 | a cached path reuses the cached model; a missing file switches the ranker off unless in shadow mode; an existing file puts the model in the cache |
| Xgboost.XgboostRanker.Rerank | code/python/core/xgboost_ranker.py:348-472 | the re-ranking is the outcome above; shadow mode or a missing model never reorders |

## Left out

### Data sources and I/O
- Network calls are not modelled. This covers every provider fetch, the yfinance and wikipedia libraries, the uploader's embedding and upload requests, and `run_in_executor`. A fetch is a parameter: a result, a falsy result or a timeout.
- Disk and database I/O are not modelled. This covers the SQLite queries of the exporter, HTML/YAML/JSON reads, writes and backups, and CSV/JSON writing. The data they yield or receive is an in-memory sequence or map.
- The indexer's `os.walk`, `stat` and file reads are not modelled. Each scanned file arrives with their results.
- `search_files` (FTS5) and `get_statistics` in tools/indexer.py are not modelled. Each is a single SQL query with no logic of its own.

### Time and numerics
- Clocks and date parsing are not modelled. `datetime.now()`, `time.time()`, `fromisoformat` and `strptime` become parameters (`now`, `today`, a parsed date or a day age). The export timestamp is not modelled.
- The numeric library is not modelled. Embeddings, the cosine quotient, `np.mean` centroids and `np.std` are parameters or left out.
- Kendall's tau and its `np.corrcoef` fallback are not modelled. The rank correlation of the XGBoost comparison metrics is a parameter.
- `np.argsort` tie order is not modelled as numpy leaves it. The model breaks ties by position (Xgboost.ArgsortDesc), and the two lemmas named under "Weaker contracts" rely on that rule.
- Float-to-text formatting is not modelled: `{:.1f}`, `{:,.2f}`, `str(float)` and `float()` parsing, including `inf`/`nan`. The unit or branch each chooses is modelled. The digits are parameters.

### Libraries and concurrency
- Locks and concurrency are not modelled. This covers the results cache's `RLock`, the process-wide model cache and async interleaving. Everything runs sequentially.
- Python dict insertion order is modelled only where the output depends on it (the city mapping, field orders). Elsewhere dicts are maps.
- `tldextract` is not modelled. The uploader's extracted domain is a parameter. The override rule of `extract_site_from_url` is modelled.
- JSON decoding is not modelled. Decoded values are `Values.Value`s.
- Regex scraping of the diagram's `graphData` is not modelled. The parsed nodes are a parameter.
- `random.sample` under seed 42 is modelled by the positions it draws, which are parameters. The model proves they stay in range.
- Lazy model loading is not modelled (`get_model`, `unload_model`). The embedding model is a parameter.

### Out of the modelled pipeline
- LLM orchestration is not modelled: the orchestrator, the agents, the prompts, query rewriting and the OpenAI provider. The schemas of the agents' outputs are modelled.
- The author-intent detector is not modelled. Its behaviour is entirely six regular expressions.
- The generate-mode summary (`SummarizeResults`) is not modelled.
- Logging and printing are not modelled. This covers analytics logging, the MMR diversity metrics (core/mmr.py:284-309), the training validator's warnings (which only print), the POC scripts' reports, percentiles and overall statistics.
- Interactive prompts are not modelled. The failed-upload retry confirmation is the `yes` parameter.
- Placeholders and `main`s are not modelled: `populate_feature_vectors`, `validate_feature_quality`, the trainer and the scripts' `main` functions. The pass/fail combination of the validator's `main` is modelled.
- The Wikipedia library's availability is folded into the client's `enabled` flag.
- A headline that is not a string is passed to the chunker as "".
- Statistics keyed by `str(threshold)` are keyed by the threshold itself. A repeated threshold gets one statistics entry, at its first position, as in the script's dict, which overwrites the entry with the same statistics.

### Weaker contracts
- Xgboost.PredictColumn: a loaded model's branch returns zeros, as the source's placeholder does. No trained model is ever loaded, so real predictions are not modelled.
- Xgboost.XgboostRanker.Rerank: the production branch is modelled but unreachable in the source, since the loader only caches `None`.
- Indexer.FileIndex.ListByExtension: returns the matching rows but not the `ORDER BY path` order.
- Indexer.FormatSize: states the unit chosen, not the one-decimal rendering of the number.
- PostRanking.PostRankingStep.Do: the generate-mode summary branch is not modelled.
- PostRanking.ApplyMmrReranking: the logging of the MMR scores is not modelled.
- FastTrack.FastTrack.Do: ranking is recorded only as the `rankingStarted` flag. Exceptions raised by the search are not modelled.
- TrainingExport.ExportToCsv: the CSV is its sequence of numeric rows. The timestamp and the text rendering are not modelled.
- PocLengthAnalysis.AnalyzeLength: the standard-deviation fields of the result are not modelled.
- Text.Lower: lower-cases the ASCII letters only; `str.lower()` also lowers other scripts' capitals (Ä, Σ, full-width Ａ), which the model keeps as they are.
- Text.Upper: upper-cases the ASCII letters only; `str.upper()` also raises other scripts' letters and can lengthen a string ("ß" becomes "SS").
- Text.UpperChar: raises the ASCII letters only, for the same reason.
- GlobalWeather.GlobalWeatherClient.Search: its cache key is lower-cased by Text.Lower, so "ZÜRICH" and "zürich" are two keys in the model but one in the client.
- Schemas.IntOf: of the other inputs the validation library's lax mode may coerce to an integer (booleans, strings such as "3.0"), none is modelled; they are refused.
- Architecture.UpdateGroupEntry: an existing entry with `children: null` reads as an empty list; the script's `setdefault("children", []).append` then raises AttributeError.
- Architecture.UpdateYamlEntries: a `levels:` entry that is not a dict, on which `.get` raises AttributeError, is not modelled; an entry is always a dict.
- Architecture.UpdateNodeEntry: a `level` that is present but not an int reads as absent, so the model fills it where the script, testing `is None`, keeps it; a label that is not a string is not modelled.
- FailedUpload.CategoryOf: a headline or body that is not a string is not modelled, for instance a numeric body whose `len` raises TypeError; the schema holds strings.
- Xgboost.ArgsortKeepsOrder: tied scores are ranked in position order, which is the model's tie rule. `np.argsort(-scores)` with numpy's default sort does not promise that order, so for tied scores the lemma states the model, not the program.
- Xgboost.AgreeingRankings: the overlap of 1.0 and the position change of 0.0 for tied scores follow from the same position tie rule, which numpy's default sort does not promise; for strictly descending scores they hold whatever the tie rule.
- TrainingValidate.QueryGroupsCheck: `sum` over floats is exact real addition, not floating-point addition with rounding; `NaN` and `Infinity`, which `json.load` accepts, cannot be represented.
- TrainingValidate.ValidateMetadata: a metadata file whose JSON is not an object (`key not in metadata` on a list tests its items) is not modelled; the metadata is a map.
- FailedUpload.LoadLine: a JSON column that is a number, string or list, on which the later `'headline' in schema` test raises or tests membership, is not modelled; a decoded column is an object or `null`.

## Findings

| source | as written | input that shows it | evidently intended | confidence | as-written member | corrected member |
|---|---|---|---|---|---|---|
| scripts/update_architecture.py:855-866 | a quote toggles the "inside a string" flag only when the character before it is not a backslash | the JSON text `"\\"` then a newline: the closing quote follows a backslash, so the newline outside the string is escaped to `\n` | JSON lexing: inside a string, a backslash escapes exactly the next character | high, not executed | JsonEscape.EscapedBackslashClosesString | JsonEscape.EscapeNoRawNewline |
| scripts/save_layout_to_html.py:46-57 | the same previous-character test | the same input | the same rule | high, not executed | JsonEscape.EscapeNewlinesInJson | JsonEscape.EscapeNewlines |
| code/python/retrieval_providers/wikipedia_client.py:251-263 | with no sentence end inside the limit, the summary is cut to `max_length - 2` characters and "..." is appended | a summary longer than the limit with no `。` or `.` in its first `max_length` characters: the result has `max_length + 1` characters | the result never exceeds `max_length` | high, not executed | Wikipedia.TruncateOverflows | Wikipedia.TruncateWithinLimit |
| code/python/retrieval_providers/wikidata_client.py:283-288 | the name is escaped for the SPARQL literal by replacing `"` with `\"` only | the name `\"` becomes `\\"`, whose quote ends the literal after two characters | backslashes escaped too, so the literal ends exactly at its closing quote | high, not executed | Wikidata.EscapeAsWrittenClosesEarly | Wikidata.EscapeClosesAtEnd |
| code/python/retrieval_providers/global_weather_client.py:221-233 | each reading is added to the snippet only when it is truthy | a temperature of 0 °C with minimum and maximum 0, wind speed 0, and no description or humidity: the snippet is "無資料" although three readings exist | a reading is shown whenever it is present | medium, not executed | GlobalWeather.FreezingReadingDropped | GlobalWeather.PartsShowEveryReading |
| code/python/core/refactoring_patterns.py:103-126 | the helper, documented as replacing `if data: if is_valid(data): return process(data)`, tests `data is None` instead of truthiness | the number 0 (or "", [], {}) with a validator that accepts it: the helper processes it, the guard it replaces returns the default | only truthy data is processed, as the docstring shows | medium, not executed | RefactoringPatterns.ZeroIsProcessed | RefactoringPatterns.ProcessIfTruthy |
