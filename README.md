# Simple XML sitemap: a verified model of the generation pipeline

This project models the core of the Drupal module *Simple XML sitemap*:

- **the resumable URL-generation batch.** The batch context array holds the per-context result buffers, the delta counters, the global and per-context dedup lists, and the sandbox with `progress`, `current_id`, `max` and `finished`. It is modelled by:
  - `BatchContext.Batch`, a class;
  - `generate()` and its helpers `addUrl()`, `addUrlVariants()`, the language-alternate builders, `processSegment()` and `replaceBaseUrlWithCustom()` (`UrlGeneratorBase`, `UrlGeneration`);
  - the three producers: entities (`EntityUrlGenerator`), menu links (`MenuUrlGenerator`) and arbitrary links (`ArbitraryUrlGenerator`).
- **the sitemap writer.** It produces `urlset` documents following the Sitemap protocol 0.9, with the Google image extension 1.1 and `xhtml:link` hreflang alternates. It numbers deltas in the `simple_sitemap` table and composes the `sitemapindex` document (`SitemapGenerator.Generator`). Documents are element trees and the table is a map from context to rows.
- **the settings store** (`Simplesitemap.Store`). It covers:
  - entity types;
  - bundle settings and per-entity overrides, with loose PHP comparison;
  - custom links;
  - general settings;
  - the choice between a chunk and the index on retrieval.
- **the forms** (`Form`, `SettingsForm`, `EntitiesForm`):
  - priority validation and the priority options;
  - the decision whether an entity form is altered, and the defaults it shows;
  - validation and saving of the integer settings;
  - the `_enabled` field dispatch, label sort and client ids of the entity types form.

Each class exposes its whole state as a value (`State()`). Each method states its new state as a function of the old one. The properties are proved as lemmas about those functions.

PHP values are `Php.Value` (NULL, booleans, integers and strings). `Php.LooseEq` models `==` as PHP 7 defines it, not PHP 8: numeric strings compare as numbers, and an integer compares with a non-numeric string by the string's leading number. Numeric strings follow PHP 7's `is_numeric`: leading whitespace, a sign, a decimal mantissa and an optional exponent. PHP arrays are `OrderedMap`s, which are sequences of key/value pairs.

## Model

| member | source | states |
|---|---|---|
| BatchContext.PathProcessedTestAndInsert | src/Plugin/simple_sitemap/UrlGenerator/UrlGeneratorBase.php:272-278 | a global test records the path; a new path is recorded once more; a second test answers TRUE and changes nothing; the per-context lists are untouched |
| BatchContext.PathProcessedByContextIndependent | src/Plugin/simple_sitemap/UrlGenerator/UrlGeneratorBase.php:286-292 | a per-context test records the path in that context only; the other contexts' lists and the global list are unchanged; a repeat answers TRUE |
| BatchContext.PathProcessedKeepsUnique | src/Plugin/simple_sitemap/UrlGenerator/UrlGeneratorBase.php:272-292 | test-and-insert keeps every dedup list free of duplicates |
| BatchContext.TouchContextsKeeps | src/Plugin/simple_sitemap/UrlGenerator/UrlGeneratorBase.php:406-410 | initializeBatch's loop reads back exactly what it writes, and writes an entry for every context it visits |
| BatchContext.InitializeKeepsProgress | src/Plugin/simple_sitemap/UrlGenerator/UrlGeneratorBase.php:404-420 | initialisation clears no buffer, delta count or dedup list (it writes the processed_elements keys, not the processed_paths keys); in batch mode the sandbox becomes progress 0, current_id 0, max, finished 0; otherwise the sandbox is untouched |
| BatchContext.ProgressInfoSpec | src/Plugin/simple_sitemap/UrlGenerator/UrlGeneratorBase.php:465-474 | setProgressInfo changes only `finished` |
| BatchContext.Window | src/Plugin/simple_sitemap/UrlGenerator/UrlGeneratorBase.php:511-513 | array_slice with a length: the in-range slice, the tail when the length runs past the end, empty past the end |
| BatchContext.Rest | src/Plugin/simple_sitemap/UrlGenerator/UrlGeneratorBase.php:456 | array_slice without a length: everything from the offset on, empty past the end |
| BatchContext.WindowsTile | src/Plugin/simple_sitemap/UrlGenerator/UrlGeneratorBase.php:506-514 | consecutive windows tile the list without gap or overlap |
| BatchContext.WindowsCover | src/Plugin/simple_sitemap/UrlGenerator/UrlGeneratorBase.php:506-514 | k windows that advance by their length from 0 concatenate to the first k·n elements |
| BatchContext.SetResultsSpec | src/Plugin/simple_sitemap/UrlGenerator/UrlGeneratorBase.php:245-247 | setBatchResults replaces the context's buffer and leaves the delta counts alone |
| BatchContext.AppendResults | src/Plugin/simple_sitemap/UrlGenerator/UrlGeneratorBase.php:237-239 | repeated addBatchResult appends the links to the end of the context's buffer |
| BatchContext.AppendResultsFrame | src/Plugin/simple_sitemap/UrlGenerator/UrlGeneratorBase.php:237-239 | appending touches only that context's buffer |
| BatchContext.AppendResultsSnoc | src/Plugin/simple_sitemap/UrlGenerator/UrlGeneratorBase.php:332-339 | one more addBatchResult after a run of them is the run with the link at its end |
| BatchContext.SetDeltaCountSpec | src/Plugin/simple_sitemap/UrlGenerator/UrlGeneratorBase.php:264-266 | setDeltaCount replaces the context's count and leaves the buffers alone |
| BatchContext.Batch.constructor | src/Plugin/simple_sitemap/UrlGenerator/UrlGeneratorBase.php:151-153 | a fresh run's context array is empty |
| BatchContext.Batch.AddBatchResult | src/Plugin/simple_sitemap/UrlGenerator/UrlGeneratorBase.php:237-239 | appends one link to the context's buffer and changes nothing else |
| BatchContext.Batch.SetBatchResults | src/Plugin/simple_sitemap/UrlGenerator/UrlGeneratorBase.php:245-247 | replaces the context's buffer |
| BatchContext.Batch.SetDeltaCount | src/Plugin/simple_sitemap/UrlGenerator/UrlGeneratorBase.php:264-266 | replaces the context's delta count |
| BatchContext.Batch.PathProcessed | src/Plugin/simple_sitemap/UrlGenerator/UrlGeneratorBase.php:272-278 | returns TRUE iff the path was already in the global list; a new path is appended |
| BatchContext.Batch.PathProcessedByContext | src/Plugin/simple_sitemap/UrlGenerator/UrlGeneratorBase.php:286-292 | the same test-and-insert on one context's list |
| BatchContext.Batch.InitializeBatch | src/Plugin/simple_sitemap/UrlGenerator/UrlGeneratorBase.php:404-420 | the loop over the run's contexts, then the sandbox in batch mode, as InitializeSpec |
| BatchContext.Batch.SetCurrentId | src/Plugin/simple_sitemap/UrlGenerator/UrlGeneratorBase.php:425-430 | in batch mode, progress rises by one and current_id becomes the element's key; otherwise nothing changes |
| BatchContext.Batch.SetProgressInfo | src/Plugin/simple_sitemap/UrlGenerator/UrlGeneratorBase.php:465-474 | finished becomes progress/max unless the run is complete |
| UrlGeneration.IterationElements | src/Plugin/simple_sitemap/UrlGenerator/UrlGeneratorBase.php:506-514 | dispatches getBatchIterationElements to the producer, with the corrected (flattened) menu listing: the prepared batch and this step's keyed elements |
| UrlGeneration.ProcessElement | src/Plugin/simple_sitemap/UrlGenerator/UrlGeneratorBase.php:536 | dispatches processDataSet to the producer the element came from; arbitrary links pass through |
| UrlGeneration.Step | src/Plugin/simple_sitemap/UrlGenerator/UrlGeneratorBase.php:535-540 | one pass of generate's loop: setCurrentId, processDataSet, then addUrl unless the element was skipped |
| UrlGeneration.Loop | src/Plugin/simple_sitemap/UrlGenerator/UrlGeneratorBase.php:534-541 | the loop over all keyed elements, in order |
| UrlGeneration.Generate | src/Plugin/simple_sitemap/UrlGenerator/UrlGeneratorBase.php:532-543 | elements (menus flattened, as corrected), then the loop, then exactly one processSegment |
| UrlGeneration.StepMeaning | src/Plugin/simple_sitemap/UrlGenerator/UrlGeneratorBase.php:534-541 | a pass appends exactly the variants of the element's path data, and nothing for a skipped element; no other buffer or delta count changes; the sandbox moves as setCurrentId says |
| UrlGeneration.ProcessElementKeeps | src/Plugin/simple_sitemap/UrlGenerator/UrlGeneratorBase.php:536 | processDataSet only records paths: buffers, counts and sandbox are unchanged |
| UrlGeneration.LoopKeepsOthers | src/Plugin/simple_sitemap/UrlGenerator/UrlGeneratorBase.php:534-541 | over the loop the context's buffer only grows at its end; every other buffer and every count is unchanged |
| UrlGeneration.LoopProgress | src/Plugin/simple_sitemap/UrlGenerator/UrlGeneratorBase.php:425-430 | in batch mode progress rises by exactly the number of elements, and current_id is the last key |
| UrlGeneration.LoopNoBatch | src/Plugin/simple_sitemap/UrlGenerator/UrlGeneratorBase.php:425-430 | outside batch mode the sandbox is never touched |
| UrlGeneration.GenerateAdvances | src/Plugin/simple_sitemap/UrlGenerator/UrlGeneratorBase.php:532-543 | a batch step advances progress by the number of elements taken, so the next step's window follows this one |
| UrlGeneration.GenerateKeepsOtherContexts | src/Plugin/simple_sitemap/UrlGenerator/UrlGeneratorBase.php:532-543 | generate for one context leaves the other contexts' buffers and delta counts alone |
| UrlGeneratorBase.ReplaceBaseUrlMoves | src/Plugin/simple_sitemap/UrlGenerator/UrlGeneratorBase.php:496-500 | a URL on the global base moves onto a non-empty custom base_url with its path kept; an empty base_url, or a URL without the global base, is left as it is |
| UrlGeneratorBase.LanguageAltsMembers | src/Plugin/simple_sitemap/UrlGenerator/UrlGeneratorBase.php:381-392 | the alternate map holds a langcode exactly when a language with it is selected; its URL is that language's rendering; no key repeats |
| UrlGeneratorBase.AlternatesSelection | src/Plugin/simple_sitemap/UrlGenerator/UrlGeneratorBase.php:315-330 | the three branches: default language only for unknown-language content under skip_untranslated; viewable selected translations for other such content; otherwise every selected language behind one anonymous check, none when denied |
| UrlGeneratorBase.BuildLanguageAlts | src/Plugin/simple_sitemap/UrlGenerator/UrlGeneratorBase.php:384-389 | the loop builds the map LanguageAlts describes |
| UrlGeneratorBase.AlternateUrlsForTranslatedLanguages | src/Plugin/simple_sitemap/UrlGenerator/UrlGeneratorBase.php:362-374 | unique langcodes; a langcode is present iff a selected, viewable translation has it |
| UrlGeneratorBase.AlternateUrlsForAllLanguages | src/Plugin/simple_sitemap/UrlGenerator/UrlGeneratorBase.php:381-392 | unique langcodes; with anonymous access, a langcode is present iff a selected site language has it; none without access |
| UrlGeneratorBase.GetImages | src/Plugin/simple_sitemap/UrlGenerator/UrlGeneratorBase.php:550-556 | one image per image URL, in order, each moved onto the custom base URL |
| UrlGeneratorBase.AddUrlFanOut | src/Plugin/simple_sitemap/UrlGenerator/UrlGeneratorBase.php:297-340 | a Url record becomes one buffered link per selected language, each at its language's URL and carrying the whole alternates map; the record's own langcode and alternates win under `+`; priority, changefreq, lastmod, images and meta are copied; a string URL is buffered as one link with the record's fields; only that buffer grows, at its end |
| UrlGeneratorBase.AddUrl | src/Plugin/simple_sitemap/UrlGenerator/UrlGeneratorBase.php:297-306 | buffers exactly AddedLinks |
| UrlGeneratorBase.AddUrlVariants | src/Plugin/simple_sitemap/UrlGenerator/UrlGeneratorBase.php:312-340 | picks the alternates, then appends one link per variant in map order |
| UrlGeneratorBase.AddVariantLinks | src/Plugin/simple_sitemap/UrlGenerator/UrlGeneratorBase.php:332-339 | the loop appends the variants in map order |
| UrlGeneratorBase.ArrayChunkConcat | src/Plugin/simple_sitemap/UrlGenerator/UrlGeneratorBase.php:443 | array_chunk loses and reorders nothing |
| UrlGeneratorBase.ArrayChunkAt | src/Plugin/simple_sitemap/UrlGenerator/UrlGeneratorBase.php:443 | piece j is the window of m elements at j·m |
| UrlGeneratorBase.ArrayChunkCount | src/Plugin/simple_sitemap/UrlGenerator/UrlGeneratorBase.php:443 | there are ⌈n/m⌉ pieces |
| UrlGeneratorBase.FullChunkAt | src/Plugin/simple_sitemap/UrlGenerator/UrlGeneratorBase.php:443-445 | each full piece holds exactly the m links from i·m on |
| UrlGeneratorBase.ArrayChunkFull | src/Plugin/simple_sitemap/UrlGenerator/UrlGeneratorBase.php:443-445 | exactly the first ⌊n/m⌋ pieces have m links; any later piece is shorter |
| UrlGeneratorBase.FlushBatchSpec | src/Plugin/simple_sitemap/UrlGenerator/UrlGeneratorBase.php:453-456 | one flush raises the count by one and drops the chunk from the front of the buffer |
| UrlGeneratorBase.ProcessSegment | src/Plugin/simple_sitemap/UrlGenerator/UrlGeneratorBase.php:435-460 | progress report, then the flush of every full chunk, as ProcessSegmentSpec |
| UrlGeneratorBase.FlushFullChunks | src/Plugin/simple_sitemap/UrlGenerator/UrlGeneratorBase.php:440-459 | with max_links set and at least that many links, flushes all full chunks; otherwise nothing |
| UrlGeneratorBase.FlushChunks | src/Plugin/simple_sitemap/UrlGenerator/UrlGeneratorBase.php:443-458 | the loop over array_chunk writes and drops every full piece, and stops before the short one |
| UrlGeneratorBase.FlushChunk | src/Plugin/simple_sitemap/UrlGenerator/UrlGeneratorBase.php:445-457 | a chunk is written as the next delta, with remove exactly when the count is 0; then the count rises and the chunk leaves the buffer |
| UrlGeneratorBase.FlushCount | src/Plugin/simple_sitemap/UrlGenerator/UrlGeneratorBase.php:440-445 | k = ⌊n/m⌋ ≥ 1 chunks with remainder n mod m when m is set and n ≥ m; otherwise 0 |
| UrlGeneratorBase.ProcessSegmentBuffer | src/Plugin/simple_sitemap/UrlGenerator/UrlGeneratorBase.php:440-459 | the buffer keeps its trailing n mod m links (all of them when nothing is flushed), and the count rises by the number of chunks |
| UrlGeneratorBase.ProcessSegmentLeavesPartial | src/Plugin/simple_sitemap/UrlGenerator/UrlGeneratorBase.php:440-459 | fewer than max_links links stay buffered |
| UrlGeneratorBase.ProcessSegmentFrame | src/Plugin/simple_sitemap/UrlGenerator/UrlGeneratorBase.php:435-460 | only the progress report and this context's buffer and count change |
| UrlGeneratorBase.ProcessSegmentGen | src/Plugin/simple_sitemap/UrlGenerator/UrlGeneratorBase.php:443-457 | the writes are one generateSitemap per full chunk in buffer order, with remove on the first only, and only when the count was 0; without a full chunk nothing is written |
| UrlGeneratorBase.ProcessSegmentRows | src/Plugin/simple_sitemap/UrlGenerator/UrlGeneratorBase.php:448-453 | the chunks become consecutive new rows after the kept rows; they replace the context's rows and start at delta 1 exactly when the count was 0; other contexts keep their rows |
| UrlGeneratorBase.ProcessSegmentWrites | src/Plugin/simple_sitemap/UrlGenerator/UrlGeneratorBase.php:440-459 | with a full chunk, the writes are GenerateAll over the full chunks |
| UrlGeneratorBase.FullChunksThenRest | src/Plugin/simple_sitemap/UrlGenerator/UrlGeneratorBase.php:443-456 | the flushed chunks followed by what stays buffered are the buffer |
| UrlGeneratorBase.Dedup | src/Plugin/simple_sitemap/UrlGenerator/EntityUrlGenerator.php:165-171 | the per-context check, then the global one, as DedupSpec |
| UrlGeneratorBase.DedupMeaning | src/Plugin/simple_sitemap/UrlGenerator/EntityUrlGenerator.php:165-171 | a duplicate iff a switched-on check already held the path; a per-context hit leaves the global list alone; otherwise every switched-on list holds the path; nothing else changes |
| UrlGeneratorBase.DedupSecondTime | src/Plugin/simple_sitemap/UrlGenerator/UrlGeneratorBase.php:272-292 | a path that passed is caught the next time while a check is on |
| UrlGeneratorBase.PrepareSpec | src/Plugin/simple_sitemap/UrlGenerator/UrlGeneratorBase.php:507-509 | in batch mode the sandbox is set afterwards |
| UrlGeneratorBase.IterationWindow | src/Plugin/simple_sitemap/UrlGenerator/UrlGeneratorBase.php:511-513 | batch mode takes batch_process_limit elements from progress on; otherwise all elements |
| UrlGeneratorBase.BatchIterationElements | src/Plugin/simple_sitemap/UrlGenerator/UrlGeneratorBase.php:506-514 | initialises the batch with the element count when the sandbox is empty, then returns the window |
| UrlGeneratorBase.IterationWindowsFollow | src/Plugin/simple_sitemap/UrlGenerator/UrlGeneratorBase.php:506-514 | a fresh run starts at element 0; a set sandbox is not re-initialised; successive windows follow without gap or overlap |
| EntityUrlGenerator.IsOverridden | src/Plugin/simple_sitemap/UrlGenerator/EntityUrlGenerator.php:118-123 | TRUE iff an enabled plugin names the type in overrides_entity_type |
| EntityUrlGenerator.GetDataSets | src/Plugin/simple_sitemap/UrlGenerator/EntityUrlGenerator.php:106-140 | the nested loops with `continue 2` build DataSets |
| EntityUrlGenerator.BundleDataSetsMembers | src/Plugin/simple_sitemap/UrlGenerator/EntityUrlGenerator.php:125-134 | one data set per bundle with a truthy index, and only those |
| EntityUrlGenerator.DataSetsMembers | src/Plugin/simple_sitemap/UrlGenerator/EntityUrlGenerator.php:113-136 | exactly the indexed bundles of supported, non-overridden types, each with its settings, bundle, type and keys |
| EntityUrlGenerator.ProcessDataSet | src/Plugin/simple_sitemap/UrlGenerator/EntityUrlGenerator.php:145-194 | the checks and the record, as ProcessSpec |
| EntityUrlGenerator.ProcessMeaning | src/Plugin/simple_sitemap/UrlGenerator/EntityUrlGenerator.php:145-194 | path data iff the entity is indexed, routed and not a duplicate; the first two checks leave the batch alone; the record's URL, lastmod, context, path and entity info, the bundle's priority, the changefreq or NULL when empty, the images only when include_images is set, and no langcode or alternates |
| EntityUrlGenerator.ProcessTwice | src/Plugin/simple_sitemap/UrlGenerator/EntityUrlGenerator.php:163-171 | with a dedup check on, the same entity is skipped the second time |
| EntityUrlGenerator.InsertById | src/Plugin/simple_sitemap/UrlGenerator/EntityUrlGenerator.php:203 | insertion adds exactly the entity |
| EntityUrlGenerator.InsertSorted | src/Plugin/simple_sitemap/UrlGenerator/EntityUrlGenerator.php:203 | insertion keeps the list sorted by id |
| EntityUrlGenerator.SortByIdSorts | src/Plugin/simple_sitemap/UrlGenerator/EntityUrlGenerator.php:202-204 | the sort is ascending by id and a permutation |
| EntityUrlGenerator.FilteredMembers | src/Plugin/simple_sitemap/UrlGenerator/EntityUrlGenerator.php:205-210 | the conditions keep exactly the matching entities |
| EntityUrlGenerator.QueryMeaning | src/Plugin/simple_sitemap/UrlGenerator/EntityUrlGenerator.php:199-210 | the query returns exactly the stored entities of the type matching bundle and status, ascending by id when the type has an id key |
| EntityUrlGenerator.BatchIterationElements | src/Plugin/simple_sitemap/UrlGenerator/EntityUrlGenerator.php:199-224 | initialises with the query's count when needed, then takes the window of the sorted result |
| MenuUrlGenerator.GetDataSets | src/Plugin/simple_sitemap/UrlGenerator/EntityMenuLinkContentUrlGenerator.php:109-121 | the loop builds DataSets |
| MenuUrlGenerator.IndexedMenusMembers | src/Plugin/simple_sitemap/UrlGenerator/EntityMenuLinkContentUrlGenerator.php:112-118 | a menu name is returned iff its settings have a truthy index |
| MenuUrlGenerator.ProcessDataSet | src/Plugin/simple_sitemap/UrlGenerator/EntityMenuLinkContentUrlGenerator.php:126-192 | the checks and the record, as ProcessSpec |
| MenuUrlGenerator.ProcessMeaning | src/Plugin/simple_sitemap/UrlGenerator/EntityMenuLinkContentUrlGenerator.php:126-192 | path data iff the link is enabled, routed, indexed by its instance settings when it has an entity id, and not a duplicate; the menu's own index is never consulted; entity info and lastmod iff the URL resolves to an entity; the menu's priority, the changefreq or NULL when empty, images only for an entity with include_images set, and no langcode or alternates |
| MenuUrlGenerator.ProcessTwice | src/Plugin/simple_sitemap/UrlGenerator/EntityMenuLinkContentUrlGenerator.php:154-162 | with a dedup check on, the same link is skipped the second time |
| MenuUrlGenerator.TopLevelLinks | src/Plugin/simple_sitemap/UrlGenerator/EntityMenuLinkContentUrlGenerator.php:203-206 | the loop as written takes one link per top-level item (length) |
| MenuUrlGenerator.CollectTopLevelLinks | src/Plugin/simple_sitemap/UrlGenerator/EntityMenuLinkContentUrlGenerator.php:203-206 | the foreach as written collects exactly TopLevelLinks |
| MenuUrlGenerator.TopLevelLinksMembers | src/Plugin/simple_sitemap/UrlGenerator/EntityMenuLinkContentUrlGenerator.php:203-206 | a link is listed iff it is the link of a top-level item; each listed link is in the tree |
| MenuUrlGenerator.TopLevelLinksFlatTree | src/Plugin/simple_sitemap/UrlGenerator/EntityMenuLinkContentUrlGenerator.php:200-207 | on a menu without nested items the loop as written and the flattening agree |
| MenuUrlGenerator.TopLevelLinksDropChildren | src/Plugin/simple_sitemap/UrlGenerator/EntityMenuLinkContentUrlGenerator.php:200-207 | a child link that is in the tree is missing from the loop's elements |
| MenuUrlGenerator.FlattenedLinksMembers | src/Plugin/simple_sitemap/UrlGenerator/EntityMenuLinkContentUrlGenerator.php:200-207 | the flattened tree holds exactly the tree's links, at every depth |
| MenuUrlGenerator.TopLevelLinksFlattened | src/Plugin/simple_sitemap/UrlGenerator/EntityMenuLinkContentUrlGenerator.php:203-206 | every top-level link is among the flattened links |
| MenuUrlGenerator.BatchIterationElements | src/Plugin/simple_sitemap/UrlGenerator/EntityMenuLinkContentUrlGenerator.php:197-216 | corrected: the links of the tree at every depth, renumbered from 0, then the base-class window |
| ArbitraryUrlGenerator.WithContext | src/Plugin/simple_sitemap/UrlGenerator/ArbitraryUrlGenerator.php:104-106 | every link ends up with a non-empty context |
| ArbitraryUrlGenerator.Filled | src/Plugin/simple_sitemap/UrlGenerator/ArbitraryUrlGenerator.php:103-107 | the first loop fills in each link's context, in order |
| ArbitraryUrlGenerator.GetDataSets | src/Plugin/simple_sitemap/UrlGenerator/ArbitraryUrlGenerator.php:98-116 | the two loops and the reindex build DataSets |
| ArbitraryUrlGenerator.KeptForMembers | src/Plugin/simple_sitemap/UrlGenerator/ArbitraryUrlGenerator.php:108-112 | a link is kept iff its context is the requested one or the default |
| ArbitraryUrlGenerator.DataSetsMeaning | src/Plugin/simple_sitemap/UrlGenerator/ArbitraryUrlGenerator.php:98-116 | returned links belong to the context or the default; an empty context comes back as the default; the context's own links come back unchanged; no more links than supplied; any split of the supplied list keeps its two parts in order |
| ArbitraryUrlGenerator.KeptForAppend | src/Plugin/simple_sitemap/UrlGenerator/ArbitraryUrlGenerator.php:108-115 | the filter keeps the links of a + b as those of a followed by those of b |
| ArbitraryUrlGenerator.DataSetsOrder | src/Plugin/simple_sitemap/UrlGenerator/ArbitraryUrlGenerator.php:98-116 | the data sets are the kept links of any prefix of the supplied list followed by those of the rest, each link kept iff its context matches |
| SitemapGenerator.AltLinkNodes | src/SitemapGenerator.php:229-237 | one `xhtml:link` per alternate, in map order |
| SitemapGenerator.ImageNodes | src/SitemapGenerator.php:255-261 | one `image:image` per image path, in order |
| SitemapGenerator.UrlEntriesAt | src/SitemapGenerator.php:220-264 | `url` i is the element of link i |
| SitemapGenerator.UrlEntryOrder | src/SitemapGenerator.php:223-263 | the children come in the order loc, xhtml:link, lastmod, changefreq, priority, image:image, with loc first |
| SitemapGenerator.UrlEntryCounts | src/SitemapGenerator.php:223-263 | one loc; one xhtml:link per alternate iff the link has alternates and the sitemap is hreflang; lastmod, changefreq and priority each iff set; one image per path |
| SitemapGenerator.DeltaDocumentShape | src/SitemapGenerator.php:207-265 | a `urlset` root with one `url` per link, in input order, each located at the link's URL |
| SitemapGenerator.KeptLanguages | src/SitemapGenerator.php:111 | the configured langcodes minus the excluded ones |
| SitemapGenerator.RemoveKey | src/SitemapGenerator.php:211 | unset leaves no pair with the key |
| SitemapGenerator.RemoveKeyIdempotent | src/SitemapGenerator.php:210-212 | unsetting twice is unsetting once |
| SitemapGenerator.MaxDeltaAttained | src/SitemapGenerator.php:138-139 | MAX(delta) of non-empty rows is one of the deltas and bounds all of them |
| SitemapGenerator.MaxDeltaSnoc | src/SitemapGenerator.php:138-139 | appending a row raises MAX(delta) to its delta when that is larger |
| SitemapGenerator.ConsecutiveNext | src/SitemapGenerator.php:137-139 | on rows numbered 1..n the next delta is n + 1 |
| SitemapGenerator.GenerateSitemapRows | src/SitemapGenerator.php:134-147 | with remove, the context's rows become the single delta 1; otherwise MAX+1 (1 for no rows) is appended; other contexts unchanged; consecutive numbering preserved |
| SitemapGenerator.HreflangIsCached | src/SitemapGenerator.php:109-123 | after a delta the hreflang answer is cached, and later settings changes do not alter it |
| SitemapGenerator.AttributesEvolve | src/SitemapGenerator.php:210-215 | the root always has xmlns and xmlns:image; xmlns:xhtml disappears after the first non-hreflang document and never returns |
| SitemapGenerator.GenerateSettled | src/SitemapGenerator.php:134-147 | in a settled state a write without remove only appends the next row |
| SitemapGenerator.AfterDeltaSettled | src/SitemapGenerator.php:109-114 | a second document leaves the cache and attributes as the first left them |
| SitemapGenerator.GenerateAllRows | src/SitemapGenerator.php:134-147 | k chunks written in a row become k rows in chunk order, numbered from 1 (remove) or MAX+1, each holding its chunk's document; other contexts untouched |
| SitemapGenerator.GenerateAllNumbering | src/SitemapGenerator.php:134-147 | kept rows stay in front, MAX(delta) rises by the number of chunks, with remove the first new row is delta 1 |
| SitemapGenerator.GenerateAllRowAt | src/SitemapGenerator.php:134-147 | the i-th chunk's row sits right after the kept rows plus i, numbered accordingly |
| SitemapGenerator.Generator.constructor | src/SitemapGenerator.php:68-72 | no settings, no cached answer, the initial root attributes, the given table |
| SitemapGenerator.Generator.SetSettings | src/SitemapGenerator.php:120-123 | replaces the settings only; the hreflang cache survives |
| SitemapGenerator.Generator.IsHreflangSitemap | src/SitemapGenerator.php:109-114 | the cached answer, or more than one kept language; the answer is then cached |
| SitemapGenerator.Generator.WriteUrl | src/SitemapGenerator.php:223-263 | writes exactly UrlEntry for the link |
| SitemapGenerator.Generator.WriteAltLinks | src/SitemapGenerator.php:229-237 | the loop writes AltLinkNodes |
| SitemapGenerator.Generator.WriteImages | src/SitemapGenerator.php:255-261 | the loop writes ImageNodes |
| SitemapGenerator.Generator.WriteUrls | src/SitemapGenerator.php:220-264 | the loop writes one `url` per link, in order |
| SitemapGenerator.Generator.GenerateSitemapDelta | src/SitemapGenerator.php:202-269 | the document is DeltaOf the state; the hreflang answer is cached and xmlns:xhtml unset unless hreflang |
| SitemapGenerator.Generator.GenerateSitemap | src/SitemapGenerator.php:134-147 | numbers, writes and stores one delta, as GenerateSitemapSpec |
| SitemapGenerator.Generator.GetCustomBaseUrl | src/SitemapGenerator.php:188-191 | the configured base_url, or the global one when it is empty |
| SitemapGenerator.Generator.GenerateSitemapIndex | src/SitemapGenerator.php:157-183 | a `sitemapindex` root with xmlns only and one `sitemap` per delta, in order, at base URL + delta route, dated by its creation |
| Form.InvalidPriorityExamples | src/Form.php:250-252 | -0.1, 1.1, "abc", NULL and TRUE are not valid priorities |
| Form.ValidPriorityExamples | src/Form.php:250-252 | 0, 0.5 and 1 are valid (both bounds included) |
| Form.FormatPriority | src/Form.php:246-248 | a tenth k is shown as three characters d.d |
| Form.FormatPriorityValue | src/Form.php:246-248 | the shown tenth reads back as k/10 |
| Form.FormatPriorityInjective | src/Form.php:246-248 | different tenths are shown differently |
| Form.FormattedPriorityIsValid | src/Form.php:246-252 | every tenth from 0 to 10 is shown as a valid priority worth k/10 |
| Form.GetPrioritySelectValues | src/Form.php:237-244 | 11 options, each keyed by its own label, for 0.0 to 1.0 |
| Form.PriorityOptionsIncrease | src/Form.php:237-244 | the options strictly increase, from "0.0" to "1.0" |
| Form.ValuesChanged | src/Form.php:223-230 | TRUE iff one of the three fields is submitted and differs loosely from its default |
| Form.ValuesChangedNeedsSubmission | src/Form.php:223-230 | fields that are not submitted never count as changes |
| Form.FormEntityOf | src/Form.php:196-204 | a form entity exists iff the form object has getEntity() and a default, edit or add operation |
| Form.AltersFormMeaning | src/Form.php:33-64 | a form is altered iff permission, an entity of some category, an enabled type and (for an instance) an indexed bundle; the category is instance, else bundle (also for menus) |
| Form.EntityForm.constructor | src/Form.php:33-46 | records the decision and the entity data (none without permission or form state) |
| Form.EntityForm.DisplayEntitySitemapSettings | src/Form.php:94-140 | writes the fragment Displayed describes |
| Form.DisplayedLookup | src/Form.php:94-136 | a key of the fragment holds the priority default, the index default (single forms only), or its old value |
| Form.DefaultsWhenUnset | src/Form.php:97-105 | with nothing stored, index 0 and priority 0.5; a stored value is shown as it is |
| Simplesitemap.AddLinkSettings | src/Simplesitemap.php:257-272 | the loop writes LinkSettings |
| Simplesitemap.LinkSettingsMeaning | src/Simplesitemap.php:257-272 | a key is set iff it was set before or is an allowed given key; an allowed given key holds the given value; every other key keeps its value |
| Simplesitemap.LinkSettingsKeeps | src/Simplesitemap.php:21-23 | a key the link type does not allow is never written |
| Simplesitemap.PriorityNotFiltered | src/Simplesitemap.php:260-269 | an invalid priority is stored all the same; entity links take an index, custom links do not |
| Simplesitemap.EnableMeaning | src/Simplesitemap.php:93-100 | the type is enabled with its settings kept; a new type gets an empty entry; nothing else changes; idempotent |
| Simplesitemap.DisableMeaning | src/Simplesitemap.php:113-120 | the type, its bundle settings and its overrides are gone; a no-op when absent; other types unchanged |
| Simplesitemap.DisableUndoesEnable | src/Simplesitemap.php:93-120 | disabling a freshly enabled type restores the configuration |
| Simplesitemap.SetBundleSettingsMeaning | src/Simplesitemap.php:136-142 | the type is enabled; the bundle's settings are the old ones merged with the given ones; overrides kept; other bundles and types unchanged |
| Simplesitemap.SetThenGetBundleSettings | src/Simplesitemap.php:136-193 | reading back gives the values set (a NULL bundle means the type); the bundle is indexed iff the index is non-empty |
| Simplesitemap.SetInstanceSettingsMeaning | src/Simplesitemap.php:154-177 | nothing without bundle settings; an entity loosely equal to its bundle reads the bundle's settings; a differing one reads its merged override; the bundle and other overrides never change |
| Simplesitemap.LooseComparisonRemovesOverride | src/Simplesitemap.php:160-173 | TRUE vs 1 and "0.50" vs "0.5" are no difference, so the override is removed |
| Simplesitemap.LooselyEqualSettings | src/Simplesitemap.php:162-167 | an index TRUE and a priority with a trailing fractional zero do not differ loosely from an index 1 and the priority without it |
| Php.TrailingZeroLooselyEqual | src/Simplesitemap.php:163 | a numeric string with a trailing zero in its fraction is loosely equal to the one without ("0.50" == "0.5") |
| Php.LooseEqLeadingNumber | src/Simplesitemap.php:163 | PHP 7 compares an integer with a string by the string's leading number: 1 == "1abc", 0 == "abc", 1 != "abc" |
| Simplesitemap.FindLinkMeaning | src/Simplesitemap.php:231-239 | the first link with the path, or none has it |
| Simplesitemap.AddCustomLinkMeaning | src/Simplesitemap.php:212-229 | a rejected path changes nothing; an accepted link is found again with the merged settings; the list grows iff the path was new; other links unchanged; a path that was there at most once is there exactly once |
| Simplesitemap.NewCustomLinkMatches | src/Simplesitemap.php:225-226 | the written link carries the path |
| Simplesitemap.AddCustomLinkFound | src/Simplesitemap.php:217-225 | the link sits at the first match's key, or at the end, and is the first with the path |
| Simplesitemap.AddCustomLinkOnce | src/Simplesitemap.php:212-229 | a path at most once before is at most once after |
| Simplesitemap.RemoveCustomLinkMeaning | src/Simplesitemap.php:241-251 | afterwards no link has the path and getCustomLink gives FALSE; unchanged when absent |
| Simplesitemap.RemoveUndoesAdd | src/Simplesitemap.php:212-251 | removing a just-added new path restores the configuration |
| Simplesitemap.RemoveAsWrittenLosesLink | src/Simplesitemap.php:243-248 | the loop as written turns ['/a', '/a', '/b'] into ['/a'] |
| Simplesitemap.RemoveAsWrittenAgrees | src/Simplesitemap.php:241-251 | with the path at most once, the loop as written and the corrected removal agree |
| Simplesitemap.FindFirst | src/Simplesitemap.php:218-223 | the first hit, with no earlier one, or none at all |
| Simplesitemap.FindFirstUnique | src/Simplesitemap.php:218-223 | any first-hit search result equals FindFirst |
| Simplesitemap.SearchFirst | src/Simplesitemap.php:218-223 | the loop that breaks at the first match finds FindFirst |
| Simplesitemap.KeepOthers | src/Simplesitemap.php:243-248 | the loop keeps the non-matching links in order, and tells whether any matched |
| Simplesitemap.FilterMembers | src/Simplesitemap.php:243-248 | the kept links are exactly the non-matching ones |
| Simplesitemap.FilterOne | src/Simplesitemap.php:243-248 | with one match, filtering is unset-and-reindex at its key |
| Simplesitemap.UnsetLoopOne | src/Simplesitemap.php:243-248 | with one match, the loop as written is unset-and-reindex at its key |
| Simplesitemap.SaveSettingMeaning | src/Simplesitemap.php:356-361 | the saved value is read back (FALSE for NULL); nothing else changes |
| Simplesitemap.GetSitemapMeaning | src/Simplesitemap.php:285-303 | a known id gives its chunk; an unknown id acts like none; the index only for several chunks; FALSE only for at most one chunk that is not chunk 1 |
| Simplesitemap.GetSitemapSingleChunkNotOne | src/Simplesitemap.php:293-297 | a single chunk stored under a key other than 1 gives FALSE |
| Simplesitemap.Store.constructor | src/Simplesitemap.php:34-43 | the store holds the loaded configuration |
| Simplesitemap.Store.EnableEntityType | src/Simplesitemap.php:93-100 | new configuration is EnableSpec |
| Simplesitemap.Store.DisableEntityType | src/Simplesitemap.php:113-120 | new configuration is DisableSpec |
| Simplesitemap.Store.SetBundleSettings | src/Simplesitemap.php:136-142 | new configuration is SetBundleSettingsSpec |
| Simplesitemap.Store.SetEntityInstanceSettings | src/Simplesitemap.php:154-177 | the loose comparison loop, then store or remove the override, as SetInstanceSettingsSpec |
| Simplesitemap.Store.AddCustomLink | src/Simplesitemap.php:212-229 | the search loop, then update in place or append, as AddCustomLinkSpec, returning the acceptance |
| Simplesitemap.Store.RemoveCustomLink | src/Simplesitemap.php:241-251 | corrected: drops every link with the path and keeps the others in order, saving only when one matched |
| Simplesitemap.Store.RemoveCustomLinks | src/Simplesitemap.php:253-255 | no custom links are left; nothing else changes |
| Simplesitemap.Store.SaveSetting | src/Simplesitemap.php:356-361 | new configuration is SaveSettingSpec |
| SettingsForm.ValidateForm | src/Form/SimplesitemapSettingsForm.php:104-116 | max_links loosely equal to '' passes; otherwise it is an error iff not a positive integer; batch_process_limit is an error iff not a positive integer; the checks are independent |
| SettingsForm.WrittenPositiveIntegersAccepted | src/Form/SimplesitemapSettingsForm.php:112-115 | any whole numbers from 1 up, written in decimal, pass both checks |
| SettingsForm.EmptyValuesExample | src/Form/SimplesitemapSettingsForm.php:105-115 | an empty max_links passes, an empty batch_process_limit does not |
| SettingsForm.BothErrorsExample | src/Form/SimplesitemapSettingsForm.php:104-116 | "abc" and "0" raise both errors |
| SettingsForm.FractionExample | src/Form/SimplesitemapSettingsForm.php:112-115 | "1.5" is rejected, and a missing max_links passes |
| SettingsForm.RejectedExamples | src/Form/SimplesitemapSettingsForm.php:107 | "", "abc", "0" and "1.5" are not positive integers |
| Php.NatToStringParses | src/Form/SimplesitemapSettingsForm.php:113 | a natural number written in decimal reads back as itself |
| Php.NumericSpellings | src/Form/SimplesitemapSettingsForm.php:107 | is_numeric as in PHP 7: "1e3" is 1000, " 5" is 5, "5 " is not numeric |
| SettingsForm.NumericSpellingsAccepted | src/Form/SimplesitemapSettingsForm.php:104-116 | a max_links of "1e3" and a batch_process_limit of " 5" pass |
| SettingsForm.TrailingWhitespaceRejected | src/Form/SimplesitemapSettingsForm.php:112-115 | a batch_process_limit of "5 " is rejected |
| SettingsForm.SubmitForm | src/Form/SimplesitemapSettingsForm.php:121-127 | each form setting saved in turn, as SavedSettings |
| SettingsForm.SavedSettingsMeaning | src/Form/SimplesitemapSettingsForm.php:123-125 | each named setting holds its submitted value; other settings, entity types and custom links unchanged |
| SettingsForm.SubmitSavesFormSettings | src/Form/SimplesitemapSettingsForm.php:121-127 | exactly max_links, cron_generate, remove_duplicates and batch_process_limit change, and read back as submitted (FALSE when missing) |
| EntitiesForm.SubmitForm | src/Form/SimplesitemapEntitiesForm.php:87-112 | every submitted field in turn, then regenerate iff simple_sitemap_regenerate_now is truthy |
| EntitiesForm.SubmitFieldOtherTypes | src/Form/SimplesitemapEntitiesForm.php:90-104 | a field leaves every other type's enabled state alone |
| EntitiesForm.SubmitFieldOwnType | src/Form/SimplesitemapEntitiesForm.php:93-103 | a type's own field leaves it enabled iff its value is truthy |
| EntitiesForm.SubmitFieldsEnabled | src/Form/SimplesitemapEntitiesForm.php:90-105 | afterwards a type is enabled iff its `_enabled` field is truthy; a type without one keeps its state |
| EntitiesForm.SubmitFieldsIgnoresOthers | src/Form/SimplesitemapEntitiesForm.php:90-91 | fields not ending in `_enabled` change nothing |
| EntitiesForm.SubmitFieldAtomic | src/Form/SimplesitemapEntitiesForm.php:95-99 | a truthy atomic type gets bundle (id, id) with index TRUE and the submitted priority, and is indexed |
| EntitiesForm.EnabledFieldNames | src/Form/SimplesitemapEntitiesForm.php:91-92 | a field is its type id plus `_enabled`, and every type id has its field |
| EntitiesForm.LabelOf | src/Form/SimplesitemapEntitiesForm.php:52 | a truthy label is used, an empty or "0" label gives way to the id |
| EntitiesForm.Labelled | src/Form/SimplesitemapEntitiesForm.php:51-53 | each type id with its label or its id, in order |
| EntitiesForm.LabelLeTotal | src/Form/SimplesitemapEntitiesForm.php:54 | any two labels are ordered |
| EntitiesForm.InsertByLabel | src/Form/SimplesitemapEntitiesForm.php:54 | insertion adds exactly the entry |
| EntitiesForm.InsertByLabelSorted | src/Form/SimplesitemapEntitiesForm.php:54 | insertion keeps the list sorted by label |
| EntitiesForm.SortByLabelSorts | src/Form/SimplesitemapEntitiesForm.php:54 | asort orders by label and is a permutation |
| EntitiesForm.ClientId | src/Form/SimplesitemapEntitiesForm.php:70 | same length, no '_' left, each '_' replaced by '-' |
| EntitiesForm.StrReplaceCharAt | src/Form/SimplesitemapEntitiesForm.php:70 | str_replace('_', '-') works character by character |
| EntitiesForm.UnderscoreBecomesDash | src/Form/SimplesitemapEntitiesForm.php:70 | an '_' at position i becomes '-' at position i |
| EntitiesForm.Rows | src/Form/SimplesitemapEntitiesForm.php:58-79 | one row per sorted entry, open iff its type is enabled |
| EntitiesForm.ClientIds | src/Form/SimplesitemapEntitiesForm.php:70 | the client ids of all rows, in row order |
| EntitiesForm.AtomicClientIdsMembers | src/Form/SimplesitemapEntitiesForm.php:77 | an id is listed as atomic iff it is the client id of an atomic row |
| EntitiesForm.BuildForm | src/Form/SimplesitemapEntitiesForm.php:50-79 | the label map, the sort, then the rows and both client id lists |
| EntitiesForm.LabelMap | src/Form/SimplesitemapEntitiesForm.php:50-53 | the first loop builds Labelled |
| EntitiesForm.RowsFor | src/Form/SimplesitemapEntitiesForm.php:58-79 | the second loop builds the rows and the client id lists |
| EntitiesForm.RowsMeaning | src/Form/SimplesitemapEntitiesForm.php:58-79 | the rows are ordered by label, hold each type as often as given, labelled by label or id, and are open iff enabled |

## Left out

- Module alter hooks (`simple_sitemap_links`, `_attributes`, `_index_attributes`, `_bundle_settings`, `_arbitrary_links`) are modelled as the identity. The arbitrary links are an input.
- The path validator of `addCustomLink()` is a boolean parameter, `pathValid`.
- Entity, menu and menu-tree loading, and the entity queries, are inputs (`Env`). The database is a map from context to rows.
- URL rendering, route generation, access checks, translation lookup, `getEntityFromUrlObject` and image URLs are uninterpreted functions of `Env`. So are `entityTypeIsAtomic` and the list of sitemap entity types.
- Settings lookups inside the producers are functions of `Env`, not the settings store. The producers and the store call them with different argument lists.
- XML bytes are not modelled: XMLWriter indentation, escaping, the XML declaration and the generated-by comment. Documents are element trees.
- Floating point is not modelled:
  - priorities are the numeric strings the forms submit;
  - `FormatPriority` works on tenths 0..10;
  - `context['finished']` is kept as progress and max.
- `date_iso8601` and `REQUEST_TIME` are not modelled: the creation time is a parameter `now`, and index dates come from a given formatter.
- Form render arrays, `t()` strings, `drupalSettings` and permissions are not modelled; permission is a boolean input.
- `submitForm()` of the entity types form does not call the regeneration. It returns whether regeneration is asked for.
- `Simplesitemap::CONTEXT_DEFAULT` is not defined in the class; the model takes it to be `"default"`.
- EntitiesForm.SortByLabel: asort is modelled as comparing labels character by character. PHP's comparison of numeric labels is not modelled, and neither is the order of equal labels.
- The Batch API driver that calls `generate()` repeatedly is not modelled. Neither is its final flush of a trailing partial buffer, which lives in the Batch API callback, outside the modelled classes.
- `src/Plugin/LinkGenerator/Menu.php` is not part of this model: it is a legacy wrapper over a database query.
- `UrlGeneratorInterface.php` is not part of this model: the producers are a datatype, `UrlGeneration.Producer`, dispatched by `match`.
- The rendering of `getSitemapIndex()` is not modelled. The choice between chunk and index is.
- PHP values beyond NULL, booleans, integers and strings are not modelled: no floats, and no arrays as setting values. The falsiness of an empty array is therefore not modelled.
- Integer widths are not modelled; counters are unbounded.
- Generate (UrlGeneration.Generate): follows the corrected menu listing (FlattenedLinks), so a nested menu link is listed; the loop as written, which lists top-level links only, is modelled by MenuUrlGenerator.TopLevelLinks and CollectTopLevelLinks and compared with the corrected one under "## Findings".
- Generate (UrlGeneration.Generate): for the entity and menu producers a NULL data set is outside the model (`Accepts`). generate() then passes getDataSets()'s whole list where getBatchIterationElements() reads one data set; the batch passes one data set per operation.
- IterationElements (UrlGeneration.IterationElements): lists menus through the corrected FlattenedLinks, not the top-level loop as written.
- BatchIterationElements (MenuUrlGenerator.BatchIterationElements): windows the corrected FlattenedLinks; the loop as written is CollectTopLevelLinks, which drops nested links (TopLevelLinksDropChildren).
- RemoveCustomLink (Simplesitemap.Store.RemoveCustomLink): drops every link with the path, as intended; the loop as written, which can keep a duplicate and drop an unrelated link, is modelled by Simplesitemap.RemoveAsWritten.
- Php.ParseDecimal: numbers are exact rationals; the conversion to float, its rounding and its overflow to INF are not modelled.

## Findings

| source | as written | input that shows it | evidently intended | confidence | as-written member | corrected member |
|---|---|---|---|---|---|---|
| src/Plugin/simple_sitemap/UrlGenerator/EntityMenuLinkContentUrlGenerator.php:203-206 | the loop takes the link of each top-level tree item only; the tree is not flattened | a menu whose one top-level item has a child: the child's link is never listed | every link of the menu, at any depth, in menu order | not executed | MenuUrlGenerator.TopLevelLinksDropChildren | MenuUrlGenerator.FlattenedLinksMembers |
| src/Simplesitemap.php:243-248 | each match is unset by its original key in an array that earlier removals have already renumbered | custom links with paths ['/a', '/a', '/b'], removing '/a': the second '/a' stays and '/b' is lost | drop every link with the path and keep the others in order | not executed | Simplesitemap.RemoveAsWrittenLosesLink | Simplesitemap.RemoveCustomLinkMeaning |
