# VoxVisual sales-data core, modelled in Dafny

VoxVisual answers natural-language questions about a sales dataset with an
animated SVG chart. The model covers three parts of it:

- **The record query engine behind the `fetch_data` tool** (`data_connector.dfy`).
  - Filtering by optional month, category and region lists.
  - Grouping by a tuple of dimensions. Units and revenue are summed, and the
    average unit price is weighted by units.
  - The response `handle_fetch_data` builds once the dataset has been looked up.
- **The PedalForce Bicycles 2025 demo dataset** (`seed_dataset.dfy`).
  - The constant tables and their arithmetic invariants.
  - The triple loop that builds one record per (month, category, region) triple.
  - The dataset document.
  - The skip-or-seed branch and its summary.
- **Response shaping around the model conversation** (`claude_integration.dfy`).
  - Stripping whitespace and a Markdown code fence from the reply.
  - The `fetch_data` tool loop, bounded at 10 rounds, with its collected filters.
  - The fixed three-key result, with its fallbacks.

Shared pieces:

- `sales_data.dfy` holds the record and dataset types, and sums of a measure over records.
- `sequences.dfy` holds generic sequence facts: subsequences, first index, and
  de-duplication in first-appearance order.
- `wrappers.dfy` holds `Option` and `Result`.
- `seeded_queries.dfy` runs the query engine over the seeded records. It derives the
  record and group counts that `tests/test_data_layer.py` expects.

Python's `defaultdict` loop and the `for` loops that append to lists are
modelled as Dafny methods with loop invariants. The dict's insertion order is
kept as a sequence of keys beside the map.

Each method is proved equal to a reference function. The properties are proved
as lemmas about that function:

- filtering selects exactly the records that pass every given filter;
- grouping gives one bucket per distinct key, in first-appearance order, and
  conserves the totals;
- the seeder lays out 240 distinct triples in month-major order;
- fence stripping returns a trimmed slice of the reply, and gives back the body
  of a fenced reply;
- the tool loop is bounded and well formed;
- the result always has exactly three keys;
- over the seeded records, each filter and grouping in the data-layer tests gives
  the count those tests expect (`HandleFetchData` reports `rows.Count()` as
  `record_count`).

## Model

| member | source | states |
|---|---|---|
| DataConnector.Keep | backend/data_connector.py:112-120 | One comprehension keeps at most its input's records, each with its field in the value list; `KeepSnoc` and `FilterMembership` pin down exactly which. |
| DataConnector.ApplyFilters | backend/data_connector.py:103-122 | The three passes never lengthen the list; `FiltersAsOnePass` equates them with the one-pass selection. |
| DataConnector.FiltersAsOnePass | backend/data_connector.py:103-122 | The month, category and region passes keep exactly the records that pass every given filter. They keep them in input order, as one combined pass would. |
| DataConnector.NoFilterKeepsAll | backend/data_connector.py:105-120 | When every list is absent or empty (falsy), filtering returns the records unchanged. |
| DataConnector.FilterMembership | backend/data_connector.py:112-120 | A record survives filtering iff it is in the input and its month, category and region are each in the corresponding list whenever that list is given. |
| DataConnector.FilterIsSubsequence | backend/data_connector.py:112-120 | The filtered records are a subsequence of the input: order is kept, nothing is added, and the length never grows. |
| DataConnector.AveragePrice | backend/data_connector.py:152-156 | A group with no units gets average price 0. |
| DataConnector.AveragePriceWeights | backend/data_connector.py:152-156 | For a non-zero unit count, the average price times the units gives back the weighted price sum. |
| DataConnector.CopyDims | backend/data_connector.py:144-145 | The loop over `group_by` leaves the bucket's earlier fields, overwritten by the record's value on each grouping dimension. |
| DataConnector.Absorb | backend/data_connector.py:141-148 | The bucket gets its key's dimension fields, and its units, revenue and weighted price each grow by the record's amount. |
| DataConnector.KeyOf | backend/data_connector.py:140 | The group key has one entry per `group_by` dimension, the record's value for that dimension. |
| DataConnector.Lookup | backend/data_connector.py:134-141 | Looking up a key absent from the dict gives the default bucket with no dims and zero sums; a present key gives its bucket. |
| DataConnector.AddRecord | backend/data_connector.py:139-148 | Only the record's own key changes in the dict. A new key is appended to the insertion order, and an existing key keeps the order as it was. |
| DataConnector.TallyStep | backend/data_connector.py:139-148 | One iteration of the first pass keeps two facts. The key order is the first-appearance order of the keys seen so far. Each bucket holds the sums over exactly the records seen so far with its key. |
| DataConnector.TallyRecords | backend/data_connector.py:135-148 | After the first pass, the dict's keys are the distinct keys of the records, in first-appearance order. Each bucket holds its key's sums. |
| DataConnector.Aggregate | backend/data_connector.py:150-157 | The second pass turns the buckets, in dict order, into the groups of the reference definition. |
| DataConnector.ApplyGroupBy | backend/data_connector.py:125-159 | An empty `group_by` returns the records unchanged. Otherwise the result is one bucket per distinct key in first-appearance order, each summing exactly its key's records. |
| DataConnector.OneBucketPerKey | backend/data_connector.py:135-157 | The group keys are pairwise distinct, and there are no more of them than records. Every record's key has a group, and every group's key belongs to some record. |
| DataConnector.GroupsInFirstAppearanceOrder | backend/data_connector.py:139-157 | Of two groups, the one listed first is the one whose key first appears earlier among the records. |
| DataConnector.BucketDims | backend/data_connector.py:142-145 | A group carries exactly the grouping fields. Their values equal those of every record with the group's key. |
| DataConnector.BucketSums | backend/data_connector.py:146-147 | A group's units and revenue are the sums over exactly the records with its key. |
| DataConnector.BucketAveragePrice | backend/data_connector.py:148-156 | A group with zero units has average price 0. Otherwise the average price is the units-weighted price sum of its records divided by its units. |
| DataConnector.AccForSnoc | backend/data_connector.py:139-148 | Adding a record changes only the sums of its own key, each by the record's amount. |
| DataConnector.GroupingConservesTotals | backend/data_connector.py:146-147 | Summed over all groups, units and revenue equal their totals over the input records. |
| DataConnector.NotFoundMessage | backend/data_connector.py:197-198 | The not-found error text names the requested dataset id. |
| DataConnector.HandleFetchData | backend/data_connector.py:194-219 | A missing dataset gives the error object. Otherwise the response carries the dataset id, company name, currency and the filtered (then, if `group_by` is non-empty, grouped) rows, with `record_count` equal to their number. |
| DataConnector.FetchAllRecords | backend/data_connector.py:203-209 | A request without filters or grouping, or with empty ones, returns every stored record. |
| DataConnector.QueryCountBound | backend/data_connector.py:203-216 | `record_count` never exceeds the number of stored records. |
| DataConnector.QueryConservesTotals | backend/data_connector.py:203-209 | A grouped query keeps the units and revenue totals of the filtered records. |
| SeedDataset.SeasonalWeights | scripts/seed_dataset.py:79-82 | Each month's weight times the grand total is that month's revenue target. |
| SeedDataset.CategoryRevenueIsUnitsTimesPrice | scripts/seed_dataset.py:50-57 | Every category's annual revenue is its annual units times its unit price. |
| SeedDataset.GrandTotalIsSumOfCategories | scripts/seed_dataset.py:51-59 | `GRAND_TOTAL_REVENUE` is the sum of the category revenues. |
| SeedDataset.SharesSumToOne | scripts/seed_dataset.py:84-90 | The regional shares add up to 100 hundredths. |
| SeedDataset.MonthlyTargetsSumToGrandTotal | scripts/seed_dataset.py:59-76 | The monthly revenue targets add up to the grand total. |
| SeedDataset.SeasonalWeightsSumToOne | scripts/seed_dataset.py:63-82 | The seasonal weights add up to exactly 1. |
| SeedDataset.TableNamesDistinct | scripts/seed_dataset.py:51-90 | Within each table, the month, category and region names are pairwise different. |
| SeedDataset.MakeRecord | scripts/seed_dataset.py:113-123 | A record carries its triple's names, `max(1, estimate)` units, its category's price, and revenue equal to units times that price. |
| SeedDataset.AppendRegions | scripts/seed_dataset.py:112-124 | The innermost loop appends one record per region, in table order. |
| SeedDataset.AppendCategories | scripts/seed_dataset.py:108-124 | The middle loop appends the records of one month, category by category. |
| SeedDataset.CategoryStep | scripts/seed_dataset.py:108-124 | Appending the region rows of category j to the rows of the first j categories gives the rows of the first j + 1 categories. |
| SeedDataset.BuildRecords | scripts/seed_dataset.py:97-126 | The triple loop returns the month-major sequence of records of the reference definition. |
| SeedDataset.MonthRowsAt | scripts/seed_dataset.py:107-124 | Triple (i, j, k) of the tables is at position i·(categories·regions) + j·regions + k. |
| SeedDataset.MonthRowsBlock | scripts/seed_dataset.py:107-124 | Month block i of the records is exactly that month's category-major rows. |
| SeedDataset.RecordLayout | scripts/seed_dataset.py:97-126 | There are exactly 240 records, and the triple (i, j, k) is at position 20i + 4j + k. |
| SeedDataset.RecordAt | scripts/seed_dataset.py:107-124 | Record p belongs to month p / 20, category (p mod 20) / 4 and region p mod 4. |
| SeedDataset.EveryTriplePresent | scripts/seed_dataset.py:107-124 | Every (month, category, region) triple of the tables is carried by some record. |
| SeedDataset.TriplePresent | scripts/seed_dataset.py:107-124 | One given (month, category, region) triple of the tables is carried by some record. |
| SeedDataset.TriplesDistinct | scripts/seed_dataset.py:107-124 | No two records carry the same triple, so each triple appears exactly once. |
| SeedDataset.RecordInvariants | scripts/seed_dataset.py:109-123 | Every record names a month, a category and a region of the tables. It has at least one unit, is priced at its category's table price, and has revenue equal to units times that price. |
| SeedDataset.BuildDataset | scripts/seed_dataset.py:129-131 | The document keeps every descriptive field and adds the built records. |
| SeedDataset.DatasetSchema | scripts/seed_dataset.py:36-47 | The document's id, company, currency and fiscal year are as listed. Its category and region lists are exactly the table names. |
| SeedDataset.Seed | scripts/seed_dataset.py:159-189 | Without `force`, an existing key is skipped with the fixed message and nothing is written. Otherwise the dataset is written, and the summary gives the key, the record count (240), the summed record revenue and the fiscal year (2025). |
| SeededQueries.SelectedAppend | backend/data_connector.py:112-120 | Filtering two lists one after the other keeps the same records, in the same order, as filtering their concatenation. |
| SeededQueries.RegionRowsSelected | backend/data_connector.py:103-122 | In one month and category block of the seeded records, the filters keep one record per admitted region. They keep none when the month or the category is filtered out. |
| SeededQueries.CategoryRowsSelected | backend/data_connector.py:103-122 | In one month block, the filters keep (admitted categories) x (admitted regions) records, or none when the month is filtered out. |
| SeededQueries.MonthRowsSelected | backend/data_connector.py:103-122 | Over the month-major records, the filters keep (admitted months) x (admitted categories) x (admitted regions) records. |
| SeededQueries.FilteredCount | backend/data_connector.py:103-122 | `_apply_filters` over the 240 seeded records keeps exactly that product of admitted table entries. |
| SeededQueries.EastAdmitted | tests/test_data_layer.py:80-87 | Of the four regions, a filter on `East` admits one. |
| SeededQueries.TwoCategoriesAdmitted | tests/test_data_layer.py:89-96 | Of the five categories, a filter on `E-Bikes` and `Road Bikes` admits two. |
| SeededQueries.JuneAdmitted | tests/test_data_layer.py:98-105 | Of the twelve months, a filter on `2025-06` admits one. |
| SeededQueries.UnfilteredCount | tests/test_data_layer.py:73-77 | A request without filters or grouping returns all 240 records. |
| SeededQueries.EastCount | tests/test_data_layer.py:80-87 | Filtering on region `East` returns 60 records. |
| SeededQueries.TwoCategoriesCount | tests/test_data_layer.py:89-96 | Filtering on categories `E-Bikes` and `Road Bikes` returns 96 records. |
| SeededQueries.JuneCount | tests/test_data_layer.py:98-105 | Filtering on month `2025-06` returns 20 records. |
| SeededQueries.GroupsAre | backend/data_connector.py:138-158 | Grouping yields exactly the keys of a repeat-free list when every record's key is in it and each of its keys is some record's. The number of groups is then that list's length. |
| SeededQueries.BucketValue | backend/data_connector.py:141-144 | A one-dimension bucket carries its key's value of that dimension. |
| SeededQueries.ValuesOfGroups | backend/data_connector.py:138-158 | When the keys are exactly the one-name keys of `names`, the buckets carry exactly those names. |
| SeededQueries.GroupsByNames | backend/data_connector.py:125-159 | Grouping by one dimension whose values are exactly some distinct names gives one bucket per name, and the buckets carry exactly those names. |
| SeededQueries.RecordNamed | scripts/seed_dataset.py:107-124 | Every seeded record's month, category and region is a name from its table. |
| SeededQueries.CarriedRecord | scripts/seed_dataset.py:107-124 | For every month, category and region of the tables there is a seeded record with those three names. |
| SeededQueries.GroupedSeeded | backend/data_connector.py:125-159 | Grouping the seeded records by one dimension gives one bucket per name of that dimension's table, and the buckets carry exactly those names. |
| SeededQueries.GroupedEastByCategory | backend/data_connector.py:194-216 | Grouping the East records by category gives one bucket per category, and the buckets carry exactly the category names. |
| SeededQueries.GroupByCategoryCount | tests/test_data_layer.py:107-116 | Grouping by category returns 5 groups. Their categories are exactly `Road Bikes`, `Mountain Bikes`, `E-Bikes`, `Kids Bikes` and `Accessories`. |
| SeededQueries.GroupByRegionCount | tests/test_data_layer.py:118-125 | Grouping by region returns 4 groups. |
| SeededQueries.GroupByMonthCount | tests/test_data_layer.py:127-134 | Grouping by month returns 12 groups. |
| SeededQueries.EastByCategoryCount | tests/test_data_layer.py:136-144 | Filtering on `East` and grouping by category returns 5 groups. |
| ClaudeIntegration.TrimStart | backend/claude_integration.py:109 | Stripping the front leaves nothing or a non-whitespace first character, and never lengthens the text. |
| ClaudeIntegration.TrimEnd | backend/claude_integration.py:109 | Stripping the end leaves nothing or a non-whitespace last character, and never lengthens the text. |
| ClaudeIntegration.TrimStartSuffix | backend/claude_integration.py:109 | What the front strip keeps is a suffix of its input. |
| ClaudeIntegration.TrimEndPrefix | backend/claude_integration.py:109 | What the end strip keeps is a prefix of its input. |
| ClaudeIntegration.TrimStartDropsSpace | backend/claude_integration.py:109 | The front strip removes whitespace only. |
| ClaudeIntegration.TrimEndDropsSpace | backend/claude_integration.py:109 | The end strip removes whitespace only. |
| ClaudeIntegration.Strip | backend/claude_integration.py:109 | `strip()` never lengthens the text; `StripSlice` and `StripTrims` say what it keeps. |
| ClaudeIntegration.DropOpenFence | backend/claude_integration.py:110 | The opening-fence substitution never lengthens the text and leaves text without a leading fence unchanged; `OpenFenceDropped` gives the removed case. |
| ClaudeIntegration.DropCloseFence | backend/claude_integration.py:111 | The closing-fence substitution never lengthens the text and leaves text that ends neither in a fence nor in a fence and a newline unchanged; `CloseFenceDropped` gives the removed case at the end of the text and `CloseFenceBeforeNewline` the case before a final newline. |
| ClaudeIntegration.ExtractFences | backend/claude_integration.py:106-113 | The text handed to the parser is never longer than the reply; `ExtractFencesProperties`, `FencedRoundTrip` and `UnfencedIsTrimmed` characterise it. |
| ClaudeIntegration.StripSlice | backend/claude_integration.py:109 | `strip()` keeps a contiguous slice of its input. |
| ClaudeIntegration.OpenStageSlice | backend/claude_integration.py:109-110 | Removing the opening fence from a slice of the reply leaves a slice of the reply. |
| ClaudeIntegration.OpenStageEnd | backend/claude_integration.py:109-110 | After `strip()` and the removal of the opening fence, the text does not end in whitespace. |
| ClaudeIntegration.CloseStageSlice | backend/claude_integration.py:111 | Removing the closing fence from a slice of the reply that does not end in whitespace leaves a slice of the reply. |
| ClaudeIntegration.StripOfSlice | backend/claude_integration.py:112 | The final `strip()` of a slice of the reply is a slice of the reply with no whitespace at either end. |
| ClaudeIntegration.StripTrims | backend/claude_integration.py:109 | After `strip()` there is no whitespace at either end. |
| ClaudeIntegration.StripPadded | backend/claude_integration.py:109 | `strip()` of whitespace, then trimmed text, then whitespace gives back that text. |
| ClaudeIntegration.DropOpenSuffix | backend/claude_integration.py:110 | The opening-fence rewrite removes only a prefix. On trimmed text, what it keeps has no trailing whitespace. |
| ClaudeIntegration.OpenFenceDropped | backend/claude_integration.py:110 | A leading fence, then an optional `json` tag, then whitespace are removed, and the rest is kept. Without a tag this holds when the text after the fence does not begin with `json`, which the optional group would take. |
| ClaudeIntegration.DropClosePrefix | backend/claude_integration.py:111 | On text without trailing whitespace, the closing-fence rewrite removes only a suffix. |
| ClaudeIntegration.CloseFenceDropped | backend/claude_integration.py:111 | Whitespace followed by a fence at the very end is removed, and what precedes it is kept. |
| ClaudeIntegration.CloseFenceBeforeNewline | backend/claude_integration.py:111 | Whitespace followed by a fence and a final newline is removed, and what precedes it is kept with the newline, as `$` matches before a trailing newline. |
| ClaudeIntegration.EmptyBetweenFences | backend/claude_integration.py:110-111 | Two fences with only whitespace between them leave nothing. |
| ClaudeIntegration.BodyBetweenFences | backend/claude_integration.py:110-111 | Two fences around a trimmed, non-empty body leave the body. |
| ClaudeIntegration.ExtractFencesProperties | backend/claude_integration.py:106-113 | The text handed to the parser has no whitespace at either end. It is a contiguous slice of the reply: only a prefix and a suffix were removed. |
| ClaudeIntegration.FencedRoundTrip | backend/claude_integration.py:106-113 | A reply made of a fenced trimmed body, with whitespace around the fences and the optional `json` tag, gives back exactly the body. Without a tag, the text after the fence must not begin with `json`. |
| ClaudeIntegration.UnfencedIsTrimmed | backend/claude_integration.py:109-112 | A reply with no fence at either end is only stripped. |
| ClaudeIntegration.SystemPrompt | backend/claude_integration.py:129-131 | The prompt starts with the fixed instructions. It equals them exactly when the memory context is empty; otherwise they are followed by the `## Session Context` header and the whole context. |
| ClaudeIntegration.ProcessToolBlocks | backend/claude_integration.py:150-166 | The block loop yields one tool result per `fetch_data` block, in block order, and merges those blocks' filters into the collected ones. |
| ClaudeIntegration.CollectText | backend/claude_integration.py:184-187 | The final text is the concatenation, in order, of the text of every block that has one. |
| ClaudeIntegration.Round | backend/claude_integration.py:150-181 | One round adds exactly two messages and counts one more round; `RoundWellFormed` and `ConverseContinues` give its contents. |
| ClaudeIntegration.Converse | backend/claude_integration.py:146-181 | With a budget of n rounds, between 0 and n rounds run; `ConverseProperties` says when it ends early. |
| ClaudeIntegration.ToolLoop | backend/claude_integration.py:133-181 | The opening call followed by the loop runs at most 10 rounds; `ToolLoopBound` adds well-formedness and the early-stop condition. |
| ClaudeIntegration.RoundWellFormed | backend/claude_integration.py:171-181 | A round that continues appends an assistant turn, then a non-empty user turn of tool results, and asks the model again with the whole history. |
| ClaudeIntegration.ConverseProperties | backend/claude_integration.py:146-181 | Under a budget of n rounds, at most n rounds run and each keeps the conversation well formed. Fewer run only when the last response stops the loop. Messages are only appended, and collected filter keys are never lost. |
| ClaudeIntegration.ToolLoopBound | backend/claude_integration.py:146-181 | At most 10 follow-up rounds run. The loop ends earlier only when `stop_reason` is not `tool_use` or no `fetch_data` block gave a result. |
| ClaudeIntegration.ConverseStops | backend/claude_integration.py:146-166 | A response whose `stop_reason` is not `tool_use`, or that gives no `fetch_data` result, ends the loop with the conversation unchanged, whatever budget is left. |
| ClaudeIntegration.ConverseContinues | backend/claude_integration.py:146-181 | With budget left and a response that asks for tools and gets results, the loop runs one round and continues with one round less. |
| ClaudeIntegration.RunToolLoop | backend/claude_integration.py:133-181 | The imperative loop of at most 10 rounds ends with the same last response and the same collected filters as the reference conversation. |
| ClaudeIntegration.NoToolNoRounds | backend/claude_integration.py:146-148 | A first response that asks for no tool ends the loop at once. |
| ClaudeIntegration.ToolResultsEmpty | backend/claude_integration.py:151-169 | A round gives no tool results exactly when the response has no `fetch_data` block. |
| ClaudeIntegration.MergeKeysGrow | backend/claude_integration.py:156-157 | Merging filters never removes a collected key. |
| ClaudeIntegration.MergeLastWins | backend/claude_integration.py:156-157 | A collected key takes its value from the last `fetch_data` block whose filters carry it. |
| ClaudeIntegration.MergeUntouched | backend/claude_integration.py:156-157 | A key that no `fetch_data` block carries keeps its earlier presence and value. |
| ClaudeIntegration.Head500 | backend/claude_integration.py:202 | The fallback explanation is a prefix of the text: the whole text when it has at most 500 characters, otherwise exactly its first 500. |
| ClaudeIntegration.Get | backend/claude_integration.py:217-219 | `result.get(key, "")`: the stored value for a present key, `""` for a missing one. |
| ClaudeIntegration.RecordKeys | backend/claude_integration.py:216-220 | The returned record has exactly the keys `explanation`, `svg_code` and `css_styles`. |
| ClaudeIntegration.Shape | backend/claude_integration.py:189-220 | Every successful result has exactly the three keys. |
| ClaudeIntegration.ShapeCases | backend/claude_integration.py:189-220 | Each case has its own result. No text gives the apology with empty SVG and CSS. Unparseable text gives its first 500 characters (all of it when shorter) as explanation, with empty SVG and CSS. A parsed object gives its three fields, each `""` when missing. Any other parsed value is an error. |
| ClaudeIntegration.FencedObjectShown | backend/claude_integration.py:197-220 | A JSON object inside a fenced reply comes back as its three fields. |
| ClaudeIntegration.MemoryUpdateFor | backend/claude_integration.py:189-214 | There is no memory update on the apology path, nor when the parsed reply is not an object (`result.get` raises first). Otherwise the update carries the user query and the collected filters. Its explanation is the one the caller receives: the first 500 characters of unparseable text, or the object's `explanation`, `""` when missing. |
| ClaudeIntegration.GenerateVisualization | backend/claude_integration.py:116-220 | The method's result is the shaped final text of the bounded tool loop. Its memory update is `MemoryUpdateFor` of that text, with the filters that loop collected. |

## Left out

- Redis access is left out: connecting, `json().get`/`json().set`, `exists` and closing the connection.
  - `HandleFetchData` takes the lookup result as an `Option<Dataset>`.
  - `Seed` takes the existence of the key as a boolean.
  - `DataConnector.HandleFetchData`: a stored document that Python finds falsy (an empty dict) is treated as found. Python reports it as not found.
- A request without `dataset_id`, which raises `KeyError` in Python, is not modelled. `FetchRequest` always carries an id.
- JSON encoding and decoding (`json.dumps`, `json.loads`) are not modelled as text.
  - The handler's answer is the `FetchResponse` datatype.
  - The parser is a parameter `Parse` that returns `None` where `json.loads` raises `ValueError`.
- `DataConnector.FetchRequest` models `group_by` as a sequence of the three dimensions its tool schema allows. Python also accepts the measure names `units_sold`, `revenue` and `avg_unit_price`, since every record carries them: the bucket then copies the measure in as a dimension on first encounter. For `units_sold` and `revenue` the `+=` adds the same record's amount again, so the first record is counted twice. For `avg_unit_price` the copied value is overwritten by the average. The model excludes such names on purpose.
- `DataConnector.AveragePrice` is the exact quotient. Python rounds it to two decimals in floating point. A group with no units gets `0.0` where Python stores the integer `0`.
- `SeedDataset.MakeRecord` leaves the unit estimate abstract. `round(annual_rev * season_w * region_share / avg_price)` is computed in floating point, so it is a parameter function of the (month, category, region) names. Only the `max(1, …)` around it is modelled.
- `SeedDataset.SeasonalWeights` are exact rationals rather than floating-point quotients. The regional shares are whole hundredths.
- `SeedDataset.Seed` does not model the `print` of the summary line.
- The Anthropic client is the parameter `Api`, a function from the system prompt and the messages to a response. The model name, `max_tokens` and the tool list it is sent are not modelled.
- The data handler called from the tool loop is the parameter `Fetch`, from a tool input to its result text.
- The memory server is not modelled.
  - `_get_memory_context` is replaced by its result, the `memoryContext` parameter. Its swallowed exceptions give an empty string, which that parameter covers.
  - `update_memory` itself is not modelled. `GenerateVisualization` returns the arguments of the call as a `MemoryUpdate`, or `None` where Python never reaches the call. The session and user ids it also passes are not modelled.
- `ClaudeIntegration.ProcessToolBlocks` ignores a `filters` value that is not a JSON object. Python's `dict.update` would raise on it, or accept a list of pairs.
- `ClaudeIntegration.Shape`: an error from `update_memory` never reaches the caller, and that is not modelled. A parsed value that is not an object gives `NotAnObject`, where Python raises `AttributeError`.
- Regular-expression matching is modelled by explicit sequence checks, not by a regex engine.
  - `^```(?:json)?\s*` is modelled at the start of the text.
  - `\s*```$` is modelled at the end of the text or before a final newline.
- Concurrency and `async`/`await` are not modelled. Every call is taken to complete in order.
- The following are not part of this model: `run.py` (process and CLI startup), `backend/app.py` (HTTP routes and static files), `FETCH_DATA_TOOL` (a constant schema handed to the API) and `_get_redis_url`.
