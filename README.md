# ThreatPathMapper core, modelled in Dafny

ThreatPathMapper takes a threat report and maps it onto MITRE ATT&CK. This project
models four pieces of it and proves properties about them:

- **The big campaign** (`classes/big_campaign.py`). A report's text is cut into
  fragments by `_smart_text_split`. Each fragment is analysed on its own. The
  gathering steps then merge the fragments' alignment tables (`mapper`,
  `tech_alignment`) and phrase lists into one. Node ids and sentence indexes are
  moved past those of the earlier fragments.
  - Files: `segmenter.dfy` (module `Segmenter`) and `aggregation.dfy` (module `Aggregation`, class `BigCampaign`).
- **The attack-chain report** (`generate_tabular_data.py`):
  - the ATT&CK tables: tactics, the technique-to-tactic map, technique details, tool lists and the action table;
  - the lookups over those tables;
  - the kill chain, which groups a result's techniques by tactic and sorts each group by confidence;
  - the attack paths between consecutive active tactics;
  - the table rows, sorted by step.
  - Files: `attack_tables.dfy` (module `AttackTables`) and `kill_chain.dfy` (module `KillChain`, class `AttackChainTableGenerator`).
- **The sentence-0 cleaner** (`clean_sentence_0_references.py`). It drops sentence 0, its graph nodes and every edge touching node ids 0..999. It reports whether it changed anything.
  - File: `clean_sentence_zero.dfy`.
- **The navigation cleaner** (`clean_navigation.py`). It drops web-page navigation from the sentences, from the head of the text and from sentence 0's graph nodes.
  - File: `clean_navigation.dfy`.

Shared pieces:

| file | module | contents |
|---|---|---|
| `optional.dfy` | `Optional` | an `Option` type, with `GetOr` for Python's `dict.get(key, default)` |
| `text.dfy` | `Text` | the string operations the source uses: `strip`, `split`, `join`, `lower`, `in` and the sentence split `re.split(r'(?<=[.!?])\s+', ...)` |
| `seqs.dfy` | `Seqs` | order-preserving filtering, i.e. list comprehensions with a condition |
| `sorting.dfy` | `Sorting` | Python's stable `list.sort(key=...)` |
| `records.dfy` | `Records` | the shape of the JSON document the cleaners load |

Data flow. Loading a file and saving it are outside the model:

- a method takes the loaded document or result as a value;
- it returns what the source writes back, or what it returns.

Each imperative method is proved equal to a specification function. The properties are then proved about that function.

## Model

| member | source | states |
|---|---|---|
| Segmenter.SmartTextSplit | classes/big_campaign.py:52-87 | The chunks are the segmentation of the text. There is always at least one chunk. Blank text comes back as itself. Otherwise every chunk is non-empty and stripped. The chunks, laid end to end, hold exactly the text's non-blank characters, in order. |
| Segmenter.GroupSentences | classes/big_campaign.py:69-79 | The greedy grouping of a long paragraph's sentences. It emits stripped, non-empty chunks, equal to the recursive grouping specification. |
| Segmenter.SegmentShape | classes/big_campaign.py:83-87 | The result is never empty. Blank text gives `[text]`. When the paragraph pass gives at most one chunk, the result is the line split. |
| Segmenter.SegmentKeepsContent | classes/big_campaign.py:59-87 | Segmenting removes white space and nothing else. |
| Segmenter.LongParagraphChunks | classes/big_campaign.py:64-79 | A chunk cut from a paragraph over 1000 characters is under 800 characters, or is one sentence that was already too long. |
| Segmenter.ShortParagraphsKept | classes/big_campaign.py:59-81 | Text of two or more paragraphs of at most 1000 characters is returned as its stripped paragraphs. |
| Segmenter.StrippedPieces | classes/big_campaign.py:59 | `[p.strip() for p in parts if p.strip()]` gives non-empty, stripped pieces. |
| Segmenter.StrippedPiecesEmpty | classes/big_campaign.py:59 | No piece survives exactly when every part is blank. |
| Segmenter.GroupBound | classes/big_campaign.py:70-79 | Every chunk the grouping emits is under the 800 budget or is a single stripped sentence. |
| Segmenter.GroupContent | classes/big_campaign.py:69-79 | The grouping keeps all non-blank content of the sentences, in order. |
| Aggregation.ShiftRecord | classes/big_campaign.py:117-131 | A moved entry keeps its list lengths and its other keys. A tech-alignment entry keeps its combine ids. |
| Aggregation.TranslateRecord | classes/big_campaign.py:117-131 | The copy loop over one entry equals the specification `ShiftRecord`. It needs `sent_indexes` to be at least as long as `order_ids`; otherwise the source raises IndexError. |
| Aggregation.ShiftCompose | classes/big_campaign.py:119-127 | Two gatherings in a row equal one gathering by the summed offsets. |
| Aggregation.ShiftZero | classes/big_campaign.py:120-125 | Zero offsets return the entry unchanged exactly when no nonzero sentence index lies past `order_ids`. The preallocated list resets those indexes to 0. |
| Aggregation.ShiftRoundTrip | classes/big_campaign.py:117-131 | Moving an entry and moving it back restores it exactly when it has no stray sentence indexes. |
| Aggregation.CombineIdsFollowSentences | classes/big_campaign.py:126-127 | In a mapper entry, each combine id's sentence part (`// 1000`) moves by `start_sent_id`. Its node part (`% 1000`) stays. |
| Aggregation.GatherTable | classes/big_campaign.py:108-155 | The gathered table holds, under each key, the moved list of the last fragment whose moved key equals it. |
| Aggregation.GatherFragment | classes/big_campaign.py:114-131 | One fragment's pass sets every moved key to its moved list. It leaves all other keys alone. |
| Aggregation.PutMoved | classes/big_campaign.py:116-131 | `mapper[new_k] = []` followed by the appends gives the list of moved entries. |
| Aggregation.MergedKeys | classes/big_campaign.py:112-115 | The gathered keys are exactly the fragments' keys, each moved by the node count of the fragments before it. |
| Aggregation.MergedLookup | classes/big_campaign.py:112-133 | When every fragment's keys are its own node ids, no entry is overwritten. Fragment i's key k maps to its list moved by fragment i's offsets. |
| Aggregation.MergedRange | classes/big_campaign.py:132 | Under the same condition, every gathered key is below the total node count. |
| Aggregation.Owner | classes/big_campaign.py:132-133 | Every id below the total count lies in the range of the fragment `Owner` names. With `OwnerUnique`, that fragment is the only one. |
| Aggregation.OwnerUnique | classes/big_campaign.py:132-133 | The fragment ranges are disjoint. |
| Aggregation.MovedOrderIdOwned | classes/big_campaign.py:117-133 | A gathered order id that was one of its fragment's node ids is a node id of the whole campaign. Its fragment owns it, and subtracting the fragment's `start_id` gives the local id back. |
| Aggregation.MovedSentenceIndexOwned | classes/big_campaign.py:117-133 | The same holds for a gathered sentence index against `start_sent_id` and the sentence counts. |
| Aggregation.SecondFragmentShifted | classes/big_campaign.py:110-132 | After a fragment of 3 nodes and 2 sentences, the next fragment's key 0 becomes 3. Its order id 0 becomes 3, its sentence index 0 becomes 2 and its combine id 3 becomes 2003. |
| Aggregation.KeyClash | classes/big_campaign.py:114-116 | A key outside its fragment's node range can be overwritten by a later fragment's entry. |
| Aggregation.CollectedPhrasesMembers | classes/big_campaign.py:156-160 | A phrase is collected exactly when some fragment that has phrases lists it. |
| Aggregation.DistinctPhrases | classes/big_campaign.py:161 | `list(set(...))` has no duplicates and the same members. |
| Aggregation.PlanFragments | classes/big_campaign.py:34-46 | The constructor's fragment plan equals the specification `FragmentPlan`. |
| Aggregation.NumberTexts | classes/big_campaign.py:40-43 | The numbering loop yields, for each non-blank chunk in order, a fragment carrying the chunk's position and its stripped text (`NumberChunks`). |
| Aggregation.BigCampaign.AnalyseAll | classes/big_campaign.py:40-46 | One analysed fragment per planned piece, in plan order. |
| Aggregation.PlanShape | classes/big_campaign.py:34-46 | Blank or missing text gives no fragment. Without big-campaign mode there is one fragment, id 0, holding the whole text. With it, fragment i is chunk i of the segmentation. |
| Aggregation.NumberCleanChunks | classes/big_campaign.py:40-43 | Chunks that are already stripped and non-empty are numbered 0, 1, ... in order. None is skipped. |
| Aggregation.BigCampaign.FromText | classes/big_campaign.py:8-48 | The campaign gets its id. Its fragments are the analysed plan. Its phrase list is the distinct collected phrases. |
| Aggregation.BigCampaign.MapperGathering | classes/big_campaign.py:108-134 | `mapper` becomes the gathered mapper table. |
| Aggregation.BigCampaign.TechMapperGathering | classes/big_campaign.py:135-155 | `tech_alignment` becomes the gathered tech table. |
| Aggregation.BigCampaign.PhrasesGathering | classes/big_campaign.py:156-161 | `phrases` holds each collected phrase exactly once. |
| AttackTables.ParseTacticId | generate_tabular_data.py:16-30 | An identifier read back names the tactic it was read as. |
| AttackTables.TacticIdRoundTrip | generate_tabular_data.py:16-30 | `MITRE_TACTICS` has exactly one key per tactic. |
| AttackTables.TacticOrderFacts | generate_tabular_data.py:33-37 | `TACTIC_ORDER` lists all 13 tactics, each once. |
| AttackTables.TacticIndex | generate_tabular_data.py:33-37 | Every tactic has a position in `TACTIC_ORDER`. |
| AttackTables.KeyTextRoundTrip | generate_tabular_data.py:40-105 | Reading a technique key's identifier string gives the key back. |
| AttackTables.ParseKeyRoundTrip | generate_tabular_data.py:40-105 | A string that reads as a key is that key's identifier. The string-keyed tables and the number-keyed model agree. |
| AttackTables.BaseTechniqueFacts | generate_tabular_data.py:161 | `split('.')[0]` is the part before the first `.`, or the whole identifier. |
| AttackTables.BaseIsPrefixBeforeDot | generate_tabular_data.py:161 | That prefix is the only one free of `.` that is followed by `.` or by the end. |
| AttackTables.BaseOfSubTechnique | generate_tabular_data.py:161 | `b.x` has base `b`. |
| AttackTables.BaseIdempotent | generate_tabular_data.py:161 | Taking the base twice changes nothing. |
| AttackTables.BaseOfKey | generate_tabular_data.py:161 | A sub-technique key's base is its parent's identifier. |
| AttackTables.BlockLookupSpec | generate_tabular_data.py:40-105 | A dictionary literal with repeated keys misses exactly when no group holds the key. It yields `t` exactly when the last group holding the key is `t`'s. |
| AttackTables.TechniqueTacticIsLookup | generate_tabular_data.py:40-105 | The technique table, tactic by tactic, equals that lookup over the literal's groups. |
| AttackTables.DuplicateKeysLastWins | generate_tabular_data.py:46-84 | T1133 and T1091, listed under Initial Access and again later, map to Persistence and Lateral Movement. |
| AttackTables.DefenseEvasionDuplicates | generate_tabular_data.py:51-69 | T1574, T1055 and T1127, listed earlier, map to Defense Evasion. |
| AttackTables.PrivilegeEscalationDuplicates | generate_tabular_data.py:51-64 | T1053 and T1547, listed earlier, map to Privilege Escalation. |
| AttackTables.TacticOfBase | generate_tabular_data.py:159-162 | The tactic depends only on the base identifier. |
| AttackTables.TacticOfSubTechnique | generate_tabular_data.py:159-162 | A sub-technique has its parent's tactic. |
| AttackTables.TacticOfSpec | generate_tabular_data.py:159-162 | An identifier maps to `t` exactly when its base is `T` plus the four digits of a number whose last holder in the table is `t`. Every other identifier is `Unknown`. |
| AttackTables.ToolsByTactic | generate_tabular_data.py:183-192 | Exactly the five listed tactics have their own tool list. Every other slot gets `["Various tools"]`. Lists have 1 to 5 tools. |
| AttackTables.DescriptionPrecedence | generate_tabular_data.py:164-181 | The identifier's own entry wins. Failing that, its base's entry. Failing both, the tactic default. |
| AttackTables.DefaultDescription | generate_tabular_data.py:173-181 | The default names the tactic (`Unknown` if none) and carries the tactic's tools. |
| AttackTables.SubTechniqueDescription | generate_tabular_data.py:164-171 | A sub-technique without an entry of its own is described as its parent. |
| AttackTables.DetailsEntries | generate_tabular_data.py:108-134 | T1003.001 has no entry but T1003 has one. T1583.001 has one but T1583 has none. |
| AttackTables.ParseTacticName | generate_tabular_data.py:490-504 | A display name read back names its tactic. |
| AttackTables.TacticNameRoundTrip | generate_tabular_data.py:16-30 | Every tactic's display name reads back as that tactic. |
| AttackTables.ActionEntries | generate_tabular_data.py:465-484 | The action table is keyed by exact identifier: T1059.001 has an action, T1059 has none. |
| AttackTables.TechniqueActionSpec | generate_tabular_data.py:463-505 | A listed identifier gets its own action. Otherwise a tactic's display name gives the tactic's generic action. Any other name gives `perform <lower-cased name> activities`. |
| KillChain.EntriesCount | generate_tabular_data.py:231-255 | There is one kill-chain entry per technique of the result. |
| KillChain.AllSlotsFacts | generate_tabular_data.py:280-287 | Every slot occurs in kill-chain order exactly once, `Unknown` last. |
| KillChain.BucketFacts | generate_tabular_data.py:257-264 | A tactic's group holds exactly the entries of that tactic, each as often as the steps do. It is empty exactly when no entry has the tactic. |
| KillChain.GroupFacts | generate_tabular_data.py:266-271 | Each kept group is non-empty and a permutation of its tactic's entries. It is sorted by descending confidence, then ascending step, and entries with equal keys keep their input order. |
| KillChain.EveryEntryGrouped | generate_tabular_data.py:257-264 | Every entry lands in its own tactic's group and in no other. |
| KillChain.NoBestNoKillChain | generate_tabular_data.py:224-225 | Without `best` the kill chain is empty and there are no paths. |
| KillChain.KillChainTotal | generate_tabular_data.py:228-273 | The group sizes add up to the number of techniques. None is lost or counted twice. |
| KillChain.ActiveTacticsFacts | generate_tabular_data.py:280-287 | The active tactics are exactly those with a non-empty group. Each appears once, in `TACTIC_ORDER` order, `Unknown` last. |
| KillChain.PathsBetweenFacts | generate_tabular_data.py:297-323 | Each adjacent pair gives a primary path between the two top techniques. A second, alternative path between the two runners-up exists exactly when both groups have two or more entries. |
| KillChain.PrimaryPaths | generate_tabular_data.py:290-310 | The primary paths are exactly one link per adjacent pair of active tactics, in order. |
| KillChain.PrimaryLinksFacts | generate_tabular_data.py:290-310 | n active tactics give n - 1 primary links. Link i joins the top techniques of tactics i and i + 1. |
| KillChain.PrimaryBetween | generate_tabular_data.py:297-323 | Of a pair's paths, only the first is primary. |
| KillChain.PathCount | generate_tabular_data.py:290-323 | n active tactics give between n - 1 and 2(n - 1) paths, and none when n < 2. |
| KillChain.RowsFacts | generate_tabular_data.py:332-359 | There is one row per technique. The rows are a permutation of the rows in input order, ascending by step, with rows of the same step in input order. |
| KillChain.AttackChainTableGenerator.constructor | generate_tabular_data.py:146-148 | No kill chain and no paths yet. |
| KillChain.AttackChainTableGenerator.GenerateKillChainStructure | generate_tabular_data.py:222-273 | The grouping, sorting and pruning loops compute the specification `KillChainOf`. |
| KillChain.AttackChainTableGenerator.AddEntries | generate_tabular_data.py:232-264 | Appending a step's entries to their groups, with `Unknown` created on first use, keeps each group equal to its tactic's entries so far. |
| KillChain.AttackChainTableGenerator.GenerateAttackPaths | generate_tabular_data.py:275-325 | The paths are the specification `AttackPathsOf`. |
| KillChain.AttackChainTableGenerator.CollectActive | generate_tabular_data.py:280-287 | The first loop computes the active tactics. |
| KillChain.AttackChainTableGenerator.LinkActive | generate_tabular_data.py:290-323 | The second loop computes the paths along the active tactics. |
| KillChain.AttackChainTableGenerator.GenerateTabularData | generate_tabular_data.py:327-365 | It returns the sorted rows. It stores the kill chain and the paths built from that kill chain. |
| KillChain.AddRows | generate_tabular_data.py:334-356 | The row loop appends one row per technique, in order. |
| KillChain.CollectStep | generate_tabular_data.py:258-264 | One entry's append keeps every group equal to its tactic's entries. |
| KillChain.SortAndPrune | generate_tabular_data.py:266-271 | Sorting every group and dropping the empty ones gives the grouped kill chain. |
| SentenceZeroCleaner.CleanSentenceZero | clean_sentence_0_references.py:9-51 | The cleaned document is the three filters applied. The flag is set exactly when some list lost an element, which is exactly when the document changed. |
| SentenceZeroCleaner.SentenceFilter | clean_sentence_0_references.py:18-20 | Exactly the sentences with id 0 go, one without an id stays, and order is kept. Every copy of a kept sentence survives. |
| SentenceZeroCleaner.NodeFilter | clean_sentence_0_references.py:26-29 | Exactly the nodes whose `meta.sent_index` is 0 go, and order is kept. Every copy of a kept node survives. |
| SentenceZeroCleaner.EdgeFilter | clean_sentence_0_references.py:35-39 | An edge stays exactly when each end is missing or outside 0..999, and order is kept. Every copy of a kept edge survives. |
| SentenceZeroCleaner.NothingElseChanges | clean_sentence_0_references.py:17-42 | The text and every other key are unchanged. Absent lists stay absent. |
| SentenceZeroCleaner.Idempotent | clean_sentence_0_references.py:9-51 | A second run changes nothing and reports no change. |
| SentenceZeroCleaner.ShrankIffChanged | clean_sentence_0_references.py:19-22 | A list shrank exactly when the filter changed it. |
| NavigationCleaner.AnyIndicatorSpec | clean_navigation.py:23-24 | `any(... in ...)` holds exactly when some indicator occurs. |
| NavigationCleaner.NavigationContentSpec | clean_navigation.py:8-24 | Text is navigation content exactly when its lower-case form contains one of the ten indicators. |
| NavigationCleaner.NavigationContentIgnoresCase | clean_navigation.py:23 | The test ignores case. |
| NavigationCleaner.NavigationContentWithin | clean_navigation.py:8-24 | Text around navigation content is navigation content too. |
| NavigationCleaner.CleanJsonlFile | clean_navigation.py:26-69 | The saved document equals the specification `Cleaned` of the loaded one. |
| NavigationCleaner.SentenceFilter | clean_navigation.py:31-41 | Exactly the sentences whose text is navigation go, and order is kept. Every copy of a kept sentence survives. `sentences` is always written, empty when absent. |
| NavigationCleaner.TextCleaning | clean_navigation.py:43-52 | A navigation first sentence, a prefix of the text, is removed and nothing else. Its content plus the new text's content is the old text's content. A one-sentence navigation text becomes empty. Otherwise the text is unchanged. |
| NavigationCleaner.NodeFilter | clean_navigation.py:54-65 | Exactly the sentence-0 nodes whose text is navigation or is "attacker" (any case) go, and order is kept. Every copy of a kept node survives. |
| NavigationCleaner.NothingElseChanges | clean_navigation.py:26-69 | The edges and every other key are saved unchanged. |
| NavigationCleaner.FiltersIdempotent | clean_navigation.py:31-65 | A second pass removes no sentence or node. |
| Text.Strip | classes/big_campaign.py:59 | `strip()` leaves no white space at either end and never lengthens. |
| Text.StripRemovesEnds | classes/big_campaign.py:59 | `strip()` removes white space at the two ends only: the result is a stretch of the text with nothing but white space before and after it. |
| Text.StripKeepsContent | classes/big_campaign.py:59 | `strip()` removes only white space. It gives "" exactly for blank text. |
| Text.Split | classes/big_campaign.py:59 | `split(sep)` gives at least one piece. |
| Text.SplitPiecesClean | classes/big_campaign.py:59 | No piece contains the separator. |
| Text.JoinSplit | generate_tabular_data.py:161 | Joining the pieces of a split with its separator gives the text back. |
| Text.SentenceSplit | classes/big_campaign.py:66 | The sentence split gives at least one piece. The first is a prefix of the text. Every piece but the last ends in `.`, `!` or `?`. No piece contains a break. |
| Text.SentenceSplitKeepsContent | clean_navigation.py:47 | The pieces hold all non-blank characters of the text, in order. |
| Text.JoinKeepsContent | clean_navigation.py:50 | Joining with blanks adds no content. |
| Text.LowerIdempotent | clean_navigation.py:23 | Lower-casing twice is lower-casing once. |
| Seqs.FilterFacts | clean_sentence_0_references.py:20 | A list comprehension keeps exactly the elements satisfying its condition, in order, with every copy of each. |
| Seqs.FilterKeepsAll | clean_sentence_0_references.py:21 | The length is unchanged exactly when nothing was dropped. |
| Seqs.FilterIdempotent | clean_sentence_0_references.py:28-29 | Filtering twice is filtering once. |
| Sorting.SortBy | generate_tabular_data.py:268 | `sort(key=...)` gives a sorted permutation that keeps equal keys in input order. |

## Left out

- File and network I/O: `json.load`, `json.dump`, `jsonlines`, `pickle`, `open`, the `argparse` entry points and every `print`. Each method takes the loaded data and returns what is written or returned.
- SentenceZeroCleaner.CleanSentenceZero: the exception branch (lines 53-55, return False on any error) is not modelled. A document in the model is always well typed.
- `input_processor.py` (text extraction) is not part of this model. The extracted text is a parameter of `Aggregation.BigCampaign.FromText`.
- The `Campaign` analysis of one fragment (`classes/campaign.py`) is not part of this model. It is the parameter `analyse` of `Aggregation.BigCampaign.FromText`. Only what the gathering reads of its result is modelled: the node count, the sentence count, the two tables and the phrases.
- The JSON-file branch of the `BigCampaign` constructor (lines 14-24) and `from_jsonl`, `to_jsonl`, `to_pickle` are I/O and are not modelled.
- `Keys.ENABLE_BIG_CAMPAIGN` is a parameter, not a global setting.
- Aggregation.BigCampaign.FromText: `mapper` and `tech_alignment` start as empty maps. `__init__` never assigns them, so in the source reading either one before its gathering method runs raises `AttributeError`. That error is not modelled.
- Aggregation.BigCampaign.FromText: with missing or blank text the phrases are the empty list. The source leaves `phrases` unset on that path (lines 33-50), and that missing attribute is not modelled.
- KillChain.AttackChainTableGenerator.constructor: `kill_chain` starts as an empty map. `__init__` (generate_tabular_data.py:146-148) never sets it. The print functions treat a missing and an empty kill chain alike (lines 369, 405, 509). Any other read before `generate_kill_chain_structure` would raise `AttributeError`, and that error is not modelled.
- Aggregation.DistinctPhrases: the order `list(set(...))` produces depends on string hashing. Only membership and the absence of duplicates are stated.
- Dictionary insertion order is not modelled:
  - the kill chain is a map from tactic slot to group, and its order is `AllSlots()`;
  - a fragment's table is a map, so which key of a fragment is gathered first is left open (each key is written once).
- `extract_technique_details`: `observed_indicators` (`list(set(details))[:3]` joined with ", ") depends on set order. It is left out of entries and rows.
- The `Stage` string `f"Step {step_key}"` and its parse back in the sort key are modelled by the step number itself. So is `int(step_key)`. Step keys that are not integers would raise in the source and are not modelled.
- The `Confidence` column's `f"{...:.3f}"` formatting is not modelled. Confidences are exact reals, and the attack path's average is exact.
- The print and export functions after line 365 (`print_*`, CSV export, `main`) are output only.
- JSON values other than the keys the cleaners read are carried opaquely in an `other` map. A sentence id, `sent_index`, `source` or `dest` that is present but not an integer is not modelled.
- `str.lower()`, `str.strip()` and `\s` are modelled for ASCII only.
- The technique-to-tactic table is keyed by technique numbers. A proved bijection connects them with the `T####` identifier strings.
