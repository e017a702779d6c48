# A verified model of the case analysis and its surroundings

This Dafny project models five parts of the forensic case platform and proves what they promise:

1. **The activity correlation engine.** A list of mutable activities is deduplicated, merged by two greedy passes, and then handed through passes that enrich activities in place and append derived ones.
2. **Sign-in.** The throttle, the session and account tables, first-administrator setup, and the printed timestamps by which sessions expire.
3. **Evidence state.** Status recomputation, deferral and finalisation of long-running artifacts, and the bounded list of health checks.
4. **The search-text backfill.** The script that appends values to a document's `search_text`.
5. **The line wrapper of the PDF export.**

`dafny verify dfyconfig.toml` checks everything.

## How it is built

Code that changes objects in place is modelled by classes and methods with the source's loops. Each method is proved equal to a function of the old state, and the properties are lemmas about those functions.

| modules | content |
|---|---|
| Text, Activity | `sorted(set(...))`, stable sort, string order, trimming; the activity record and its class |
| Greedy, ListOrder, Dedup, MergePasses | the passes that drop activities: functions and theorems, when the list order matters, then the nested loops over shared objects |
| Growth, TablePasses, Derivations, CorrelatePass | append-only passes as tables of slots and recipes, what they keep and derive, and the loops that run a table |
| Registry, Usb, StandardPasses, WindowsPasses, WindowsResults, Bits | the registry pass, the pass that uses dictionaries, ten passes written out as tables and what holds of each, and the pass over transfer jobs |
| Pipeline, PassOrder | the whole run, for any passes and for the passes of the source in the order of the driver |
| Selection, Provenance, RegistryScope | the dropping passes and the registry pass on the recorded facts: what belongs together, and that nothing leaves its host or user |
| Kinds, Findings, PassFindings, DriveFindings, Analysis | the final list on the recorded facts: which activities each pass reports, on which entries, with which partners |
| Throttle, IsoClock, Accounts, AuthService, Setup | sign-in |
| EvidenceStatus, LongTail, HealthChecks | evidence state |
| Backfill, PdfWrap | the script and the wrapper |

In module Greedy, `Keeps`, `Absorbs` and `Grown` say which entries of a list survive, who absorbs whom, and what a survivor holds. A table pass (`TablePasses.Pass`) selects items, finds matches slot by slot, enriches the item, and derives activities by recipes. `Separate` says that no activity is both item and candidate in a pass; it is proved of every table written out here.

The passes are tables of predicates, so results about the tables say as much as those predicates do. Provenance, RegistryScope, PassFindings and Analysis therefore say once more, on hosts, times and key fields with the numbers written out, what the passes bring together. A `Findings.Finding` is a kind of derived activity, the entries on which it is due, and the partner it needs; `Findings.Tells` says that the activities of that kind in a list are exactly those that are due, one each and in order. `Analysis.AnalysisReports` proves this of the final list for nineteen findings, and what shortcut files and registry entries bring with it.

## Where the code differs from what is said of it

- **Deduplication is not idempotent.** A merge can replace the summary that served as a bucket's key. `Dedup.DedupIdempotentIff` gives the exact condition and `Dedup.DedupNotIdempotent` an input.
- **The backfill is not idempotent**, against backend/scripts/backfill_event_data_search_text.py:10. With 61 new values the second run still adds one (`Backfill.SecondRunStillAdds`). `Backfill.IdempotentIff` says when two runs equal one, and `Backfill.RunsConverge` that runs do converge.
- **The advertised sign-in wait can be too short.** As soon as two requests of a pair can be in flight, a run leads to more than ten recent failures, and the wait looks at the first of them (`Throttle.WaitCanBeTooShort`). `Throttle.WaitIsEnoughIff` gives the exact condition on the failure log; for requests one after the other it always holds.
- **A second status recomputation can change the display status.** This happens exactly when the metadata holds an empty error log (`EvidenceStatus.DisplayStableIff`; `EvidenceStatus.DisplayChanges` is such a record). The latest run's row and the current phase repeat the display status and change with it.
- **The registry pass depends on the list order.** `Registry.SpreadIsChains` says exactly what each entry receives. The order does not matter exactly where taking is transitive between different entries (`Registry.OrderFreeIffTransitive`); each entry then ends with its own and its direct matches' evidence. `Registry.TakesNotTransitive` gives three entries where it is not.
- **How many executions and file accesses survive depends on the list order.** For a merging pass, every selection of the entries leaves the same number in every order if and only if the rule is transitive on them (`ListOrder.OrderFreeIffTransitive`). The file rule fails to be transitive through an unknown host, through a repeated source, or through times that chain beyond the window, and in no other way (`ListOrder.FileRuleTransitiveIff`). The execution rule is never transitive: two entries related to a third are not related to each other (`ListOrder.ExecutionRuleNeverTransitive`). Deduplication is free of the order.
- **A merged entry forgets sources.** When an execution or a file access takes in more than one other, the list of sources names only its own and that of the last one taken in, as every merge writes the list anew (`Provenance.GrownSources`, backend/app/analysis/activities.py:1841-1848 and 1973).
- **Parser errors can be dropped.** A recomputation that completes the evidence empties the list of parser errors, and keeps them as history only if there is no history yet (`EvidenceStatus.ErrorsAreDropped`, backend/app/api/routes_evidence.py:1014-1017).
- **Two passes compare no hosts.** A download is matched with detections, and a file with removable devices, on whatever hosts they are (`StandardPasses.BrowserIgnoresHosts`, backend/app/analysis/activities.py:2037-2044 and 1686-1709). In the other passes written out as tables the match is always on the item's host, as far as both are known (`PassOrder.HostsRespected`).
- **Two key fields need not hold an activity id.** The pass over transfer jobs stores the first related event of a match under `defender_event` and `execution_event` when it has one (backend/app/ingest/bits/correlation.py:195 and 219). The value names a member of the list if and only if the match had no related event (`Bits.JobReferences`); `Bits.EventReferenceDangles` is a run on which it names none. Every other key field of this kind written by a modelled pass holds an activity id. Those never dangle, provided that the WMI, autoruns, cloud and network passes, which are not modelled, only extend the list (`PassOrder.AnalysisConserves`).

## Model

| member | source | states |
|---|---|---|
| Greedy.DroppedHasOneAbsorber | backend/app/analysis/activities.py:1807-1854 | an entry leaves the list exactly when it has an absorber, an earlier survivor directly related to it, and then it has only one |
| Greedy.SurvivorsAreTheKernel | backend/app/analysis/activities.py:1941-1979 | the survivors of the nested loops are the one set of positions that holds no two related entries and leaves out only entries with an earlier related member |
| Greedy.RelatedSymmetric | backend/app/analysis/activities.py:1955-1967 | whether two entries may be merged does not depend on which of them comes first |
| Greedy.GrownEvidence | backend/app/analysis/activities.py:1968-1969 | a survivor ends with exactly its own references and events and those of the entries it absorbed |
| Greedy.MergeConservesEvidence | backend/app/analysis/activities.py:1807-1854 | the references and the events held anywhere in the list are the same before and after a pass that drops entries |
| Greedy.MergedKeepsIdentity | backend/app/analysis/activities.py:1854 | ids stay distinct, no new id appears, and no cross-reference is created |
| Greedy.MergedPositions | backend/app/analysis/activities.py:1979 | survivors keep their list order and every survivor is in the result |
| Greedy.MergedIsIndependent | backend/app/analysis/activities.py:1941-1979 | no two survivors of a merging pass are related |
| Greedy.MergeFixedIffNoneRelated | backend/app/analysis/activities.py:1807-1854 | a pass changes nothing if and only if no two entries of its input are related |
| Greedy.SecondMergeChangesNothing | backend/app/analysis/activities.py:1941-1979 | a second run of either merging pass changes nothing, for every list |
| ListOrder.OrderFreeIffTransitive | backend/app/analysis/activities.py:1807-1854 | every selection of the entries leaves the same number of survivors in every list order if and only if the rule is transitive on the entries |
| ListOrder.TransitiveCount | backend/app/analysis/activities.py:1941-1979 | where the rule is transitive two orders of the same entries leave equally many survivors |
| ListOrder.SurvivorHoldsGroup | backend/app/analysis/activities.py:1968-1969 | there each survivor ends with exactly the evidence of all entries related to it, whichever of them it is |
| ListOrder.OrderDecidesSurvivors | backend/app/analysis/activities.py:1953-1979 | wherever the rule fails to be transitive on three entries, one order of them leaves two survivors and another leaves one |
| ListOrder.DedupIsOrderFree | backend/app/analysis/activities.py:1792 | the rule of deduplication is transitive on every list |
| ListOrder.FileRuleTransitiveIff | backend/app/analysis/activities.py:1955-1967 | two file accesses related to a third are related to each other if and only if their hosts agree, their sources differ and their times lie in the window |
| ListOrder.FileRuleNotTransitive | backend/app/analysis/activities.py:1962-1967 | for each of the three causes three entries where it alone breaks transitivity |
| ListOrder.ExecutionRuleNeverTransitive | backend/app/analysis/activities.py:1832-1835 | two executions related to a third are never related to each other, because one of every related pair comes from prefetch and the other does not |
| ListOrder.ExecutionsOrderFreeIff | backend/app/analysis/activities.py:1807-1854 | the order does not matter to executions if and only if no entry is related to two others |
| ListOrder.ExecutionRuleNotTransitive | backend/app/analysis/activities.py:1832-1835 | two prefetch records and another record of one start, of which two survive in one order and one in another |
| MergePasses.Select | backend/app/analysis/activities.py:1808 | the filtered sublist holds exactly the entries of the given kinds, in list order |
| MergePasses.AbsorbInPlace | backend/app/analysis/activities.py:1836-1852 | the assignments for one match turn the activity into the merge of the two and leave the other one alone |
| MergePasses.AbsorbMatches | backend/app/analysis/activities.py:1819-1853 | the inner loop lets one survivor absorb exactly its share of the later entries |
| MergePasses.SettleOne | backend/app/analysis/activities.py:1810-1818 | one round of the outer loop, skipping entries already merged and entries without a time or name |
| MergePasses.MergeSources | backend/app/analysis/activities.py:1807-1854 | the nested loops over shared objects, with their set of merged ids, compute the greedy merge of the list |
| Dedup.SurvivorsLead | backend/app/analysis/activities.py:1793-1796 | the survivors are the first entries of their keys, and each takes every later entry of its key |
| Dedup.BucketHoldsAll | backend/app/analysis/activities.py:1797-1800 | a bucket's survivor holds exactly the references, events, tags and reasons of the bucket's members |
| Dedup.BucketConfidence | backend/app/analysis/activities.py:1801 | its confidence is the largest in the bucket |
| Dedup.BucketSummary | backend/app/analysis/activities.py:1802-1803 | its summary is the bucket's first longest one |
| Dedup.FirstLongestIsLongest | backend/app/analysis/activities.py:1802-1803 | the first longest summary is as long as any in the bucket and longer than any before it |
| Dedup.BucketSpansUnderHalfMinute | backend/app/analysis/activities.py:1782 | members of one bucket with a parsed time lie less than 30 seconds apart |
| Dedup.DedupConservesEvidence | backend/app/analysis/activities.py:1778-1804 | deduplication keeps all evidence and returns the survivors sorted by time text, equal texts in bucket order |
| Dedup.DedupIdempotentIff | backend/app/analysis/activities.py:1778-1804 | deduplicating twice equals deduplicating once if and only if no two buckets fall together under the keys their survivors end with |
| Dedup.DedupIdempotentWithHints | backend/app/analysis/activities.py:1783-1791 | with a non-empty key field on every activity deduplication is idempotent |
| Dedup.DedupNotIdempotent | backend/app/analysis/activities.py:1790-1803 | three activities on which a second deduplication changes the result |
| MergePasses.AbsorbDuplicateInPlace | backend/app/analysis/activities.py:1797-1803 | the assignments for a duplicate compute the merge used by the specification |
| MergePasses.Deduplicate | backend/app/analysis/activities.py:1778-1804 | the loop with its dictionary of buckets, followed by the sort, computes the deduplicated list on the objects themselves |
| Provenance.HintIsFirst | backend/app/analysis/activities.py:1783-1791 | the key field used by deduplication is the first present of these six, in this order |
| Provenance.DedupHolds | backend/app/analysis/activities.py:1792-1800 | whatever an entry holds after deduplication was recorded of an entry of the same kind, host, user and half minute, and with the same key field where both have one |
| Provenance.DedupRepresents | backend/app/analysis/activities.py:1792-1800 | every entry is represented after deduplication by such an entry that holds its evidence |
| Provenance.DedupLeavesOne | backend/app/analysis/activities.py:1792-1796 | no two entries left by deduplication agree in all of that with a key field |
| Selection.DedupOfOneUser | backend/app/analysis/activities.py:1778-1804 | deduplicating what one user did on one host gives that part of the deduplicated list |
| Provenance.StartIff | backend/app/analysis/activities.py:1826-1835 | two entries are merged as executions exactly if they have one kind of execution, host and process name, lie within 600 seconds, and exactly one comes from prefetch |
| Provenance.ExecutionHolds | backend/app/analysis/activities.py:1819-1853 | whatever a merged execution holds was recorded of such an entry |
| Selection.ExecutionsOfOneHost | backend/app/analysis/activities.py:1807-1854 | merging the executions of one host gives that host's part of the merged list |
| Provenance.AccessIff | backend/app/analysis/activities.py:1955-1967 | two entries are merged as file accesses exactly if they have one kind of access and path, hosts that agree, different sources, and lie within 1800 seconds |
| Provenance.AccessHolds | backend/app/analysis/activities.py:1953-1978 | whatever a merged file access holds was recorded of such an entry |
| Selection.FileAccessesOfOneHost | backend/app/analysis/activities.py:1941-1979 | with all hosts known, merging the file accesses of one host gives that host's part of the merged list |
| Provenance.CondensedLeavesOne | backend/app/analysis/semi_auto.py:110-116 | after the three dropping passes no two entries record one start, one access, or one deed with the same key field, and the list is in order of time texts |
| Provenance.GrownLists | backend/app/analysis/activities.py:1836-1852 | the reasons and the tags of a survivor are exactly its own and those of what it took in, with the tag of the pass if it took anything in |
| Provenance.GrownConfidence | backend/app/analysis/activities.py:1840 | its confidence is the highest of these, and at least 0.95 for a merged execution and 0.9 for a merged file access |
| Provenance.GrownSources | backend/app/analysis/activities.py:1841-1848 | its list of sources names its own and that of the last entry taken in |
| Selection.MergeCommutes | backend/app/analysis/activities.py:1807-1854 | selecting entries that are related to no others commutes with any dropping pass |
| Text.SortedSetUnique | backend/app/analysis/activities.py:1797-1800 | two lists with the same elements have the same sorted set |
| Text.StableSortCorrect | backend/app/analysis/timeline.py:4-5 | the sort returns a permutation ordered by key that keeps the order of equal keys, and changes a list only if it is not sorted |
| Registry.SpreadIsChains | backend/app/analysis/activities.py:1899-1938 | after the pass an entry holds exactly the original evidence of the entries it has a chain to, a chain going through matches ever earlier in the list |
| Registry.SpreadSandwich | backend/app/analysis/activities.py:1902-1938 | in any list order an entry holds at least its own and its direct matches' original evidence, and nothing outside what routes of matches reach |
| Registry.SandwichIsTight | backend/app/analysis/activities.py:1914-1937 | when entries that relay evidence stand before those that take from them evidence travels every route, when they stand after them a single step |
| Registry.OrderFreeIffTransitive | backend/app/analysis/activities.py:1914-1937 | in every order of every selection of the entries evidence makes single steps if and only if taking is transitive between different entries |
| Registry.TransitiveEvidence | backend/app/analysis/activities.py:1933-1934 | there an entry ends with exactly its own and its direct matches' original evidence |
| Registry.OrderDecidesReach | backend/app/analysis/activities.py:1914-1937 | for any three entries that break transitivity, what only the third holds reaches the first in one order and not in the reverse order |
| Registry.TakesNotTransitive | backend/app/analysis/activities.py:1923-1931 | a persistence entry, a service entry and an execution that break transitivity |
| Registry.TakeMatches | backend/app/analysis/activities.py:1903-1937 | the inner loop for one persistence entry, reading candidates of which earlier ones have already changed |
| Registry.CorrelateRegistry | backend/app/analysis/activities.py:1899-1938 | the nested loops over shared objects compute the specified spread |
| RegistryScope.TakesIff | backend/app/analysis/activities.py:1914-1931 | one entry takes from another exactly if the first is a persistence entry, the second an execution or a service entry, hosts agree and times lie within 1800 seconds as far as both are known, and path or service match |
| RegistryScope.RegistryOnFacts | backend/app/analysis/activities.py:1902-1938 | evidence does step between two such entries, and whatever arrives came along such steps |
| RegistryScope.TakerIsMarked | backend/app/analysis/activities.py:1932-1937 | an entry that may take from nothing is left as it was; one that takes gets the tag, the reasons, and confidence 0.9 or, with matching paths, 0.94 |
| Selection.RegistryOfOneHost | backend/app/analysis/activities.py:1919 | with all hosts known, the entries of one host end as if the list held nothing else |
| Growth.ExtendsTransitive | backend/app/analysis/semi_auto.py:119-167 | extending a list twice extends it: entries keep place, facts and evidence, nothing is invented, links resolve |
| TablePasses.MatchedAreEntries | backend/app/analysis/activities.py:2003-2034 | whatever an item is matched with is a member of the list and a candidate, never itself an item |
| TablePasses.ItemIgnoresIds | backend/app/analysis/activities.py:2051-2076 | what happens to an item does not depend on the ids given to derived activities |
| TablePasses.PassExtends | backend/app/analysis/activities.py:1982-2077 | a pass keeps every entry's place, facts and evidence, appends new ones with fresh ids, loses and invents no evidence and leaves no stored id dangling |
| TablePasses.SummariesStay | backend/app/analysis/activities.py:1982-3157 | no table pass changes a summary, and a derived activity has the summary of its item |
| Derivations.DerivedInOrder | backend/app/analysis/activities.py:2500-2563 | the activities derived from an item are one per applicable recipe, in order; each holds the evidence of the item and of the matches it uses, and each of its key fields names the first match of its slot or is cleared |
| CorrelatePass.Find | backend/app/analysis/activities.py:2003-2016 | the candidate loop, left at its first match where the source breaks off, returns the slot's matches in list order |
| CorrelatePass.ApplySlots | backend/app/analysis/activities.py:2466-2563 | one item is enriched slot by slot while activities derived along the way see the item as it is then |
| CorrelatePass.PassOver | backend/app/analysis/activities.py:1993-2076 | one round of the item loop changes that item and nothing else |
| CorrelatePass.Correlate | backend/app/analysis/activities.py:1982-2077 | the loops of an append-only pass over shared objects compute the pass; the old objects stay in place and the new ones are fresh |
| StandardPasses.LnkSeparate | backend/app/analysis/activities.py:1857-1896 | in the shortcut pass no activity is both item and candidate |
| StandardPasses.BrowserSeparate | backend/app/analysis/activities.py:1982-2077 | the same for the download pass |
| StandardPasses.ArtifactsSeparate | backend/app/analysis/activities.py:2222-2333 | the same for the observed-program pass |
| StandardPasses.BrowserDerives | backend/app/analysis/activities.py:2045-2076 | a download yields one derived activity exactly when an execution matches; it names the first matching execution and the first matching file creation |
| Derivations.FirstFound | backend/app/analysis/activities.py:2003-2034 | a slot that stops at its first match finds the first entry in list order that matches, and nothing exactly when none does |
| Derivations.PassYields | backend/app/analysis/activities.py:2500-2563 | the kinds, ids and cross-references of what is derived from an item follow from which slots have a match |
| StandardPasses.BrowserIgnoresHosts | backend/app/analysis/activities.py:2037-2044 | a download and a detection on different known hosts that match |
| WindowsResults.PowershellSeparate | backend/app/analysis/activities.py:2080-2219 | no activity is both item and candidate in the PowerShell pass |
| WindowsResults.PowershellDerives | backend/app/analysis/activities.py:2170-2192 | a download command yields one activity exactly when a download matches it, and that names the first matching download; other commands yield none |
| WindowsResults.SrumSeparate | backend/app/analysis/activities.py:2336-2433 | the same separation for the network usage pass |
| WindowsResults.SrumDerives | backend/app/analysis/activities.py:2404-2431 | a usage record yields one activity exactly when a download matches; it names the first matching download and the first matching execution, or no execution if none matches |
| WindowsResults.TasksSeparate | backend/app/analysis/activities.py:2436-2563 | the same separation for the scheduled task pass |
| WindowsResults.TasksDerives | backend/app/analysis/activities.py:2516-2561 | a task yields an activity naming the first matching execution if there is one, then one naming the first matching download if there is one |
| WindowsResults.DefenderSeparate | backend/app/analysis/activities.py:2566-2777 | the same separation for the detection pass |
| WindowsResults.RecycleSeparate | backend/app/analysis/activities.py:2780-2949 | the same separation for the recycle bin pass |
| WindowsResults.RecycleDerives | backend/app/analysis/activities.py:2862-2945 | a recycled file yields up to three activities, for the first matching download, detection and persistence entry, each naming it |
| WindowsResults.ShellbagsSeparate | backend/app/analysis/activities.py:2952-3028 | the same separation for the folder access pass |
| WindowsResults.ShellbagsDerives | backend/app/analysis/activities.py:3004-3026 | a folder yields one activity exactly when a download lies in it |
| WindowsResults.JumplistsSeparate | backend/app/analysis/activities.py:3031-3157 | the same separation for the jump list pass, where items and candidates share kinds and differ by source |
| WindowsResults.JumplistsDerives | backend/app/analysis/activities.py:3110-3155 | a jump-list entry yields an activity naming the first matching recycled file and one naming the first matching download |
| WindowsResults.DefenderDerives | backend/app/analysis/activities.py:2638-2773 | a detection yields one activity per match among downloads, executions and persistence entries, each naming the first match, and one per verdict its action or status states, in that order and no others |
| Bits.JobsSeparate | backend/app/ingest/bits/correlation.py:12-18 | no activity is both item and candidate in the pass over transfer jobs |
| Bits.JobsExtend | backend/app/ingest/bits/correlation.py:11-226 | that pass, which also enriches the suspicious jobs of an item, only extends the list |
| Bits.CorrelateJobs | backend/app/ingest/bits/correlation.py:11-226 | the loops over shared objects, in which suspicious jobs are enriched while the items are walked, compute that pass |
| Bits.EnrichSuspicious | backend/app/ingest/bits/correlation.py:161-166 | the inner loop enriches exactly the suspicious jobs that belong to the item |
| Bits.JobReferences | backend/app/ingest/bits/correlation.py:180-224 | on every derived activity the key field written by the pass names a member of the list if and only if the match had no related event, and otherwise is that event |
| Bits.EventReferenceDangles | backend/app/ingest/bits/correlation.py:195 | a transfer job and a detection with a related event, for which the stored value names no activity |
| Usb.DriveTableIsScan | backend/app/analysis/activities.py:1667-1674 | looking a drive up in the dictionary gives the last device of the list with that drive |
| Usb.SerialTableIsScan | backend/app/analysis/activities.py:1668-1678 | looking a serial up gives the last device with that volume serial, else the first with that device serial |
| Usb.UsbSeparate | backend/app/analysis/activities.py:1659-1685 | no device is among the items, so devices keep their contents |
| Usb.OneMatch | backend/app/analysis/activities.py:1698-1709 | an item matches by drive or by serial, never both, and not at all when there are no devices |
| Usb.RecipesExclude | backend/app/analysis/activities.py:1715-1755 | the three kinds of derived activity exclude one another and need a match |
| Usb.UsbDerivesAtMostOne | backend/app/analysis/activities.py:1686-1775 | each item yields at most one derived activity, and without devices the pass changes nothing |
| Usb.BuildTables | backend/app/analysis/activities.py:1667-1678 | the walk over the devices builds the two dictionaries of the specification |
| Usb.LookUp | backend/app/analysis/activities.py:1698-1709 | the dictionary lookups of one item find what linear scans would |
| Usb.CorrelateByTables | backend/app/analysis/activities.py:1680-1775 | the item loop over dictionaries computes the same list as a pass that scans |
| Usb.CorrelateUsb | backend/app/analysis/activities.py:1658-1775 | the whole removable-device pass on the heap |
| Pipeline.MergeRepresents | backend/app/analysis/activities.py:1807-1854 | every input entry is represented by a survivor of its kind that holds all of its evidence |
| Pipeline.CondensedFacts | backend/app/analysis/semi_auto.py:110-116 | after deduplication and both merging passes all evidence is there, ids are distinct, every entry is represented and neither merging pass would find anything to merge |
| Pipeline.RegistryExtends | backend/app/analysis/activities.py:1899-1938 | the registry pass only extends the list |
| Pipeline.StagesExtend | backend/app/analysis/semi_auto.py:119-167 | any number of later passes only extends the list, and ids stay below the next unused one |
| Pipeline.PipelineConserves | backend/app/analysis/semi_auto.py:110-167 | for every input and every sequence of passes the final list holds exactly the input's references and events, represents every input entry, has distinct ids and no dangling cross-reference |
| Pipeline.AnyExtensionsConserve | backend/app/analysis/semi_auto.py:152-164 | the same when passes outside the model run in between, as long as each extends the list |
| Pipeline.FinalIsSettled | backend/app/analysis/semi_auto.py:110-167 | in the final list there is still nothing to merge, as no pass derives an activity of a kind that the merging passes look at |
| Pipeline.TimelineIsStable | backend/app/analysis/timeline.py:4-5 | the timeline lists every entry once, ordered by time text, equal texts in list order, and sorting it again changes nothing |
| Pipeline.ApplyStage | backend/app/analysis/semi_auto.py:119-167 | one later pass on the heap computes its function and keeps ids distinct and links resolved |
| Pipeline.Condense | backend/app/analysis/semi_auto.py:110-116 | the three dropping passes, one after the other on the same objects |
| Pipeline.BuildAnalysis | backend/app/analysis/semi_auto.py:110-167 | the driver that rebinds the list pass by pass computes the specified final list from the generated activities |
| PassOrder.EarlyStagesOk | backend/app/analysis/semi_auto.py:119-149 | every pass of the driver up to the one for removable devices satisfies what the pipeline theorems ask of it |
| PassOrder.HostsRespected | backend/app/analysis/activities.py:1873-1875 | in nine of the passes every match is on the item's host, as far as both hosts are known |
| PassOrder.AnalysisConserves | backend/app/analysis/semi_auto.py:110-167 | the three dropping passes, the eleven that follow, the one over transfer jobs, any further steps that extend the list, and the detection pass last: evidence is conserved, every input activity is represented, ids are distinct and no stored activity id dangles; and nothing is left to merge unless those further steps add it |
| PassOrder.FinishedConserves | backend/app/analysis/semi_auto.py:110-167 | the same conclusions for a run without the four passes outside the model |
| Analysis.ShortcutIff | backend/app/analysis/activities.py:1868-1882 | a shortcut file belongs to an execution exactly if hosts agree, times are known and lie within 1800 seconds, and its path is that of the process, occurs in the command, or names the process |
| Analysis.ExecutionHoldsShortcuts | backend/app/analysis/activities.py:1857-1896 | after the shortcut pass an execution holds the evidence of every shortcut file that belongs to it |
| Analysis.RegistryGathers | backend/app/analysis/semi_auto.py:119-124 | after the registry pass a persistence entry also holds the evidence of what it started, and of the shortcut files of that |
| Findings.ItemTells | backend/app/analysis/activities.py:1993-2076 | an item yields one activity of a kind if the finding is due on it, and none otherwise |
| Findings.NewTells | backend/app/analysis/activities.py:1982-2077 | the activities of a kind that a pass derives are those due on its items, one each, in the order of the items |
| Findings.ItemTakes | backend/app/analysis/activities.py:2003-2034 | an item on which a finding is due holds the evidence of its first partner after the pass |
| Findings.RunInPlaces | backend/app/analysis/semi_auto.py:125-167 | whatever passes add stands in the order of the passes |
| Findings.RunTells | backend/app/analysis/semi_auto.py:125-167 | in the list a run ends with, the activities of a kind are exactly those due on the entries the run started with, each with the host, user, time and key fields that these two entries decide, their evidence, and the partner's id |
| Findings.RunShares | backend/app/analysis/semi_auto.py:125-167 | there each entry on which a finding is due holds its first partner's evidence |
| PassFindings.DownloadExecutedReported | backend/app/analysis/activities.py:2045-2076 | the download pass derives its activity exactly for downloads with an execution of the file around within 1800 seconds, for the first of them |
| PassFindings.FetchedByShellReported | backend/app/analysis/activities.py:2170-2192 | the PowerShell pass, for download commands with a download of the same address, domain or path around within 7200 seconds |
| PassFindings.DownloadObservedReported | backend/app/analysis/activities.py:2281-2305 | the observed-program pass, for programs with a download of the same path or name around within 86400 seconds |
| PassFindings.DownloadedAndActiveReported | backend/app/analysis/activities.py:2404-2431 | the network usage pass, for records of a program with its download around within 7200 seconds |
| PassFindings.TaskRanReported | backend/app/analysis/activities.py:2516-2540 | the task pass, for tasks with an execution of their command around within 7200 seconds |
| PassFindings.DownloadPersistedReported | backend/app/analysis/activities.py:2541-2561 | the task pass, for tasks with a download of what they run around within 86400 seconds |
| PassFindings.DownloadDeletedReported | backend/app/analysis/activities.py:2862-2886 | the recycle bin pass, for recycled files with their download around within 604800 seconds |
| PassFindings.DetectedDeletedReported | backend/app/analysis/activities.py:2887-2910 | the recycle bin pass, for recycled files with a detection of their path or name on the host |
| PassFindings.PersistentDeletedReported | backend/app/analysis/activities.py:2923-2945 | the recycle bin pass, for recycled files that a task, service or persistence entry of the host mentions |
| PassFindings.DownloadInFolderReported | backend/app/analysis/activities.py:3004-3026 | the folder pass, for folders that are the parent of a download which names no other host |
| PassFindings.OpenedAndDeletedReported | backend/app/analysis/activities.py:3110-3132 | the jump list pass, for entries whose target was recycled |
| PassFindings.OpenedDownloadReported | backend/app/analysis/activities.py:3133-3155 | the jump list pass, for entries whose target was downloaded within 604800 seconds |
| PassFindings.DownloadDetectedReported | backend/app/analysis/activities.py:2638-2660 | the detection pass, for detections in a file downloaded around within 86400 seconds |
| PassFindings.ExecutionDetectedReported | backend/app/analysis/activities.py:2662-2684 | the detection pass, for detections in a file executed around within 86400 seconds |
| PassFindings.PersistenceDetectedReported | backend/app/analysis/activities.py:2686-2708 | the detection pass, for detections in a file that a task, service or persistence entry of the host runs |
| PassFindings.VerdictsReported | backend/app/analysis/activities.py:2716-2773 | the detection pass, for each of three verdicts exactly when action or status contains one of its words |
| PassFindings.TransferDetectedReported | backend/app/ingest/bits/correlation.py:180-203 | the transfer job pass, for jobs with a detection in the file they wrote |
| PassFindings.TransferExecutedDerived | backend/app/ingest/bits/correlation.py:204-224 | the transfer job pass, for jobs with an execution of the file they wrote within 86400 seconds |
| DriveFindings.RunNotesDrives | backend/app/analysis/activities.py:1698-1775 | in the list a run ends with, every file access, download or copy command on a drive letter that some device has is noted by an activity that names a device with that letter and holds the evidence of both |
| Analysis.ListsSteady | backend/app/analysis/semi_auto.py:119-167 | the lists of the driver from the registry pass on: each pass extends the list, leaves earlier cross-references alone and derives only the kinds that have its place |
| Analysis.AnalysisReports | backend/app/analysis/semi_auto.py:110-167 | for every input the final list holds exactly the activities due on the condensed list for nineteen kinds, in the order of the passes, with those on drives and executed transfers; and its entries hold what shortcut files, registry entries and partners bring them |
| Analysis.NetworkUsageReported | backend/app/analysis/activities.py:2404-2431 | in particular, network usage by a program that was downloaded to its path on its host within two hours is reported with both entries' evidence and the id of a download |
| Analysis.RunAnalysis | backend/app/analysis/semi_auto.py:110-167 | the driver on the objects themselves, from the generated activities through all modelled passes, computes that list: every pass reports what is due, evidence is conserved, no stored activity id dangles and nothing is left to merge |
| Throttle.CheckKeepsCoupling | backend/app/api/routes_auth.py:34-44 | a check on the pruned table answers like the full log and keeps the two in step |
| Throttle.FailureKeepsCoupling | backend/app/api/routes_auth.py:47-52 | so does recording a failure, with its sweep of stale pairs when the table is large |
| Throttle.PruningNeverShows | backend/app/api/routes_auth.py:34-52 | in every interleaving of checks, failures and successes over all pairs the pruned table gives the answers of the unpruned log |
| Throttle.TableStaysSmall | backend/app/api/routes_auth.py:47-52 | right after a failure the table holds at most 10000 pairs, or at most the pairs with a failure inside the window |
| Throttle.StepKeepsBound | backend/app/api/routes_auth.py:107-128 | each step of a request keeps the bound on recent failures |
| Throttle.FailuresAreBounded | backend/app/api/routes_auth.py:107-128 | with at most k requests of a pair in flight, failures since the last success that lie within 300 seconds number at most 9 + k, in every run |
| Throttle.BoundIsAttained | backend/app/api/routes_auth.py:107-128 | for every k a run with k requests in flight reaches 9 + k failures inside the window |
| Throttle.AdmittedIff | backend/app/api/routes_auth.py:42-44 | a request is admitted exactly when the tenth failure from the end has left the window |
| Throttle.WaitIsShort | backend/app/api/routes_auth.py:44 | the advertised wait is at most 301 seconds |
| Throttle.WaitIsEnoughIff | backend/app/api/routes_auth.py:42-44 | every attempt at or after the advertised wait is admitted if and only if the tenth failure from the end leaves the window within the seconds counted from the first recent failure |
| Throttle.SequentialWaitIsEnough | backend/app/api/routes_auth.py:107-128 | with one request at a time, waiting as told is always enough |
| Throttle.WaitCanBeTooShort | backend/app/api/routes_auth.py:42-44 | for every k above one, a run with k requests in flight after which a client told to wait 201 seconds is refused when it does |
| Throttle.InWindow | backend/app/api/routes_auth.py:37 | the comprehension keeps exactly the failures inside the window, in order |
| Throttle.FailedLogins.WaitSeconds | backend/app/api/routes_auth.py:34-44 | on the dictionary in place: the wait of the full log, and the pair's list pruned or removed |
| Throttle.FailedLogins.RecordFailure | backend/app/api/routes_auth.py:47-52 | on the dictionary in place: stale pairs swept when it is full, the failure appended, the size bound kept |
| Throttle.FailedLogins.Forget | backend/app/api/routes_auth.py:128 | a correct password removes the pair and nothing else |
| IsoClock.FractionOrder | backend/app/main.py:180 | with or without printed microseconds, the text after the seconds is ordered as the microseconds are |
| IsoClock.IsoOrdersFields | backend/app/main.py:180 | printed UTC times are ordered as their fields are, year first |
| IsoClock.FieldsOrderInstants | backend/app/api/routes_auth.py:95 | fields are ordered as instants are, over months and leap years |
| IsoClock.StringOrderIsTimeOrder | backend/app/api/routes_auth.py:95 | for valid UTC times in four-digit years, one printed form is less than another exactly when its instant is earlier |
| Accounts.StepKeepsInv | backend/app/api/routes_admin.py:106-174 | every request keeps the invariant that an unrevoked session belongs to an active user |
| Accounts.RunKeepsInv | backend/app/api/routes_auth.py:84-218 | so does every run of requests |
| Accounts.RevokedStays | backend/app/main.py:176-183 | no request clears or alters a revocation |
| Accounts.RefusalKills | backend/app/main.py:172-187 | a token that is refused is revoked or unknown from then on |
| Accounts.RefusedForever | backend/app/main.py:167-187 | once refused, a token is refused after every further run |
| Accounts.EndedSessionsStayEnded | backend/app/api/routes_admin.py:106-174 | after a disable, reset, revocation or password change no session the user had is ever accepted again, even if the account is enabled |
| Accounts.AliveStep | backend/app/main.py:176-187 | a request that neither signs a token out nor ends the sessions of its user leaves the token's session as it is until it expires |
| Accounts.AcceptedUntilEnded | backend/app/main.py:167-187 | a token stays accepted through every run of such requests, at every instant up to its expiry |
| Accounts.RevokeAllSpares | backend/app/api/routes_admin.py:121-123 | ending the sessions of one user leaves every other user's sessions as they were |
| Accounts.SignsInIff | backend/app/api/routes_auth.py:118-126 | a user who is the first of the name signs in with exactly the stored password if active, and with none otherwise |
| Accounts.PasswordReplaced | backend/app/api/routes_admin.py:142-159 | a reset is refused exactly for a password under twelve characters; after it exactly the new password signs the user in, and no other account changes |
| Accounts.OwnPasswordReplaced | backend/app/api/routes_auth.py:194-211 | an accepted user may change the password exactly with the current one and a new one of twelve characters, and then exactly the new one signs in |
| Accounts.DisableAndEnable | backend/app/api/routes_admin.py:106-140 | after disabling no password signs the user in, after enabling the old one does, and no other account changes |
| Accounts.CreatedSignsIn | backend/app/api/routes_admin.py:59-79 | a user is created exactly if the name is free and the password long enough, as administrator exactly if asked, and that password signs in |
| Accounts.UpdateSetsFlag | backend/app/api/routes_admin.py:81-104 | an update sets the flag as asked and changes nothing else |
| Accounts.ReadersAgree | backend/app/services/auth_dependencies.py:35-53 | the three readers of the session table, each written out from its own code, give the same answer and leave the same sessions; only that of the sign-in routes touches a user, and only the time of use |
| Accounts.GuardAdmitsIff | backend/app/services/auth_dependencies.py:56-66 | the guard of the administration routes admits exactly the tokens that the middleware accepts for an administrator, who is then active |
| Accounts.AcceptedIff | backend/app/main.py:176-187 | a session is accepted exactly while it is unrevoked and its expiry instant has not passed, although strings are compared |
| Accounts.LoginLasts | backend/app/api/routes_auth.py:124-146 | sign-in succeeds exactly for the first user of that name if active and the password is right, and its token works for exactly 24 hours |
| Accounts.AdminRemains | backend/app/api/routes_admin.py:87-119 | no request takes the last active administrator away |
| Accounts.StepKeeps | backend/app/main.py:167-187 | every request keeps the session invariant, keeps dead tokens dead and leaves an active administrator if there was one |
| Accounts.DisableRefusedIff | backend/app/api/routes_admin.py:106-140 | for a caller who is an active administrator a disable is refused exactly for an unknown user or for oneself, so that the test for another active administrator never decides; with the flag off it is enabling |
| Accounts.DemotionRefusedIff | backend/app/api/routes_admin.py:87-90 | such a caller's demotion of a user is refused exactly when the user is the caller and no other active administrator exists |
| AuthService.Service.SignIn | backend/app/api/routes_auth.py:107-158 | the route with the throttle around it: refused with 429 while a wait is due, a failure recorded for a wrong password, the pair forgotten for a right one; the session invariant and every dead token stay |
| AuthService.Service.AuthenticateSession | backend/app/main.py:167-187 | the reader in the middleware: it revokes an expired row in place, and a token it refuses is dead afterwards |
| AuthService.Service.GetSessionUser | backend/app/api/routes_auth.py:84-104 | the reader of the sign-in routes with its own checks, which also stores the time of use; a token it refuses is dead afterwards |
| AuthService.Service.GetDependencyUser | backend/app/services/auth_dependencies.py:35-53 | the reader behind the other routes with its own checks; a token it refuses is dead afterwards |
| AuthService.Service.AdmitAdmin | backend/app/services/auth_dependencies.py:56-66 | whoever gets past the guard is an active administrator |
| AuthService.Service.SignOut | backend/app/api/routes_auth.py:161-174 | sign-out revokes the presented session if it is unrevoked, leaves its token dead and every other session as it was |
| AuthService.Service.ChangeOwnPassword | backend/app/api/routes_auth.py:194-211 | a password change checks in the order of the source, leaves every token of the user dead and the sessions of all others as they were |
| AuthService.Service.Create | backend/app/api/routes_admin.py:59-79 | creating a user, refused for a taken name or a short password |
| AuthService.Service.AnotherActiveAdmin | backend/app/api/routes_admin.py:88 | the count of other active administrators is positive exactly when one exists |
| AuthService.Service.Update | backend/app/api/routes_admin.py:81-104 | demotion is refused for the last active administrator |
| AuthService.Service.Disable | backend/app/api/routes_admin.py:106-128 | disabling is refused for oneself and for the last active administrator, and otherwise leaves every token of the user dead, the sessions of all others as they were and an active administrator in place |
| AuthService.Service.Enable | backend/app/api/routes_admin.py:130-140 | enabling leaves the session table alone |
| AuthService.Service.Reset | backend/app/api/routes_admin.py:142-159 | a reset changes the password, leaves every token of the user dead and the sessions of all others as they were |
| AuthService.Service.RevokeUser | backend/app/api/routes_admin.py:161-175 | revocation ends every unrevoked session of the user and leaves the sessions of all others as they were |
| Setup.StepKeepsInv | backend/app/api/routes_auth.py:231-252 | each step of concurrent setup requests and of account administration keeps the protocol's invariant |
| Setup.SetupSucceedsOnce | backend/app/api/routes_auth.py:231-252 | in every interleaving setup succeeds at most once, at most one request is inside its transaction, and after a success there is always an active administrator |
| Setup.SetupCanSucceed | backend/app/api/routes_auth.py:231-252 | a request with acceptable input that finds the lock free and no user does succeed |
| Setup.StepsAreFirstAdmin | backend/app/api/routes_auth.py:231-282 | the steps of one request taken together, the session issued after the commit included, are the route as one step on both tables |
| EvidenceStatus.NoDocumentsIdempotent | backend/app/api/routes_evidence.py:978-1078 | without documents a second recomputation changes nothing |
| EvidenceStatus.SecondRunKeepsEssence | backend/app/api/routes_evidence.py:978-1078 | with documents a second recomputation changes only the reason, what repeats the display status, and one more repair row |
| EvidenceStatus.RowsUnlessDisplay | backend/app/api/routes_evidence.py:978-1078 | run rows change only in the phase of the latest run, and only if the display status does |
| EvidenceStatus.DisplayStableIff | backend/app/api/routes_evidence.py:978-1078 | the display status is unchanged by a second run if and only if the metadata did not hold an empty error log beside an otherwise clean record |
| EvidenceStatus.HollowDisplays | backend/app/api/routes_evidence.py:978-1078 | with such an error log the display goes from completed to completed with warnings |
| EvidenceStatus.DisplayChanges | backend/app/api/routes_evidence.py:978-1078 | a completed record without warnings whose display status changes on the second run |
| EvidenceStatus.ThirdRunChangesNothing | backend/app/api/routes_evidence.py:978-1078 | from the second run on only the repair history grows |
| EvidenceStatus.StatusIff | backend/app/api/routes_evidence.py:985-1008 | with documents the status is completed with errors exactly if parsers really failed or the consulted error log names a fatal type, and completed otherwise; display status and both counts follow from record and report |
| EvidenceStatus.NotReadyWithout | backend/app/api/routes_evidence.py:1070-1078 | without documents the status stays, the display repeats it, and the evidence is not ready |
| EvidenceStatus.CompletedIsTidy | backend/app/api/routes_evidence.py:1011-1025 | a completed record lists no present errors, which become history where there is none; one with errors keeps its lists and rows |
| EvidenceStatus.RowsOfCompleted | backend/app/api/routes_evidence.py:1026-1045 | in a completed record exactly the row of the latest run is rewritten, without failures and with the display status as phase |
| EvidenceStatus.ErrorsAreDropped | backend/app/api/routes_evidence.py:1014-1017 | a record whose parser errors vanish because it has an older history |
| EvidenceStatus.Evidence.CleanRuns | backend/app/api/routes_evidence.py:978-1078 | the loop over the run rows computes the cleaned rows, leaving rows of other shapes alone |
| EvidenceStatus.Evidence.Describe | backend/app/api/routes_evidence.py:978-1078 | the assignments of status, reason, display status and counts for an evidence with documents |
| EvidenceStatus.Evidence.Recompute | backend/app/api/routes_evidence.py:978-1078 | the function on the record in place, branch by branch, computes the specified new record |
| LongTail.ListsPartition | backend/app/api/routes_evidence.py:3308-3322 | the two answer lists partition the selected rows, the deferred ones are exactly those that were open and not running, and a running row is left as it is |
| LongTail.FinalisationIsSafe | backend/app/api/routes_evidence.py:3361-3368 | when the endpoint finalises, nothing stays processing or queued, no count goes down, a higher count that was reported last is taken over, each selected row is partially indexed exactly when its count is positive, and the others are untouched |
| LongTail.AnswersTruthfully | backend/app/api/routes_evidence.py:3308-3322 | an answer that does not finalise lists a selected row as deferred exactly if it was open and is not worked on, as noted otherwise, and only the deferred rows change, to the status their count calls for |
| LongTail.ApplySafeDefer | backend/app/api/routes_evidence.py:3308-3322 | the loop over shared rows computes the deferral and both lists |
| LongTail.FinaliseRun | backend/app/api/routes_evidence.py:3361-3368 | the finalising loop computes the final rows |
| LongTail.StillOpen | backend/app/api/routes_evidence.py:3517-3522 | the test that only the tail remains: something is open and everything open is selected |
| LongTail.DeferLongTail | backend/app/api/routes_evidence.py:3505-3560 | the endpoint, from the choice of rows to its answer |
| HealthChecks.LatestGrows | backend/app/api/routes_evidence.py:3567-3568 | one more store moves its key to the end of the history's latest rows |
| HealthChecks.CutCommutes | backend/app/api/routes_evidence.py:3567-3569 | storing into the list cut to 100 rows equals cutting after storing into the uncut one |
| HealthChecks.StoreRefinesHistory | backend/app/api/routes_evidence.py:3563-3571 | after any sequence of stores the list is the 100 most recently stored distinct keys of the whole history with their latest rows, in recency order |
| HealthChecks.Metadata.Store | backend/app/api/routes_evidence.py:3563-3571 | the function on the metadata in place computes that store |
| Backfill.PickValues | backend/scripts/backfill_event_data_search_text.py:41-57 | the loop over candidates picks the first 60 values not yet in the text, each once |
| Backfill.Collect | backend/scripts/backfill_event_data_search_text.py:26-37 | the candidates are the summary columns of the raw fields followed by the event data |
| Backfill.UpdateDocument | backend/scripts/backfill_event_data_search_text.py:26-62 | the script on one document computes the run of the specification, leaving documents without Windows fields or candidates alone |
| Backfill.RunOnFacts | backend/scripts/backfill_event_data_search_text.py:26-62 | a run appends, separated by bars and cut to 8192 characters, at most sixty texts, all if fewer: trimmed values of 1 to 512 characters of event data or summary columns, without the three skipped keys and the nine placeholders, that do not occur in the text, no two alike but for case |
| Backfill.MissingAsSet | backend/scripts/backfill_event_data_search_text.py:51-55 | the missing values have distinct lower-cased forms, and these are exactly the eligible forms that do not occur in the text |
| Backfill.ExtendedContains | backend/scripts/backfill_event_data_search_text.py:59-60 | the joined text contains whatever the old text and the added values contain |
| Backfill.RunShrinksMissing | backend/scripts/backfill_event_data_search_text.py:43-62 | a run that cuts nothing reduces the number of missing values at least by the number it added, which is 60 or all of them |
| Backfill.FixedIff | backend/scripts/backfill_event_data_search_text.py:58-62 | a text is left alone exactly when nothing is missing or it is 8192 long |
| Backfill.PrefixNeverChanges | backend/scripts/backfill_event_data_search_text.py:60-61 | the first 8192 characters of the old text never change, in any number of runs |
| Backfill.RunsConverge | backend/scripts/backfill_event_data_search_text.py:25-63 | with m values missing, any n runs with 60 n at least m reach a text that further runs leave alone |
| Backfill.FixedTextIsComplete | backend/scripts/backfill_event_data_search_text.py:54-61 | a fixed text is full or contains every eligible value |
| Backfill.IdempotentIff | backend/scripts/backfill_event_data_search_text.py:10-11 | two runs equal one if and only if nothing was added, the text is full, or every value kept out by the cap occurs in the new text |
| Backfill.FewMissingIdempotent | backend/scripts/backfill_event_data_search_text.py:10-11 | with at most 60 missing values two runs equal one |
| Backfill.DocumentConverges | backend/scripts/backfill_event_data_search_text.py:25-63 | for every document enough runs reach a fixed text that starts with the old one and is full or complete |
| Backfill.SecondRunStillAdds | backend/scripts/backfill_event_data_search_text.py:44 | 61 new values for which the second run still changes the text |
| PdfWrap.MarksAreOnThePage | backend/app/api/routes_cases.py:1102-1123 | whatever the text, every line is drawn strictly above the bottom margin, and the next one stands one line height below it or at the top of the next page |
| PdfWrap.GreedyStaysAhead | backend/app/api/routes_cases.py:1108-1121 | a greedy line that starts no earlier among the words than a line of another fitting split leads to no more lines in all |
| PdfWrap.LinesAreGroups | backend/app/api/routes_cases.py:1108-1121 | the lines are consecutive groups of the words joined by spaces, each fitting |
| PdfWrap.GreedyIsOptimal | backend/app/api/routes_cases.py:1102-1123 | for non-empty words that each fit, the drawn lines hold all words in order, each fits, and no other split into fitting lines has fewer lines |
| PdfWrap.WordsSpellTheText | backend/app/api/routes_cases.py:1108 | joining the words with spaces gives the text back, and no word holds a space |
| PdfWrap.OverlongLinesAreSingleWords | backend/app/api/routes_cases.py:1110-1121 | whatever the words, a line that does not fit is a single word |
| PdfWrap.Canvas.DrawLine | backend/app/api/routes_cases.py:1102-1123 | the loop with its page breaks draws exactly the specified lines at the specified places |

## Left out

- Event routing and sections (`event_to_activity`, `section_activities`): the pipeline starts from any list of activities with distinct ids and ends with the final list.
- The WMI, autoruns, cloud and network passes: `PassOrder.AnalysisConserves` and `Pipeline.AnyExtensionsConserve` cover any pass that extends the list. That these four do is not proved here.
- `Analysis.RunAnalysis` leaves these four passes out of the run.
- Titles, severities and the fixed summaries that two recipes of the removable-device pass write: derived activities keep the item's summary.
- Path and text inspection: drive letters, Windows parents, folders of jump lists, path lists, copy commands and missing content files are functions of facts that no pass changes; the facts hold the id, and the summary that the copy test also reads stays as it is (`TablePasses.SummariesStay`). File names are the part after the last slash.
- Key fields are split into fixed facts, notes and correlated sources that passes write, and links that hold activity ids; values are strings, and a missing one reads as the empty string.
- Confidence is a real number. A parsed time is a wall-clock time with an offset; comparing a time that has an offset with one that has none, which raises an error in the source, is not modelled.
- Fresh ids are the next unused numbers, standing for random unique ids.
- Slots of a table pass that derive nothing: that their matches join the item's evidence is part of the pass as computed, and not said again on the recorded facts; for slots with a recipe it is (`Findings.RunShares`).
- DriveFindings.RunNotesDrives: says nothing of matches by serial number, and not which of several devices with a letter is named; `Usb.DriveTableIsScan` and `Usb.SerialTableIsScan` say that for a lookup.
- PassFindings.TransferExecutedDerived: the second look for an execution, by name in titles and summaries, is not said again on the recorded facts.
- CorrelatePass.Find: walks the whole list with a test for candidates, where the source filters the list first; the objects visited are the same.
- MergePasses.MergeSources: one method serves both merging passes, with the rule as parameter.
- Passwords and tokens stand for their hashes, and a fresh token is one never seen before.
- AuthService.Service.Update: e-mail and display name are not modelled, as no check reads them.
- Usb.CorrelateUsb: titles, severities and the two fixed summaries of derived activities are not modelled.
- Each route is one step with one reading of the clock; races between account routes in the database are not modelled. Setup is taken apart into its steps.
- Setup also grants the new administrator access to all cases, which is not modelled.
- Client addresses behind proxies, cookies, audit records, service tokens and the administrator created at start-up.
- Throttle.TableStaysSmall: the window is the one at the sweep, whose clock reading comes just before that of the failure.
- EvidenceStatus.Evidence.Recompute: the number of documents and the problem report are parameters, and an error log or repair list of another type than the usual one is not modelled.
- LongTail.DeferLongTail: the stored list of requests, the manifest, stopping the job and the report of eligible artifacts are not modelled; the eligible ids are a parameter.
- Lower-casing works character by character and trimming removes blanks; a missing `search_text` reads as empty.
- Widths of text are sums of non-negative character widths.
- Application usage, progress percentages, case access rules, and the HTTP, database, index and queue plumbing.
