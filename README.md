# Lead network toxicology: a verified model of the rule sets

The repository is a set of research scripts. They study the toxicology of
lead and other heavy metals and of PFAS compounds. They link blood lead
from the NHANES survey to cardio-kidney-metabolic (CKM) risk, and they use
network-toxicology gene tables.

This project models the deterministic rules inside those scripts and proves
properties of them. It does not model the file, network, statistics and
plotting code around the rules.

- **CKM risk rules.** Four CKM scripts and the simulation generator share
  these rules (`CkmCommon`, `LeadCkmAop`, `LeadCkmComplete`, `LeadCkmFinal`,
  `LeadCkmAnalysis`, `SimulationData`):
  - metabolic-syndrome flags with sex-specific thresholds, and missing
    values treated like NaN;
  - the questionnaire recode;
  - the composite scores;
  - the two staging rules: a first-match ladder and a points-and-cap rule;
  - the significance label and the guarded correlation list;
  - the mediation decomposition over reals.
- **Gene-set analytics** (`GeneSets`, `PfasAnalysis`, `MultiMetalAnalysis`,
  `LeadNetworkToxicology`, `LeadBpTargets`):
  - Jaccard matrices, filled in place in a two-dimensional array;
  - overlap filters;
  - shared and core gene counting, built with a dict and appends in a loop;
  - the pairwise shared-gene tables;
  - the KEGG fallback threshold filter and its stable sort by p-value;
  - `drop_duplicates` and the inner join of the blood-pressure targets;
  - lookups with a default.
- **Record, graph and text builders:**
  - the node and edge lists of three network pages, with running ids,
    de-duplication and edge counts;
  - the Markdown writer `format_table_simple`;
  - the shared-gene table and the top-five summaries of the PFAS report;
  - the risk-gauge arithmetic and the label and colour derivations of the
    interactive figures (`InteractiveVisualization`).
- **Virtual-cell bookkeeping** (`VcellSimulation`):
  - the species, initial-condition, reaction and parameter tables, as a
    class whose methods update them;
  - the endothelial model's construction and exposure setting;
  - both right-hand sides of the ODE over reals;
  - the sensitivity sweep that changes a parameter and restores it.
- **NHANES update tracker** (`NhanesAutoUpdate`):
  - `NHANESUpdater` as a class over its configuration;
  - the new / updated / unchanged classification;
  - the digest bookkeeping after downloads, with the history record;
  - the notification guard.

Helper modules:
- `Common`: Option, sequence helpers, and the enumeration of a Python set in an unspecified order.
- `Strings`: substring search, `str.replace`, and decimal rendering of naturals.
- `StableSort`: Python's `sorted` with a key, proved ordered, a permutation and stable.

Modelling conventions:
- A measured column that may be NaN is an `Option<real>`; a comparison with `None` is false, as it is with NaN in pandas.
- `np.where(Gender == 2, …)` with a missing gender takes the male branch.
- An ordered Python dict is a sequence of its items, or a key sequence next to a map when it is updated in place.
- Python set iteration order is unspecified. It is modelled by a method that picks any enumeration, and no order is promised.
- HTTP responses, file existence, MD5 digests, clocks and the ODE solver are parameters:
  - maps from file name to digest;
  - functions from URL to an optional download;
  - a `now` string;
  - a `run` function.

## Model

| member | source | states |
|---|---|---|
| CkmCommon.Flag | lead_ckm_aop.py:70-74 | `astype(float)` of a condition is 0 or 1, and 1 exactly when the condition holds |
| CkmCommon.HighWaist | lead_ckm_aop.py:70 | set iff the waist is known and exceeds 80 for a participant coded 2, 90 otherwise |
| CkmCommon.HighTG | lead_ckm_complete.py:105 | set iff triglycerides are known and at least 150 |
| CkmCommon.LowHDL | lead_ckm_aop.py:72 | set iff HDL is known and below 50 for a participant coded 2, 40 otherwise |
| CkmCommon.HighBP | lead_ckm_complete.py:115 | set iff SBP ≥ 130 or DBP ≥ 85; a missing reading only rules out itself |
| CkmCommon.HighHbA1c | lead_ckm_complete.py:118 | `High_Glucose`/`High_HbA1c` is set iff HbA1c ≥ 5.7 |
| CkmCommon.MetS5 | lead_ckm_complete.py:121-127 | the five-flag count lies in 0..5; it is 0 iff no flag is set and 5 iff all are |
| CkmCommon.SexSpecificThresholds | lead_ckm_aop.py:70-72 | the female thresholds (waist > 80, HDL < 50) apply exactly to gender 2; everyone else gets waist > 90 and HDL < 40 |
| CkmCommon.MissingMeansNoFlag | lead_ckm_aop.py:77 | with every measurement missing no flag is set, so MetS is 0 |
| CkmCommon.Recode | lead_ckm_aop.py:80-84 | 1 stays 1; missing, 2, 7 and 9 become 0; any other value is kept |
| CkmCommon.RecodeBinary | lead_ckm_complete.py:134-137 | on NHANES codes (1, 2, 7, 9, missing) the recode is a 0/1 indicator that is 1 exactly for "yes" |
| CkmCommon.RiskScoreRange | lead_ckm_complete.py:140-146 | `CKM_Risk_Score` lies in 0..9 on coded answers and is 9 exactly when all four diagnoses are "yes" and MetS is 5 |
| CkmCommon.SigLabel | lead_ckm_complete.py:223 | "***" below 0.001, "**" below 0.01, "*" below 0.05, otherwise the script's own non-significant label |
| CkmCommon.SigLabelMonotone | lead_ckm_aop.py:181 | a smaller p-value never earns fewer stars |
| CkmCommon.GuardedRow | lead_ckm_aop.py:178-181 | a correlation row exists iff more than 100 paired rows remain, and then it carries the label of its p-value |
| CkmCommon.GuardedResults | lead_ckm_complete.py:218-225 | the results list has at most one row per pair; every row is labelled by its p-value; all pairs are kept when all have more than 100 rows, and none when none has |
| CkmCommon.GuardedResultsSound | lead_ckm_complete.py:219-225 | every reported row is the report (name, r, p, label) of a pair with more than 100 paired rows |
| CkmCommon.GuardedResultsComplete | lead_ckm_complete.py:219-225 | every pair with more than 100 paired rows has its report in the list |
| CkmCommon.GuardedResultsAppend | lead_ckm_complete.py:218-225 | the list follows the order of `pairs`: the results of two runs of pairs are the two result lists one after the other |
| CkmCommon.Decompose | lead_ckm_complete.py:274-284 | indirect = a·b, direct = the X coefficient, and the percentage exists iff c ≠ 0, where percentage·c = indirect·100 |
| CkmCommon.SharesAddUp | lead_ckm_complete.py:274-284 | when c = a·b + c′, the mediated and direct percentages add up to 100 |
| LeadCkmAop.Columns | lead_ckm_aop.py:77-84 | MetS of the derived columns is in 0..5, and on a coded answer CHD is 1 exactly for "yes" |
| LeadCkmAop.CkmStage | lead_ckm_aop.py:90-112 | the stage is in 0..4, and it is 4 exactly when CHD, CKD or stroke is 1, whatever the other fields |
| LeadCkmAop.StageThree | lead_ckm_aop.py:100-104 | stage 3 iff there is no clinical disease and both HTN and DM are 1 |
| LeadCkmAop.StageTwo | lead_ckm_aop.py:100-107 | stage 2 iff there is no clinical disease, not both HTN and DM, and DM is 1 or MetS ≥ 3 |
| LeadCkmAop.StageZero | lead_ckm_aop.py:100-112 | stage 0 iff MetS = 0, DM ≠ 1 and no clinical disease |
| LeadCkmAop.StageMonotoneInMetS | lead_ckm_aop.py:106-110 | with the other fields fixed, the stage does not decrease in MetS |
| LeadCkmAop.HighCountBound | lead_ckm_aop.py:155-157 | the high-lead count of a stage never exceeds its group size |
| LeadCkmAop.BoundaryNotHigh | lead_ckm_aop.py:157 | a reading of exactly 5 µg/dL enlarges the group but not the high count (the test is strictly > 5) |
| LeadCkmAop.HighLeadShare | lead_ckm_aop.py:154-159 | the share is printed iff the stage group is non-empty; it is a percentage in [0, 100] with share·size = high·100 |
| LeadCkmAop.StageShares | lead_ckm_aop.py:154 | one entry per stage 0..4, in stage order |
| LeadCkmAop.AopCorrelation | lead_ckm_aop.py:177-182 | a line is printed iff more than 100 paired rows remain, with the empty label when p ≥ 0.05 |
| LeadCkmComplete.Columns | lead_ckm_complete.py:121-137 | the `MetS_Score` the staging reads is in 0..5 |
| LeadCkmComplete.MetabolicPoints | lead_ckm_complete.py:156-159 | 2 points iff MetS ≥ 3 or diabetes, else 1 iff MetS ≥ 1, else 0 |
| LeadCkmComplete.OrganPoints | lead_ckm_complete.py:160-161 | 2 points iff heart or kidney disease is 1, else 0 |
| LeadCkmComplete.CkmStage | lead_ckm_complete.py:154-162 | the stage is the sum of the two point groups and lies in 0..4, so the `min(score, 4)` cap never changes it |
| LeadCkmComplete.OrganDiseaseAtLeastTwo | lead_ckm_complete.py:160-162 | heart or kidney disease alone gives stage ≥ 2 |
| LeadCkmComplete.StageThree | lead_ckm_complete.py:155-162 | stage 3 iff MetS ∈ {1, 2}, diabetes ≠ 1 and heart or kidney disease |
| LeadCkmComplete.StageOne | lead_ckm_complete.py:155-162 | stage 1 iff MetS ∈ {1, 2}, no diabetes and no organ disease |
| LeadCkmComplete.StageMonotoneInMetS | lead_ckm_complete.py:156-159 | more risk factors never lower the stage |
| LeadCkmComplete.Correlations | lead_ckm_complete.py:218-225 | at most one row per pair, each labelled "***", "**", "*" or "NS"; every row is the report of a pair with more than 100 paired rows, and every such pair is reported |
| LeadCkmComplete.Mediation | lead_ckm_complete.py:274-284 | indirect = slope_a·beta_b[2], direct = beta_b[1], and a percentage exists iff slope_c ≠ 0 |
| LeadCkmFinal.CkmScore | lead_ckm_final.py:75-80 | on coded answers the score lies in 0..9; with no diagnosis answers it equals MetS |
| LeadCkmFinal.Correlations | lead_ckm_final.py:100-104 | row i is the report of pair i: every pair is printed, whatever its size, in input order, labelled by its p-value with "" when not significant |
| LeadCkmFinal.Mediation | lead_ckm_final.py:134-139 | indirect = a·b, direct = beta[1], and the percentage is printed iff c ≠ 0, with percentage·c = a·b·100 |
| LeadCkmAnalysis.MetS3 | lead_ckm_analysis.py:71-76 | the score is the five-flag score less the waist and blood-pressure flags, lies in 0..3, is 3 iff TG ≥ 150, HbA1c ≥ 5.7 and HDL is low, and 0 iff none of the three holds |
| LeadCkmAnalysis.RiskScore7Range | lead_ckm_analysis.py:78-91 | on coded answers the risk score lies in 0..7 and reaches 7 exactly when everything is set |
| LeadCkmAnalysis.RiskScore7AtMostRiskScore | lead_ckm_analysis.py:71-91 | this score is the five-flag score minus the waist and blood-pressure flags |
| LeadCkmAnalysis.Correlations | lead_ckm_analysis.py:131-138 | labels "***", "**", "*" or "NS"; every row is the report of a pair with more than 100 paired rows, and every such pair is reported |
| SimulationData.MetS4 | test_and_visualize.py:52-56 | MetS = High_TG + Low_HDL + High_BP + High_HbA1c lies in 0..4, is 4 iff all four are set, and is the five-flag count without the waist flag |
| SimulationData.Seqn | test_and_visualize.py:30 | `range(1, n + 1)`: n identifiers, the k-th being k + 1, strictly increasing |
| SimulationData.SimulatedIds | test_and_visualize.py:27-30 | with n = 500 the identifiers run from 1 to 500 without repetition |
| GeneSets.JaccardSymmetric | pfas_analysis.py:226-228 | the similarity of a and b equals that of b and a |
| GeneSets.JaccardRange | pfas_analysis.py:226-228 | every similarity is in [0, 1] |
| GeneSets.JaccardDiagonal | pfas_analysis.py:226-228 | a non-empty set has similarity 1 with itself; an empty union gives 0 |
| GeneSets.JaccardDisjoint | multi_metal_analysis.py:255-257 | disjoint gene sets have similarity 0 |
| GeneSets.SharedPairsSound | pfas_analysis.py:628-634 | every row is a pair i < j of table positions with its non-empty overlap, and rows come in i-then-j order, so no unordered pair appears twice |
| GeneSets.SharedPairsComplete | pfas_analysis.py:628-634 | every pair i < j whose lists share a gene has a row |
| GeneSets.UnionOf | pfas_analysis.py:338-340 | a gene is in the union iff some list names it |
| PfasAnalysis.AnalyzePfasTargets | pfas_analysis.py:195-209 | one record per compound, in order, with its list and `target_count = len(genes)` |
| PfasAnalysis.TargetCountBound | pfas_analysis.py:203-206 | the target count (list entries) bounds the number of distinct targets |
| PfasAnalysis.CalculateSimilarity | pfas_analysis.py:212-234 | the n×n matrix holds the Jaccard similarity of each pair; it is symmetric, in [0, 1], with 1 on the diagonal of a non-empty list |
| PfasAnalysis.FillRow | pfas_analysis.py:225-229 | the inner loop fills row i with the similarities and leaves every other row as it was |
| PfasAnalysis.HitFor | pfas_analysis.py:246-254 | a pathway is recorded iff it shares a gene; then its overlap is the intersection, 1 ≤ overlap_count ≤ list size, and enrichment in (0, 1] |
| PfasAnalysis.Overlaps | pfas_analysis.py:246-254 | every hit has 1 ≤ overlap_count ≤ list size, enrichment in (0, 1], an overlap inside the compound's set; no overlap means no hits |
| PfasAnalysis.OverlapsComplete | pfas_analysis.py:246-254 | every pathway that shares a gene is reported, with that overlap |
| PfasAnalysis.OverlapsSound | pfas_analysis.py:246-254 | every reported hit comes from a pathway of the table with a non-empty overlap |
| PfasAnalysis.AnalyzePathwayEnrichment | pfas_analysis.py:237-258 | one result per compound, each the overlaps of its set with the pathway table |
| PfasAnalysis.AnalyzeDiseaseAssociation | pfas_analysis.py:261-281 | one result per compound, each the overlaps of its gene set with the disease table (exactly the diseases sharing a gene, in table order, with the intersection); each entry has 1 ≤ overlap_count ≤ total_genes |
| PfasAnalysis.ListingCounts | pfas_analysis.py:289-293 | a gene's listing has one compound per occurrence of the gene in the table |
| PfasAnalysis.VisitedIffListed | pfas_analysis.py:291-293 | a gene is a key of `all_genes` iff its listing is non-empty |
| PfasAnalysis.Tally | pfas_analysis.py:291-293 | one `append` keeps the dict equal to the listing map, the key order the first-seen order, and the listings' total length the number of visits |
| PfasAnalysis.AnalyzeSharedGenes | pfas_analysis.py:284-293 | `all_genes[g]` has one compound per occurrence of g, keys are exactly the listed genes, in first-seen order without repetition, and the lengths sum to the total list length |
| PfasAnalysis.Summarize | pfas_analysis.py:296-304 | gene_count has the keys of `all_genes`; shared holds the genes whose listing has two or more entries; core holds exactly the genes of `order` whose listing has one entry per compound, in the order of `order`, without repeats when `order` has none |
| PfasAnalysis.Filter | pfas_analysis.py:303-304 | the comprehension keeps exactly the genes of `order` whose listing has length n |
| PfasAnalysis.FilterOrdered | pfas_analysis.py:303-304 | the kept genes are a subsequence of `order` (its order kept), and repeat none when `order` repeats none |
| PfasAnalysis.AnalyzeSharedGenesSummary | pfas_analysis.py:284-313 | gene_count[g] is the occurrence count of g, shared holds the genes with count ≥ 2, and core holds exactly those with count = number of compounds, each once |
| PfasAnalysis.AnalyzeHeavyMetalOverlap | pfas_analysis.py:338-353 | one record per compound; its genes are its targets that some metal list names, and overlap_count is their number, bounded by its distinct targets |
| PfasAnalysis.OverlapWith | pfas_analysis.py:345-349 | the overlap is the compound's set ∩ the union of the metal lists, and its count is its size |
| PfasAnalysis.FormatTableSimple | pfas_analysis.py:507-521 | the three `+=` loops produce exactly the Markdown text of the frame |
| PfasAnalysis.WriteHeader | pfas_analysis.py:509-511 | the header loop writes one " col \|" cell per column after the leading bar |
| PfasAnalysis.WriteSeparator | pfas_analysis.py:512-514 | the separator loop writes one " --- \|" per column |
| PfasAnalysis.WriteRow | pfas_analysis.py:516-520 | a data row is the index cell followed by one formatted cell per column |
| PfasAnalysis.LineShapes | pfas_analysis.py:507-521 | header and separator have one cell per column, each data row one index cell plus one per column, and each line one newline |
| PfasAnalysis.TableLineCount | pfas_analysis.py:507-521 | with plain labels the table has 2 + rows lines |
| PfasAnalysis.SharedRow | pfas_analysis.py:630-636 | a pair gets a line iff its lists overlap, showing at most five of the shared genes |
| PfasAnalysis.SharedTable | pfas_analysis.py:624-636 | one line per unordered pair i < j with a shared gene, in loop order, each showing min(5, overlap) distinct shared genes and "..." exactly when more than five are shared |
| PfasAnalysis.TakeShown | pfas_analysis.py:634-635 | the first five of any enumeration of the overlap are a valid choice of shown genes |
| PfasAnalysis.TopHits | pfas_analysis.py:643-645 | min(5, len) hits, drawn from the compound's results (as a multiset), in non-increasing overlap_count |
| PfasAnalysis.TopHitsDominate | pfas_analysis.py:643-645 | no hit outside the top five has a larger count than one inside, and equal counts keep their table order |
| PfasAnalysis.WriteHitLines | pfas_analysis.py:643-646 | writes one "- name: count个基因" line per shown hit |
| PfasAnalysis.Summary | pfas_analysis.py:638-657 | the summary is the title followed by, per compound in table order with results, its name and top five lines |
| MultiMetalAnalysis.GetMetalGenes | multi_metal_analysis.py:230-232 | the list of the metal's entry, or [] for a metal with none |
| MultiMetalAnalysis.GetAllGenes | multi_metal_analysis.py:235-240 | the genes of every list, each exactly once, in unspecified order |
| MultiMetalAnalysis.MetalSimilarityIsJaccard | multi_metal_analysis.py:254-258 | the non-empty guard changes nothing: the entry is the Jaccard similarity, and 0 when either set is empty |
| MultiMetalAnalysis.CalculateMetalSimilarity | multi_metal_analysis.py:243-261 | the matrix holds the guarded similarity of each pair; it is symmetric, in [0, 1], 0 in a row or column of an empty list, and 1 on the diagonal of a non-empty list |
| MultiMetalAnalysis.CommonGenes | multi_metal_analysis.py:280-281 | a gene is common iff every list names it |
| MultiMetalAnalysis.FindSharedGenes | multi_metal_analysis.py:264-285 | the keys are those of the shared-set table, and each stored list enumerates its shared set without repetition |
| MultiMetalAnalysis.SharedPairsLoop | multi_metal_analysis.py:270-277 | the double loop records exactly the pairs i < j that share genes, in loop order |
| MultiMetalAnalysis.SharedPairEntry | multi_metal_analysis.py:272-277 | with plain metal names, "m1-m2" for i < j is a key iff the lists share a gene, and its value is their intersection |
| MultiMetalAnalysis.SharedAllMetals | multi_metal_analysis.py:280-283 | "All-Metals" is a key iff some gene is on every list, and its value is those genes |
| MultiMetalAnalysis.SharedKeys | multi_metal_analysis.py:270-283 | every key is "All-Metals" or the key of a pair i < j with a non-empty intersection |
| MultiMetalAnalysis.SharedPairsKeysDistinct | multi_metal_analysis.py:277 | with plain metal names no two recorded pairs share a key, so nothing is overwritten |
| MultiMetalAnalysis.FindMetal | multi_metal_analysis.py:301 | `METALS[metal]` is found iff the key is present, and then it is that entry |
| MultiMetalAnalysis.TopName | multi_metal_analysis.py:305-306 | the first entry's name, or "N/A" for an empty list |
| MultiMetalAnalysis.RowFor | multi_metal_analysis.py:292-307 | a row has the metal's symbol, name, colour, Gene_Count = list length, Unique_Genes = distinct genes (never more), and the top pathway and disease |
| MultiMetalAnalysis.BuildComparativeTable | multi_metal_analysis.py:288-310 | the table exists iff every metal of METAL_GENES is in METALS (else KeyError), and then has one row per entry in order |
| MultiMetalAnalysis.LeadUniqueBelowCount | multi_metal_analysis.py:54-73 | the Lead row has Unique_Genes < Gene_Count because ALAD is listed twice |
| MultiMetalAnalysis.ArsenicUniqueBelowCount | multi_metal_analysis.py:74-91 | the Arsenic row has Unique_Genes < Gene_Count because GSTA1 and GSTM1 are listed twice |
| MultiMetalAnalysis.NodesFrom | multi_metal_analysis.py:409-417 | the nodes of one loop take the ids start, start + 1, … in label order |
| MultiMetalAnalysis.MetalNodes | multi_metal_analysis.py:398-406 | the metal nodes take ids 0..n−1, labelled "symbol\n(name)", in the metal's colour, size 40 |
| MultiMetalAnalysis.EntryNames | multi_metal_analysis.py:421-423 | the `set.add` loops collect exactly the names found in some list |
| MultiMetalAnalysis.AppendNodes | multi_metal_analysis.py:425-433 | a labelled loop appends one node per label with the running id |
| MultiMetalAnalysis.FirstTen | multi_metal_analysis.py:425 | `list(names)[:10]` yields min(10, \|names\|) distinct names of the set |
| MultiMetalAnalysis.LayoutNodes | multi_metal_analysis.py:420-449 | after the prefix come at most ten pathway and then at most ten disease nodes, each name once, ids continuing from the prefix |
| MultiMetalAnalysis.NetworkNodes | multi_metal_analysis.py:394-449 | ids are the positions 0..len−1, the metals come first, then the genes shared by all metals, then the pathway and disease layout |
| MultiMetalAnalysis.MetalEdgesSound | multi_metal_analysis.py:455-465 | every edge joins metal i to a node labelled with one of metal i's first five genes |
| MultiMetalAnalysis.MetalEdgesComplete | multi_metal_analysis.py:455-465 | every node labelled with one of metal i's first five genes is joined to metal i |
| MultiMetalAnalysis.NetworkEdges | multi_metal_analysis.py:453-465 | the edge loops produce exactly the metal-to-gene edges of the first five genes of each entry |
| MultiMetalAnalysis.NetworkGraph | multi_metal_analysis.py:390-465 | the node list and the edge list of the network page, as the two members above state |
| LeadNetworkToxicology.Wrap | lead_network_toxicology.py:103 | one `{"gene": g}` per gene, in order |
| LeadNetworkToxicology.Unwrap | lead_network_toxicology.py:372 | one gene per annotation, in order |
| LeadNetworkToxicology.UnwrapWrap | lead_network_toxicology.py:103 | unwrapping the wrapped list gives the list back, order and repetitions included |
| LeadNetworkToxicology.GetKnownLeadGenes | lead_network_toxicology.py:51-103 | the annotations name the literal gene list in order, duplicates kept |
| LeadNetworkToxicology.KnownListRepeatsGSTA1 | lead_network_toxicology.py:56-95 | GSTA1 is in both the oxidative-stress and the DNA-repair group, so the list has fewer distinct genes than entries |
| LeadNetworkToxicology.TargetGenes | lead_network_toxicology.py:372-373 | the de-duplicated genes are the annotation genes, same set, none repeated; a response without "annotations" gives none |
| LeadNetworkToxicology.FallbackTargetsShrink | lead_network_toxicology.py:373 | on the fallback list the de-duplication removes at least one entry |
| LeadNetworkToxicology.OverlapSize | lead_network_toxicology.py:227 | the overlap is at most the pathway's gene count |
| LeadNetworkToxicology.Candidates | lead_network_toxicology.py:225-236 | every candidate has 3 ≤ overlap ≤ total |
| LeadNetworkToxicology.CandidatesComplete | lead_network_toxicology.py:226-236 | every table pathway with overlap ≥ 3 is a candidate |
| LeadNetworkToxicology.CandidatesSound | lead_network_toxicology.py:226-236 | every candidate is a table pathway with overlap ≥ 3 |
| LeadNetworkToxicology.ManualKeggEnrichment | lead_network_toxicology.py:168-237 | the result is the candidates sorted stably by p-value |
| LeadNetworkToxicology.KeggEnrichment | lead_network_toxicology.py:155-166 | `kegg_enrichment` returns what `manual_kegg_enrichment` returns |
| LeadNetworkToxicology.EnrichmentResult | lead_network_toxicology.py:225-237 | the result is sorted by p-value, a permutation of the candidates with ties in table order, and holds exactly the pathways with overlap ≥ 3, each with 3 ≤ overlap ≤ total |
| LeadNetworkToxicology.NodeColorDefault | lead_network_toxicology.py:247-258 | a gene no pathway lists keeps "#4a90d9" |
| LeadNetworkToxicology.NodeColorFirst | lead_network_toxicology.py:248-258 | the first pathway that lists the gene decides its colour, by the first keyword its name contains |
| LeadNetworkToxicology.EnrichedNodesDefault | lead_network_toxicology.py:229-249 | enrichment records have no "genes" key, so with them every node is "#4a90d9" |
| LeadNetworkToxicology.ColorLoop | lead_network_toxicology.py:247-258 | the loop with its `break` computes the colour the first listing pathway gives |
| LeadNetworkToxicology.NodeSizeRange | lead_network_toxicology.py:264 | a listed gene's size is in [30, 50], and 30 when it occurs once |
| LeadNetworkToxicology.NetworkNodes | lead_network_toxicology.py:245-266 | min(100, len(genes)) nodes, the k-th for the k-th gene, each sized in [30, 50] |
| LeadNetworkToxicology.EdgeOf | lead_network_toxicology.py:270-275 | an edge exists iff the interaction is a dict with "preferredName_A"; its width is min(5, score/200) ≤ 5 |
| LeadNetworkToxicology.Edges | lead_network_toxicology.py:269-275 | at most one edge per interaction, each of width ≤ 5 |
| LeadNetworkToxicology.TsvLinesNoEdges | lead_network_toxicology.py:269-275 | TSV text lines yield no edges at all |
| LeadNetworkToxicology.NetworkEdges | lead_network_toxicology.py:269-275 | the loop over the first 200 interactions gives their edges, at most 200 |
| InteractiveVisualization.MetalColor | interactive_visualization.py:38-44 | a key of `METAL_COLORS` gets its colour, any other key the default "#4477AA" |
| InteractiveVisualization.Relabel | interactive_visualization.py:147 | one label per column |
| InteractiveVisualization.RelabelColumns | interactive_visualization.py:138-147 | a known code becomes its label and any other column name is kept |
| InteractiveVisualization.RelabelDefaultMetals | interactive_visualization.py:136-147 | the four default metal columns get their four labels |
| InteractiveVisualization.RelabelIdempotent | interactive_visualization.py:147 | relabelling a second time changes nothing |
| InteractiveVisualization.MetalNameLead | interactive_visualization.py:186 | "LBXBPB" is named "Lead" |
| InteractiveVisualization.MetalNameOther | interactive_visualization.py:186 | an LBX code whose three-letter rest is not "BPB" is named by that rest |
| InteractiveVisualization.CurveColor | interactive_visualization.py:192 | a derived name whose first two characters are a key of `METAL_COLORS` gets that colour, any other gets "#4477AA" |
| InteractiveVisualization.CurveColorDefault | interactive_visualization.py:186-192 | the four NHANES metal columns all fall back to "#4477AA" |
| InteractiveVisualization.CurveColorOther | interactive_visualization.py:186-192 | any LBX code whose derived prefix is no symbol falls back to "#4477AA" |
| InteractiveVisualization.LeadRisk | interactive_visualization.py:317 | lead·5 up to 10 µg/dL, and 50 from there on |
| InteractiveVisualization.CkmRisk | interactive_visualization.py:318 | score/4·50 |
| InteractiveVisualization.CombinedRiskRange | interactive_visualization.py:317-319 | for lead ≥ 0 and a score in 0..4 each half is in [0, 50] and the gauge in [0, 100] |
| InteractiveVisualization.LeadRiskMonotone | interactive_visualization.py:317 | the lead half does not decrease in the lead level |
| InteractiveVisualization.EdgeOf | interactive_visualization.py:392-397 | an edge keeps metal, disease and the signed correlation, with weight \|corr\| ≥ 0 |
| InteractiveVisualization.AppendNewFresh | interactive_visualization.py:383-389 | every disease node added is new at the moment it is added |
| InteractiveVisualization.AppendNewCovers | interactive_visualization.py:381-389 | every disease ends up a node id |
| InteractiveVisualization.NetworkIdsDistinct | interactive_visualization.py:371-389 | with distinct metal keys no node id is repeated |
| InteractiveVisualization.AddEntry | interactive_visualization.py:382-397 | one inner pass adds the disease node iff its id is new, and always the edge |
| InteractiveVisualization.AddRow | interactive_visualization.py:381-397 | the inner loop over one metal's diseases keeps the node and edge lists in step with the entries done |
| InteractiveVisualization.MetalNodesFor | interactive_visualization.py:371-377 | one metal node per key, in dict order |
| InteractiveVisualization.MetalDiseaseNetwork | interactive_visualization.py:366-397 | the metal nodes in key order, then each disease not already an id in first-seen order, and one edge per entry |
| InteractiveVisualization.NetworkEdges | interactive_visualization.py:380-397 | exactly one edge per (metal, disease) entry, at its position, weight \|corr\| ≥ 0, correlation kept |
| InteractiveVisualization.NetworkCovers | interactive_visualization.py:381-389 | every disease of the input is a node |
| InteractiveVisualization.NetworkDiseaseNode | interactive_visualization.py:383-389 | every node after the metals is a disease node of the input, in the disease colour |
| InteractiveVisualization.NetworkNoRepeat | interactive_visualization.py:383 | a disease node repeats no earlier id, metal ids included |
| LeadBpTargets.PredictBindingSites | lead_bp_targets.py:98-190 | the table entry for a listed gene, otherwise the "Unknown" record |
| LeadBpTargets.BindingLookup | lead_bp_targets.py:105-190 | the table has entries exactly for the ten priority targets, each with a structure; every other gene is "Unknown" with no availability |
| LeadBpTargets.GroupRows | lead_bp_targets.py:202-207 | one row per gene of a group |
| LeadBpTargets.AllTargetsRows | lead_bp_targets.py:200-207 | before de-duplication there is one row per (group, gene) entry, at its position in table order |
| LeadBpTargets.DropDuplicatesGenes | lead_bp_targets.py:211 | the kept genes are those of the input, each once |
| LeadBpTargets.DropDuplicatesSound | lead_bp_targets.py:211 | every kept row is the first row of its gene |
| LeadBpTargets.DropDuplicatesComplete | lead_bp_targets.py:211 | every first row of a gene is kept |
| LeadBpTargets.MatchesSingle | lead_bp_targets.py:222 | a left row with exactly one matching right row joins to just that row |
| LeadBpTargets.MergeOneToOne | lead_bp_targets.py:215-222 | distinct genes with one aligned binding record each make the join one row per target, in order, with its record |
| LeadBpTargets.CollectGroup | lead_bp_targets.py:202-207 | the inner loop appends the group's rows |
| LeadBpTargets.AnalyzeKeyTargets | lead_bp_targets.py:192-222 | one joined row per de-duplicated target, in order, carrying its lookup record |
| LeadBpTargets.KeyTargetsProps | lead_bp_targets.py:200-211 | the targets name each gene of the table once, each with the first group that lists it |
| LeadBpTargets.StructureRowsProps | lead_bp_targets.py:262-270 | min(2, len(result_set)) rows when the response has a "result_set" and none otherwise, each naming the gene with a title of at most 100 characters |
| LeadBpTargets.PdbRowsProps | lead_bp_targets.py:259-270 | at most two rows per searched gene, each for a searched gene |
| LeadBpTargets.GeneRows | lead_bp_targets.py:262-270 | the loop over `structures[:2]` gives the rows for one gene |
| LeadBpTargets.SearchPdbStructures | lead_bp_targets.py:249-280 | the rows for the eight priority genes in turn |
| VcellSimulation.VirtualCellModel.constructor | vcell_simulation.py:44-49 | an empty model with the given name |
| VcellSimulation.VirtualCellModel.AddSpecies | vcell_simulation.py:51-54 | sets `species[name]` and `initial_conditions[name]`; a new key goes last and an old one keeps its place; nothing else changes |
| VcellSimulation.VirtualCellModel.AddReaction | vcell_simulation.py:56-63 | appends one reaction record and sets `parameters[name] = k`; nothing else changes |
| VcellSimulation.VirtualCellModel.InitialValues | vcell_simulation.py:125 | the start vector lists the initial conditions in key order |
| VcellSimulation.BaseDeriv | vcell_simulation.py:106-123 | one rate per species |
| VcellSimulation.Deriv | vcell_simulation.py:106-123 | the array filled species by species equals the base right-hand side |
| VcellSimulation.BaseRateRules | vcell_simulation.py:110-122 | the ROS, SOD, CAT, NO and BP rules as written, with the SOD and BP rules reading y[0] |
| VcellSimulation.BaseRateNos3 | vcell_simulation.py:119-120 | "NOS3" starts with "NO" and takes the NO rule |
| VcellSimulation.BaseRateConstant | vcell_simulation.py:108-123 | "BloodPressure" does not start with "BP", so it and Lead, GPx, ACE, AngII and VascularTone have rate 0 under the base rules |
| VcellSimulation.BaseRateUnmatched | vcell_simulation.py:108-123 | a species matching no prefix has rate 0 |
| VcellSimulation.LeadEndothelialModel.constructor | vcell_simulation.py:210-238 | eleven species Lead..BloodPressure in order with initial values 0, 1, 100, 100, 80, 100, 10, 50, 1, 10, 120, exactly the ten listed parameters, no reactions, no exposure set |
| VcellSimulation.LeadEndothelialModel.SetLeadExposure | vcell_simulation.py:240-243 | stores the concentration and the duration (24 by default) |
| VcellSimulation.LeadEndothelialModel.LeadConc | vcell_simulation.py:307 | the stored concentration, or 5 when none was set |
| VcellSimulation.AddAll | vcell_simulation.py:213-224 | the eleven `add_species` calls give the species table, key order and start vector of the model |
| VcellSimulation.SpeciesNamesDistinct | vcell_simulation.py:213-224 | the eleven species names are different, so each call adds a new key |
| VcellSimulation.LeadDeriv | vcell_simulation.py:309-347 | the right-hand side has eleven entries |
| VcellSimulation.LeadInitialState | vcell_simulation.py:349 | y0 starts with the exposure, followed by the fixed start values |
| VcellSimulation.LeadConstant | vcell_simulation.py:311-347 | the Lead derivative is 0, so exposure stays constant |
| VcellSimulation.LeadDerivSigns | vcell_simulation.py:331-342 | with non-negative state and rates, dSOD, dCAT, dGPx, dNOS3 ≤ 0 and dACE, dAngII, dVT ≥ 0 |
| VcellSimulation.BloodPressureRate | vcell_simulation.py:345 | dBP = tone_bp·VT − 0.1·(BP − 120), negative when VT = 0 and BP > 120, and 0 at BP = 120 |
| VcellSimulation.SensitivityAnalysis | vcell_simulation.py:355-377 | one result per value, each the run with the parameter set to it; afterwards the parameter holds its earlier value (0.1 if absent), and nothing else changed |
| VcellSimulation.Restored | vcell_simulation.py:360 | `parameters.get(name, 0.1)` |
| VcellSimulation.RestorePresent | vcell_simulation.py:360-375 | restoring a present parameter gives back exactly the earlier table |
| NhanesAutoUpdate.FileNameInjective | nhanes_auto_update.py:154 | different file ids give different file names |
| NhanesAutoUpdate.Classify | nhanes_auto_update.py:152-185 | an entry is about its key file and names `file_id.xpt` |
| NhanesAutoUpdate.ClassifyCases | nhanes_auto_update.py:157-185 | a missing file is "new"; a present file whose digest differs from the stored one, or has none, is "updated" with both digests; an equal digest gives no entry, and only that |
| NhanesAutoUpdate.UpdatesFrom | nhanes_auto_update.py:152-185 | no more entries than key files, each about one of them |
| NhanesAutoUpdate.UpdatesDistinct | nhanes_auto_update.py:152-185 | with distinct file ids, at most one entry per key file |
| NhanesAutoUpdate.KeyFileIdsDistinct | nhanes_auto_update.py:36-101 | the key files have distinct ids |
| NhanesAutoUpdate.DownloadedBound | nhanes_auto_update.py:229-247 | `downloaded` is no longer than `updates` |
| NhanesAutoUpdate.DownloadedOrder | nhanes_auto_update.py:229-247 | each record comes from a successful download, the records keep update order, and every success has its record |
| NhanesAutoUpdate.FailedKeepsHash | nhanes_auto_update.py:237-240 | a file without a successful download keeps its stored digest |
| NhanesAutoUpdate.SucceededInSync | nhanes_auto_update.py:237-240 | after a successful download the stored digest is that of the file written |
| NhanesAutoUpdate.InSyncQuiet | nhanes_auto_update.py:169-172 | a file whose stored digest matches its file gives no entry |
| NhanesAutoUpdate.DownloadedQuiet | nhanes_auto_update.py:237-240 | a file downloaded successfully is not reported by the next check |
| NhanesAutoUpdate.Notify | nhanes_auto_update.py:296-322 | nothing for an empty list; printing for "print"; e-mail for "email" with a non-empty address; the items are the list |
| NhanesAutoUpdate.NhanesUpdater.constructor | nhanes_auto_update.py:107-125 | the stored configuration when there is one, otherwise the initial one |
| NhanesAutoUpdate.NhanesUpdater.CheckUpdates | nhanes_auto_update.py:143-190 | the entries of the key files in table order; only `last_check` changes |
| NhanesAutoUpdate.NhanesUpdater.DownloadOne | nhanes_auto_update.py:229-247 | a successful download writes the file, stores its digest and is listed; a failure changes nothing |
| NhanesAutoUpdate.NhanesUpdater.DownloadUpdates | nhanes_auto_update.py:215-256 | an empty list returns [] and changes nothing; otherwise the digests of the successful downloads are stored, `last_update` is set and one history record is appended |
| StableSort.SortByKeyCorrect | lead_network_toxicology.py:237 | `sorted` with a key gives a result ordered by the key that is a permutation of its input |
| StableSort.SortByKeyStable | lead_network_toxicology.py:237 | elements with equal keys keep their input order |

## Left out

- File and network I/O are not modelled and appear only as parameters:
  - reading and merging the NHANES files;
  - writing CSV, JSON, Markdown and HTML files;
  - the HTTP clients `get_ctd_targets`, `get_string_network`, `get_string_interactions`, `get_protein_structure`, `get_pdb_structure` and `download_file`.
- Statistics, ODE integration and randomness are not modelled:
  - `linregress`, `lstsq`, `spearmanr`, t-distribution p-values, quantile binning, means and the TyG logarithm: floating-point library calls. Their outputs are inputs of the model.
  - `odeint`, tellurium, the Antimony text and `run_simulation`: `run` stands for the solver.
  - `np.random` data generation.
- Plotting and layout (every matplotlib, seaborn and plotly call, and the node positions) are not modelled.
- Filesystem state and clocks are parameters:
  - MD5 digests and file existence are a map from file name to digest;
  - `datetime.now()` is one `now` string, used for both timestamps of a download call.
- `save_config`, `check_nhanes_cycle`, `generate_report` of the updater (a directory listing) and `_send_email` (a stub) are not modelled: they are I/O.
- The `main` functions are not modelled: they print and call the modelled operations.
- CkmCommon.GuardedResults: the reported `round(r, 3)` is not modelled, because floating-point rounding is outside the model.
- Python set iteration order is not modelled, because it is unspecified. `list(set(...))`, `get_all_genes`, the `list(...)[:10]` node choices and the genes shown in the shared tables are any enumeration.
- PfasAnalysis.SharedTable: which five genes are shown depends on that set order, so the model states their number and the set they come from, not which they are.
- The heavy-metal table and the template fill of the PFAS `generate_report` are not modelled: they only join strings. Its shared-gene table and summaries are modelled.
- InteractiveVisualization.MetalDiseaseNetwork: the node positions (cos/sin layout) are not modelled. Dict iteration order is the order of the input sequence.
- `LeadEndothelialModel` extends `VirtualCellModel`; the model holds the base model in a field instead.
- LeadBpTargets.PredictBindingSites: a binding record keeps only the fields the analysis reads (type, metal binding, inhibitors, structure availability, note).
- LeadBpTargets.AnalyzeKeyTargets: the printing of the priority list is not modelled.
- The pandas `merge` is modelled as an inner join in the order of the left rows.
- MultiMetalAnalysis.FindSharedGenes: requires a non-empty table, because `set.intersection(*[])` raises on an empty one.
- MultiMetalAnalysis.BuildComparativeTable: returns `None` where `METALS[metal]` would raise `KeyError`.
- The biology of the gene, pathway, disease and binding tables is data. The operations take the tables as parameters, and only the lists whose contents matter to a property are stated as constants.

## Notes on the code

- Mediation guard: the code tests `c != 0` exactly, not against a tolerance (lead_ckm_complete.py:282, lead_ckm_final.py:138). The model follows the code.
- lead_ckm_complete.py:311 prints `mediation_ratio` even when `slope_c == 0`, where it was never assigned. The model has no percentage in that case.
- lead_ckm_final.py:130 unpacks the r-value of `linregress` into `pc`, a name used like a p-value. The model takes the statistics as inputs and is not affected.
- The comment "0-10" on the composite score over-states its top: on NHANES codes the score stops at 9 (`CkmCommon.RiskScoreRange`).
- The curve colour of `create_dose_response_curve` is looked up by the first two characters of a derived name such as "Lead" or "IAS". These are never element symbols, so every NHANES metal curve gets the default colour (`InteractiveVisualization.CurveColorDefault`).
- Under the base `deriv` of `VirtualCellModel`:
  - "BloodPressure" does not start with "BP", so it stays constant;
  - "NOS3" takes the NO rule;
  - the SOD and BP rules read `y[0]`, whatever species is first.
- vcell_simulation.py:137 refers to `HAS_TELLurium`, a name that is not defined. Plotting is not modelled.
- Repeated genes in the fallback and metal tables:
  - the fallback gene list of lead_network_toxicology.py names GSTA1 twice;
  - the Lead list of multi_metal_analysis.py names ALAD twice;
  - the Arsenic list names GSTA1 and GSTM1 twice.
- `analyze_shared_genes` counts entries of `all_genes[gene]`, one per occurrence, not distinct compounds (pfas_analysis.py:290-304). A gene listed twice by one compound would be "shared" with no second compound, and "core" with one compound missing it. No list in `PFAS_TARGET_GENES` repeats a gene, so the two coincide on the built-in table; the model states the counts as written (`PfasAnalysis.AnalyzeSharedGenesSummary`).
- The notification address is used only when it is truthy, so an empty string counts as no address.
