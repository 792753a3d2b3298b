# PSOS use-case prioritization — a Dafny model

PSOS scores identity-graph use cases on two axes and places each one in a
quadrant of a prioritization matrix.

- **Maturity** is the average of per-capability scores. Each use case either
  inherits the company's baseline score for a capability, or overrides it with
  its own score and rationale. Use cases that have no capability assessments
  yet fall back to the legacy per-pillar assessments.
- **Opportunity** is a weighted composite of five business-metric scores. Each
  score comes from a ladder over raw figures (ARR, pipeline, sales velocity,
  win rate) or from the strategic fit entered directly. Five product metrics
  (match-rate impact, latency, privacy risk, data-source count, scale) are
  scored and shown, but do not enter the overall score.
- The **quadrant** is INVEST, HARVEST, MAINTAIN or DEPRIORITIZE. It is decided
  by comparing both axes with 3.0.

The model covers:

- the scoring library;
- the server actions that build the matrix, the use-case list and the use-case
  detail, and that update a company capability;
- the three write routes:
  - capability assessments (validation, then delete and re-create);
  - legacy pillar assessments (replace by the first item's use case);
  - opportunity scores (replace with one record);
- the one-off migration script from pillar assessments to capability
  assessments;
- the evaluation form (default and fetched states, the handlers, the preview,
  the submit checks and both request bodies);
- the strategic-priority badge;
- the dashboard's quadrant counts and averages;
- the computations of the vertical-fit and capability-gap insight routes.

Each database table is a class with a `seq` of rows. Each route is a method
that changes the tables it touches. Every method is specified by a function of
the old rows and the request. The lemmas prove what the system promises about
those functions:

- each quadrant side is an if-and-only-if;
- every ladder stays in 1..5 and is monotone;
- the composites stay within their component scores;
- the capability system takes precedence over the legacy one;
- the matrix keeps a use case exactly when both averages are positive;
- a saved record replaces the earlier ones and the next read returns it;
- the migration is idempotent and keeps the existing rows;
- the form's preview agrees with what the server computes from the saved rows;
- the badge picks the earliest primary vertical of highest priority.

Modules:

- `Text`: JavaScript `trim`, `split` and `join`.
- `Lists`: generic map and filter by key.
- `Records`: the rows, the joined query results and the text coercions.
- `Store`: the tables.
- `Calculations`, `Actions`, `MaturityRoute`, `AssessmentsRoute`,
  `OpportunityRoute` and `Migration`.
- `EvaluateForm` (the form state), `PriorityBadge`, `Dashboard`, `VerticalFit`
  and `CapabilityGaps`.

Scores are `real`. The rounding of the migration and the integer ladders are
written out. A query result is a `UseCaseSnapshot`: an immutable record in
the order the query returns. The list, detail and insight queries order
opportunity records newest first, so there `opportunityScores[0]` is the latest
record. The matrix query leaves them unordered.

Behaviours of the code that the model keeps as written:

- An unknown latency, privacy or scale tier scores 0.
- A dependency list with no non-blank entry scores 0.
- The product score is returned, but the overall score ignores it.
- A capability-assessment request whose items name the same capability twice
  passes validation and deletes the use case's rows. The insert then violates
  the table's unique key, so the route answers 500 and the rows stay deleted.
  `MaturityRoute.Post` states this outcome.
- Selecting a use case that has no opportunity record leaves the previous
  use case's opportunity inputs in the form. `EvaluateForm.EvaluationForm.Select`
  states this.

## Model

| member | source | states |
|---|---|---|
| Calculations.ClassifyQuadrant | lib/calculations.ts:94-115 | the quadrant is high-opportunity iff opportunity >= 3.0 and high-maturity iff maturity >= 3.0 |
| Calculations.QuadrantDeterminedBySides | lib/calculations.ts:94-115 | two quadrants with the same two sides are equal, so the four cases partition the plane |
| Calculations.QuadrantBoundaryExamples | lib/calculations.ts:94-115 | both thresholds are inclusive: 3.0 is high and 2.99 is low on either axis |
| Calculations.MinOf | lib/calculations.ts:10-14 | the least element of a non-empty list, which is a member of it |
| Calculations.MaxOf | lib/calculations.ts:10-14 | the greatest element of a non-empty list, which is a member of it |
| Calculations.RepeatedIsProduct | lib/calculations.ts:10-14 | n-fold repeated addition is multiplication by n |
| Calculations.SumBounds | lib/calculations.ts:10-14 | a sum of n scores within [lo, hi] lies within [n·lo, n·hi] |
| Calculations.ShareBounds | lib/calculations.ts:10-14 | dividing such a sum by n lands within [lo, hi] |
| Calculations.DivisionBounds | lib/calculations.ts:77 | a value within n·[lo, hi], divided by n > 0, lies within [lo, hi] |
| Calculations.Mean | lib/calculations.ts:10-14 | the average is 0 for no scores and otherwise lies between the least and the greatest score |
| Calculations.QuotientWithinExtremes | lib/calculations.ts:10-14 | sum / length of a non-empty list lies between its extremes |
| Calculations.MeanWithin | lib/calculations.ts:10-14 | scores all within [lo, hi] average within [lo, hi] |
| Calculations.MeanOfConstant | lib/calculations.ts:10-14 | equal scores average to that score |
| Calculations.CutPointsReachedMonotone | lib/calculations.ts:145-196 | a larger figure passes at least as many "at least" cut points |
| Calculations.CutPointsWithinAntitone | lib/calculations.ts:167-173 | a larger figure passes at most as many "at most" cut points |
| Calculations.FourCutPoints | lib/calculations.ts:145-196 | the cut-point count of a four-step ladder, written out case by case |
| Calculations.ArrScore | lib/calculations.ts:145-151 | the ARR score is in 1..5 |
| Calculations.PipelineScore | lib/calculations.ts:156-162 | the pipeline score is in 1..5 |
| Calculations.VelocityScore | lib/calculations.ts:167-173 | the sales-velocity score is in 1..5 |
| Calculations.WinRateScore | lib/calculations.ts:178-184 | the win-rate score is in 1..5 |
| Calculations.MatchRateScore | lib/calculations.ts:190-196 | the match-rate score is in 1..5 |
| Calculations.ArrScoreCountsCutPoints | lib/calculations.ts:145-151 | the ARR score is 1 plus the number of thresholds 100k, 250k, 500k and 1M that the figure reaches |
| Calculations.PipelineScoreCountsCutPoints | lib/calculations.ts:156-162 | the pipeline score is 1 plus the number of its four thresholds reached |
| Calculations.VelocityScoreCountsCutPoints | lib/calculations.ts:167-173 | the velocity score is 1 plus the number of day limits the figure stays within (fewer days score higher) |
| Calculations.WinRateScoreCountsCutPoints | lib/calculations.ts:178-184 | the win-rate score is 1 plus the number of rate thresholds reached |
| Calculations.MatchRateScoreCountsCutPoints | lib/calculations.ts:190-196 | the match-rate score is 1 plus the number of improvement thresholds reached |
| Calculations.LaddersMonotone | lib/calculations.ts:145-196 | ARR, pipeline, win rate and match rate never score lower for a larger figure; velocity never scores higher |
| Calculations.LatencyScore | lib/calculations.ts:201-207 | the latency score is 0, 1, 3 or 5, and it is 0 exactly for a tier other than real-time, near-real-time or batch |
| Calculations.PrivacyRiskScore | lib/calculations.ts:213-219 | the privacy score is 0, 1, 3 or 5, and it is 0 exactly for a level other than low, medium or high |
| Calculations.ScaleScore | lib/calculations.ts:240-246 | the scale score is 0, 1, 3 or 5, and it is 0 exactly for a requirement other than sample, subset or full-graph |
| Calculations.CountNonBlank | lib/calculations.ts:226-227 | the count of entries that are non-empty after trimming is at most the number of parts, and it is 0 iff every part is blank |
| Calculations.JoinOnlySeparators | lib/calculations.ts:226 | a comma-joined list of comma-free parts consists only of commas and whitespace iff every part is blank |
| Calculations.DataSourceCountZero | lib/calculations.ts:225-229 | the dependency string counts 0 sources iff it holds only commas and whitespace |
| Calculations.DataSourceScore | lib/calculations.ts:225-235 | the data-source score is in 0..5, and it is 0 iff no non-blank source is listed |
| Calculations.BusinessScores | lib/calculations.ts:42-58 | the five business scores, with a missing score read as 0 |
| Calculations.ProductScores | lib/calculations.ts:60-77 | the five product scores, with a missing score read as 0 |
| Calculations.BusinessWeightsSumToOne | lib/calculations.ts:42-77 | the business weights sum to 1 and the product weights sum to 0.40 |
| Calculations.OpportunityScore | lib/calculations.ts:23-90 | overall equals the business composite; it lies between the least and greatest business score, and the product score lies between the least and greatest product score |
| Calculations.BusinessCompositeWithin | lib/calculations.ts:42-58 | the weighted business total lies between its least and greatest component |
| Calculations.ProductCompositeWithin | lib/calculations.ts:60-77 | the product total divided by 0.40 lies between its least and greatest component |
| Calculations.ProductShareWithin | lib/calculations.ts:77 | dividing a total within 0.40·[lo, hi] by 0.40 lands within [lo, hi] |
| Calculations.BusinessTotalWithin | lib/calculations.ts:42-58 | business components within [lo, hi] give a total within [lo, hi] |
| Calculations.ProductTotalWithin | lib/calculations.ts:60-77 | product components within [lo, hi] give a total within 0.40·[lo, hi] |
| Calculations.OverallIgnoresProductMetrics | lib/calculations.ts:79-80 | two records with the same business scores have the same overall score, whatever their product scores |
| Calculations.OverallWithinScoreRange | lib/calculations.ts:23-90 | business scores all in 1..5 give an overall score in 1..5 |
| Calculations.OverallOfUniformScores | lib/calculations.ts:23-90 | equal business scores k give the overall score k |
| Calculations.WorkedExample | lib/calculations.ts:23-196 | a strong use case scores 5 on every business ladder, has an overall score of 5 and is classified HARVEST at maturity 3.6 |
| Text.TrimStart | app/api/maturity/route.ts:40-45 | removes exactly the leading JavaScript whitespace: what is left is a suffix that does not start with whitespace, and what was cut is blank |
| Text.TrimEnd | app/api/maturity/route.ts:40-45 | removes exactly the trailing JavaScript whitespace |
| Text.Trim | app/api/maturity/route.ts:40-45 | the trimmed text neither starts nor ends with whitespace, and it is empty iff the input is blank |
| Text.Split | lib/calculations.ts:226 | splitting yields at least one part, none containing the separator, and joining the parts back with the separator restores the input |
| Records.TextOr | app/actions.ts:600-612 | a non-empty text is kept and an empty or missing one becomes the fallback |
| Records.TextOrNull | app/actions.ts:378 | a non-empty text is kept and an empty or missing one becomes null |
| Records.FindCapability | app/actions.ts:594-618 | finds a listed capability with the id, or none iff no listed capability has it |
| Records.FindCapabilityByName | prisma/migrate-capabilities.cjs:80-85 | finds a listed capability with the name, or none iff no listed capability has it |
| Records.FindUniqueCapability | app/actions.ts:594-618 | with unique ids, looking up a listed capability's id finds that capability |
| Records.JoinCapabilities | app/actions.ts:594-618 | when every row's capability is listed, the join pairs each row with its capability, in order |
| Store.FindRow | prisma/migrate-capabilities.cjs:96-108 | the row with the (use case, capability) key exists iff the key is present, and it carries that key |
| Store.ExcludingKeepsUniqueKeys | app/api/maturity/route.ts:50-52 | deleting one use case's rows keeps the key unique |
| Store.UniqueKeysAppend | app/api/maturity/route.ts:55-63 | appending key-unique rows whose keys are all new keeps the key unique |
| Store.ReplaceKeepsUniqueKeys | app/api/maturity/route.ts:50-63 | after deleting a use case's rows, its new rows keep the key unique iff they are unique among themselves |
| Store.CapabilityAssessmentTable.FindUnique | prisma/migrate-capabilities.cjs:96-108 | returns the row with the key, if any |
| Store.CapabilityAssessmentTable.DeleteMany | app/api/maturity/route.ts:50-52 | removes exactly the use case's rows and keeps the others in order |
| Store.CapabilityAssessmentTable.CreateMany | app/api/maturity/route.ts:55-63 | inserts all rows iff the key stays unique, and otherwise inserts none |
| Store.CapabilityAssessmentTable.Create | prisma/migrate-capabilities.cjs:110-119 | inserts the row iff its key is new |
| Store.LegacyAssessmentTable.DeleteMany | app/api/assessments/route.ts:19-22 | removes exactly the use case's legacy rows |
| Store.LegacyAssessmentTable.CreateMany | app/api/assessments/route.ts:25-32 | appends the rows |
| Store.OpportunityTable.DeleteMany | app/api/opportunity/route.ts:43-45 | removes exactly the use case's opportunity records |
| Store.OpportunityTable.Create | app/api/opportunity/route.ts:48-75 | appends the record |
| Actions.CapabilityScores | app/actions.ts:594-618 | one effective score per assessment: the capability's baseline when inheriting, otherwise the override (0 when absent) |
| Actions.LegacyScores | app/actions.ts:619-630 | one score per legacy pillar assessment |
| Actions.CapabilitySystemTakesPrecedence | app/actions.ts:594-630 | with capability assessments, maturity is their mean, whatever legacy assessments exist |
| Actions.LegacyFallback | app/actions.ts:619-630 | without capability assessments, maturity is the legacy mean, and 0 when both are missing |
| Actions.MaturityWithin | app/actions.ts:594-618 | effective scores within [lo, hi] give a maturity within [lo, hi] |
| Actions.EffectiveScore | app/actions.ts:595-597 | the capability's baseline when inheriting, else the override score with null read as 0; `Actions.MaturityWithin` bounds the maturity by these scores |
| Actions.MaturityAverage | app/actions.ts:594-630 | the mean of the effective scores when capability assessments exist, else the legacy mean; `Actions.CapabilitySystemTakesPrecedence` and `Actions.LegacyFallback` state the two cases |
| Actions.CapabilityDetail | app/actions.ts:600-612 | each detail names the capability and gives its effective score, with the inherited rationale or the override rationale ("N/A" when empty or missing) |
| Actions.DetailScores | app/actions.ts:594-630 | the scores of the details, in order |
| Actions.MaturitySummaryOf | app/actions.ts:594-630 | the summary's average is the use case's maturity and the mean of its detail scores; the details come from the capability system when present, else from the legacy pillars |
| Actions.LegacyDetail | app/actions.ts:621-625 | a legacy pillar's detail: its name, its score, and its rationale or "N/A" when empty or missing; `Actions.MaturitySummaryOf` states that the legacy summary lists these in order |
| Actions.RawScoresOf | app/actions.ts:632-670 | the raw scores shown are the record's business and product scores |
| Actions.OpportunitySummaryOf | app/actions.ts:632-670 | zeros without a record; otherwise the first record's raw scores, with an average equal to the business score and the overall of the first record, within its score range |
| Actions.OpportunityAverage | app/actions.ts:631-670 | the overall opportunity of the first record read, 0 without records; `Actions.OpportunitySummaryOf` states that the summary average is this value |
| Actions.PlotPointOf | app/actions.ts:673-685 | the plot point carries the use case's identity, its maturity, its opportunity and the quadrant of the two |
| Actions.PlotPoints | app/actions.ts:562-685 | one plot point per use case, in order |
| Actions.KeepPlottable | app/actions.ts:687 | keeps at most the given points |
| Actions.KeepPlottableMember | app/actions.ts:687 | a point is kept iff it is given and both of its averages are positive |
| Actions.KeepPlottableAppend | app/actions.ts:687 | filtering distributes over concatenation |
| Actions.MatrixData | app/actions.ts:562-688 | every plotted point is plottable and comes from a use case, and each use case's point is plotted iff both its averages are positive |
| Actions.MatrixDataSound | app/actions.ts:562-688 | every plotted point is some use case's point, with positive averages |
| Actions.MatrixDataComplete | app/actions.ts:562-688 | every use case with positive averages is plotted |
| Actions.MatrixDataAppend | app/actions.ts:562-688 | the matrix of two lists of use cases is the concatenation of their matrices |
| Actions.UnscoredUseCaseNotPlotted | app/actions.ts:687 | a use case without opportunity records, or without any assessment, is not plotted |
| Actions.ScoresOf | app/actions.ts:439-467 | the listed quadrant is the classification of the listed maturity and opportunity |
| Actions.UseCasesForList | app/actions.ts:390-470 | one row per use case, in order, with its scores |
| Actions.UnscoredListedAsDeprioritized | app/actions.ts:439-467 | a use case with nothing assessed is listed at 0/0 as DEPRIORITIZE |
| Actions.ListAgreesWithMatrix | app/actions.ts:407-411 | the list and detail pages compute the same maturity as the matrix from its records in any order, and the same opportunity and quadrant when there is at most one record |
| Actions.MatrixMayPlotOlderRecord | app/actions.ts:578-631 | two records can read in either order: newest first, as the list reads them, give opportunity 1.5; the other order, which the unordered matrix query may return, gives 0.3 |
| Actions.UpdatedCapabilities | app/actions.ts:370-381 | only the capability with the id changes: its score is replaced and its rationale becomes null when empty or missing; ids and names are kept |
| Actions.CapabilityTable.UpdateCompanyCapability | app/actions.ts:370-381 | reports whether the id exists and updates the table as above |
| Actions.InheritingAssessmentsFollowBaseline | app/actions.ts:370-381 | after a baseline update, every inheriting assessment of that capability takes the new score and every other effective score is unchanged |
| Actions.FindInUpdated | app/actions.ts:370-381 | the update keeps which ids exist, finds the old capability for every other id and the new score for the updated one |
| MaturityRoute.ItemRejection | app/api/maturity/route.ts:24-47 | an item is accepted iff it has a capability id and, when it overrides, a score in 1..5 and a non-blank rationale; the specific rejection names that rule |
| MaturityRoute.FirstRejection | app/api/maturity/route.ts:24-47 | no rejection iff every item is accepted; otherwise the rejection of the first rejected item |
| MaturityRoute.RequestRejection | app/api/maturity/route.ts:15-47 | the body is refused as invalid iff the use case id is empty or missing or the list is missing, and accepted iff otherwise every item passes its checks |
| MaturityRoute.Validate | app/api/maturity/route.ts:24-47 | the loop returns the first item's rejection |
| MaturityRoute.StoredRow | app/api/maturity/route.ts:55-63 | the stored row carries the use case and capability and the flag `useCompanyScore ?? true`; an inheriting row stores no override, any other row stores the item's override score and rationale as given |
| MaturityRoute.StoredRows | app/api/maturity/route.ts:55-63 | one stored row per item, in order |
| MaturityRoute.StoredRowsUniqueKeys | app/api/maturity/route.ts:55-63 | the rows to insert are key-unique iff the items name distinct capabilities |
| MaturityRoute.Post | app/api/maturity/route.ts:16-71 | 400 with the first rejection's message and no change; otherwise the use case's rows are replaced and the answer is success iff the capability ids are distinct; with duplicates the answer is 500 and the old rows stay deleted |
| MaturityRoute.ReplacedAssessments | app/api/maturity/route.ts:50-63 | after the replacement, the use case's rows are exactly the stored items and every other use case's rows are unchanged |
| MaturityRoute.StoredRowResolution | app/api/maturity/route.ts:55-63 | an accepted item's stored row resolves to the baseline when inheriting and to the submitted override otherwise |
| MaturityRoute.MissingFlagStoredAsInheriting | app/api/maturity/route.ts:59 | an item without the flag is stored as inheriting |
| MaturityRoute.InheritingStoredWithoutOverride | app/api/maturity/route.ts:60-61 | an inheriting item is stored with a null override score and rationale |
| MaturityRoute.OverrideScoreExamples | app/api/maturity/route.ts:33-45 | 0, missing and 6 are out of range, 2.5 is accepted, and a whitespace-only rationale is refused |
| AssessmentsRoute.StoredRow | app/api/assessments/route.ts:25-32 | the stored legacy row copies the item, with an empty or missing rationale stored as null |
| AssessmentsRoute.StoredRows | app/api/assessments/route.ts:25-32 | one stored row per item, in order |
| AssessmentsRoute.Post | app/api/assessments/route.ts:10-38 | 400 and no change without a list; an empty list changes nothing; otherwise the first item's use case loses its rows and all items are appended |
| AssessmentsRoute.ReplacedLegacyAssessments | app/api/assessments/route.ts:18-32 | afterwards the first item's use case has exactly the rows of its items; rows of every other use case are kept, and its items are added to them |
| AssessmentsRoute.SecondUseCaseRowsAccumulate | app/api/assessments/route.ts:18-32 | an item for a second use case is appended next to that use case's old row, which is not deleted |
| OpportunityRoute.Post | app/api/opportunity/route.ts:35-77 | 400 and no change without a use-case id; otherwise the use case's records are replaced by the one submitted record, stored as sent |
| OpportunityRoute.SingleRecordAfterSave | app/api/opportunity/route.ts:43-75 | after a save the use case has exactly one record, the submitted one, and other use cases keep theirs |
| OpportunityRoute.SummaryFollowsSubmittedScores | app/api/opportunity/route.ts:48-75 | the matrix's opportunity summary after a save is the summary of the submitted scores |
| OpportunityRoute.DerivedScoresNotRecomputed | app/api/opportunity/route.ts:48-75 | the stored scores are the submitted ones and are not derived again from the raw figures: a 2,000,000 ARR sent with an ARR score of 1 keeps the 1 |
| Migration.RoundHalfUp | prisma/migrate-capabilities.cjs:88-90 | the nearest integer, with halves rounded up |
| Migration.GroupNames | prisma/migrate-capabilities.cjs:54-76 | the distinct capability names that some assessed pillar maps to, each once |
| Migration.GroupsOfUnmappedNamesEmpty | prisma/migrate-capabilities.cjs:54-76 | a name no pillar maps to has an empty group; a mapped one has at least one score |
| Migration.GroupStep | prisma/migrate-capabilities.cjs:54-76 | one more assessment adds its capability name if new, and joins its score and truthy rationale to that capability's group only |
| Migration.GroupByCapability | prisma/migrate-capabilities.cjs:54-76 | the loop's names and groups are the capability names in first-seen order, each with its group of scores and rationales |
| Migration.MigratedRow | prisma/migrate-capabilities.cjs:88-119 | the row inherits iff the rounded mean equals the baseline; otherwise it overrides with the rounded mean and the rationales joined by " \| " |
| Migration.CreateIfAbsent | prisma/migrate-capabilities.cjs:96-119 | keeps every existing row |
| Migration.AfterGroups | prisma/migrate-capabilities.cjs:79-123 | keeps every existing row |
| Migration.AfterInherited | prisma/migrate-capabilities.cjs:126-151 | keeps every existing row |
| Migration.MigratedRows | prisma/migrate-capabilities.cjs:44-151 | keeps every existing row |
| Migration.MigrateAll | prisma/migrate-capabilities.cjs:44-151 | keeps every existing row |
| Migration.MigrateUseCase | prisma/migrate-capabilities.cjs:44-151 | migrates one use case; it reports a skip iff there are no pillar assessments, and counts the rows it inserted |
| Migration.CreateGroupRows | prisma/migrate-capabilities.cjs:79-123 | the creation loop inserts each group's migrated row for the first capability of that name, unless the key exists |
| Migration.CreateInheritedRows | prisma/migrate-capabilities.cjs:126-151 | the gap-fill loop inserts an inheriting row for every capability still missing one |
| Migration.Migrate | prisma/migrate-capabilities.cjs:23-151 | without capabilities nothing changes; otherwise every use case is migrated, and the totals are the inserted rows and the use cases skipped |
| Migration.SkippedCount | prisma/migrate-capabilities.cjs:47-50 | the number of use cases skipped for having no pillar assessments: at most the number of use cases, 0 iff every one has some, all iff none has any; `Migration.Migrate` reports it as the skipped total |
| Migration.PillarMapIsManyToOne | prisma/migrate-capabilities.cjs:6-13 | two pillars map to Infrastructure & Operations, two to Data Quality & Accuracy, and Data Readiness maps to none |
| Migration.SharedCapabilityNamesExample | prisma/migrate-capabilities.cjs:54-76 | two pillars of one capability form a single group |
| Migration.SharedCapabilityGroupExample | prisma/migrate-capabilities.cjs:54-90 | that group holds both scores and both rationales, and 3 and 4 average to 3.5, which rounds to 4 |
| Migration.UnmappedPillarIgnored | prisma/migrate-capabilities.cjs:57-62 | an assessment of an unmapped pillar changes no group |
| Migration.CreateIfAbsentKeepsUniqueKeys | prisma/migrate-capabilities.cjs:96-119 | find-then-create keeps the key unique |
| Migration.HasKeyPersists | prisma/migrate-capabilities.cjs:96-119 | a key present stays present as rows are added |
| Migration.AfterInheritedCovers | prisma/migrate-capabilities.cjs:126-151 | after the gap fill, every capability has a row for the use case |
| Migration.MigrationCoversCapabilities | prisma/migrate-capabilities.cjs:44-151 | a migrated use case with pillar assessments has a row for every capability |
| Migration.AfterGroupsWhenCovered | prisma/migrate-capabilities.cjs:96-108 | when every capability already has a row for the use case, the creation loop inserts nothing |
| Migration.AfterInheritedWhenCovered | prisma/migrate-capabilities.cjs:126-151 | when every capability already has a row, the gap fill inserts nothing |
| Migration.MigratedRowsWhenCovered | prisma/migrate-capabilities.cjs:44-151 | a use case already fully covered is left unchanged |
| Migration.MigrateAllCovers | prisma/migrate-capabilities.cjs:44-151 | after the run, every use case with pillar assessments has a row for every capability |
| Migration.MigrateAllWhenCovered | prisma/migrate-capabilities.cjs:44-151 | a run over already covered use cases changes nothing |
| Migration.MigrationIdempotent | prisma/migrate-capabilities.cjs:44-151 | running the migration a second time changes nothing |
| Migration.MigrationKeepsExistingRows | prisma/migrate-capabilities.cjs:96-119 | the run only appends, and keeps the key unique |
| Migration.MigratedRowsKeepUniqueKeys | prisma/migrate-capabilities.cjs:44-151 | migrating one use case keeps the key unique |
| Migration.AfterGroupsKeepUniqueKeys | prisma/migrate-capabilities.cjs:79-123 | the creation loop keeps the key unique |
| Migration.AfterInheritedKeepUniqueKeys | prisma/migrate-capabilities.cjs:126-151 | the gap fill keeps the key unique |
| Migration.FindRowAppend | prisma/migrate-capabilities.cjs:96-119 | a lookup after appending a row finds an existing row first, otherwise the new row when the key matches |
| Migration.SameIdSameCapability | prisma/migrate-capabilities.cjs:126-151 | with unique ids, two listed capabilities with one id are the same |
| Migration.AfterGroupsFind | prisma/migrate-capabilities.cjs:79-123 | for a capability without a row, the creation loop leaves its migrated row when a group bears its name and it is the first with that name, and no row otherwise |
| Migration.AfterInheritedFind | prisma/migrate-capabilities.cjs:126-151 | the gap fill leaves an existing row as it was and gives a listed capability without one an inheriting row |
| Migration.InitCapabilityFound | prisma/migrate-capabilities.cjs:126-151 | a capability is listed iff it is among the first ones or is the last |
| Migration.MigratedRowContent | prisma/migrate-capabilities.cjs:44-151 | a capability without a row ends up with its migrated group row, or else an inheriting row |
| EvaluateForm.DefaultStates | components/assessments/EvaluateUseCaseForm.tsx:74-86 | one default state per capability: inheriting, override score 3, empty rationale |
| EvaluateForm.LastFetched | components/assessments/EvaluateUseCaseForm.tsx:169-179 | the last fetched row for a capability, or none iff no fetched row names it |
| EvaluateForm.LastFetchedSkipsLast | components/assessments/EvaluateUseCaseForm.tsx:169-179 | a final row for another capability does not change which row is last for this one |
| EvaluateForm.MergedStates | components/assessments/EvaluateUseCaseForm.tsx:181-193 | one state per listed capability, in order: the last fetched row when there is one, else the default |
| EvaluateForm.UnlistedRowsDropped | components/assessments/EvaluateUseCaseForm.tsx:181-193 | a fetched row for an unlisted capability does not change the states |
| EvaluateForm.LastFetchedRowWins | components/assessments/EvaluateUseCaseForm.tsx:169-193 | a later fetched row for a capability decides its state |
| EvaluateForm.InputScores | components/assessments/EvaluateUseCaseForm.tsx:221-242 | each of the five numeric fields gives its ladder's score when filled and null when empty; each of the four tier fields gives null iff empty, its tier's score otherwise; strategic fit passes through |
| EvaluateForm.LoadedInputs | components/assessments/EvaluateUseCaseForm.tsx:151-164 | for each of the eleven inputs, a non-null fetched field replaces it and a null one leaves it as it was |
| EvaluateForm.PreviewScores | components/assessments/EvaluateUseCaseForm.tsx:206-214 | one preview score per state, in order |
| EvaluateForm.OverrideCount | components/assessments/EvaluateUseCaseForm.tsx:390-392 | at most the number of states; 0 iff all inherit, and all of them iff none inherits |
| EvaluateForm.AnyMissingRationale | components/assessments/EvaluateUseCaseForm.tsx:296-306 | true iff some overriding state has a blank rationale |
| EvaluateForm.MaturityItems | components/assessments/EvaluateUseCaseForm.tsx:321-326 | one item per state, in order |
| EvaluateForm.EvaluationForm.constructor | components/assessments/EvaluateUseCaseForm.tsx:74-86 | no selection, empty inputs and default states |
| EvaluateForm.EvaluationForm.Select | components/assessments/EvaluateUseCaseForm.tsx:96-201 | re-picking the selected use case changes nothing; clearing resets everything; selecting another resets the states, merges the fetched rows and loads the fetched record over the current inputs |
| EvaluateForm.EvaluationForm.ToggleInherit | components/assessments/EvaluateUseCaseForm.tsx:262-267 | only the named capability's flag changes |
| EvaluateForm.EvaluationForm.SetOverrideScore | components/assessments/EvaluateUseCaseForm.tsx:269-274 | only the named capability's override score changes |
| EvaluateForm.EvaluationForm.SetOverrideRationale | components/assessments/EvaluateUseCaseForm.tsx:276-281 | only the named capability's override rationale changes |
| EvaluateForm.EvaluationForm.Submit | components/assessments/EvaluateUseCaseForm.tsx:283-366 | refused iff no use case is selected or an override lacks a rationale; otherwise it sends both bodies built from the current state |
| EvaluateForm.DefaultStatesPreview | components/assessments/EvaluateUseCaseForm.tsx:74-86 | default states override nothing and preview each capability's baseline |
| EvaluateForm.OverrideCountAfterToggle | components/assessments/EvaluateUseCaseForm.tsx:262-267 | toggling one state changes the override count by exactly the change in that state's flag |
| EvaluateForm.SubmittedPayloadAccepted | components/assessments/EvaluateUseCaseForm.tsx:321-326 | a submitted payload with ids and overrides in 1..5 passes the server's validation |
| EvaluateForm.SubmittedItemAccepted | components/assessments/EvaluateUseCaseForm.tsx:321-326 | one such item passes the server's per-item check |
| EvaluateForm.ServerMaturityMatchesPreview | components/assessments/EvaluateUseCaseForm.tsx:206-218 | the maturity the server computes from the saved rows equals the form's preview |
| EvaluateForm.ServerQuadrantMatchesPreview | components/assessments/EvaluateUseCaseForm.tsx:231-246 | so does the quadrant, given the saved opportunity record |
| EvaluateForm.PreviewDiffersFromServer | components/assessments/EvaluateUseCaseForm.tsx:206-218 | before a save, the preview counts capabilities without a fetched row at their baseline while the server averages only the stored rows, so the two can disagree (2.5, INVEST, against 4.0, HARVEST) |
| EvaluateForm.ReloadRoundTrip | components/assessments/EvaluateUseCaseForm.tsx:334-356 | loading the record the form saved over the same inputs gives those inputs back |
| EvaluateForm.ReloadKeepsFilledFields | components/assessments/EvaluateUseCaseForm.tsx:151-164 | loading a saved record over any inputs restores each of the eleven fields that the saved inputs had filled |
| EvaluateForm.FetchedState | components/assessments/EvaluateUseCaseForm.tsx:169-179 | a fetched row's state, with a null override score read as 3 and a null rationale as empty; `EvaluateForm.LastFetchedRowWins` states that the merged state of a capability is the state of its last fetched row |
| EvaluateForm.PreviewMaturity | components/assessments/EvaluateUseCaseForm.tsx:205-218 | the mean of the preview scores; `EvaluateForm.ServerMaturityMatchesPreview` states that it equals the server's maturity after a save |
| EvaluateForm.PreviewQuadrant | components/assessments/EvaluateUseCaseForm.tsx:220-246 | the quadrant of the previewed maturity and the inputs' overall opportunity; `EvaluateForm.ServerQuadrantMatchesPreview` states that it equals the server's quadrant after a save |
| EvaluateForm.MaturityItem | components/assessments/EvaluateUseCaseForm.tsx:321-326 | one state's item, with override values only when overriding; `EvaluateForm.SubmittedItemAccepted` states that it passes the route's item checks |
| EvaluateForm.OpportunityBody | components/assessments/EvaluateUseCaseForm.tsx:334-356 | the opportunity body, with empty texts sent as null and the input scores; `EvaluateForm.ReloadRoundTrip` states that loading it back restores the inputs |
| PriorityBadge.Rank | components/common/StrategicPriorityBadge.tsx:20-25 | ranks 1..4 for the four priorities and 0 for any other priority, such as one stored through the API, that is not the name of an inherited object property |
| PriorityBadge.ReduceHighestFrom | components/common/StrategicPriorityBadge.tsx:35-39 | the reduction returns its start or one of the rest |
| PriorityBadge.ReduceHighestMaximal | components/common/StrategicPriorityBadge.tsx:35-39 | the result ranks at least as high as every candidate |
| PriorityBadge.ReduceHighestEarliest | components/common/StrategicPriorityBadge.tsx:35-39 | every candidate before the result ranks strictly lower |
| PriorityBadge.HighestPriorityVertical | components/common/StrategicPriorityBadge.tsx:19-42 | none iff no vertical is a primary fit; otherwise a primary vertical from the list |
| PriorityBadge.HighestIsEarliestMaximum | components/common/StrategicPriorityBadge.tsx:19-42 | the result ranks highest among primary verticals and is the first of that rank, for priorities that do not name an inherited object property |
| PriorityBadge.NonPrimaryIgnored | components/common/StrategicPriorityBadge.tsx:28 | inserting a non-primary vertical changes nothing |
| PriorityBadge.HighestFollowsPrimary | components/common/StrategicPriorityBadge.tsx:28-39 | the result depends only on the primary verticals |
| PriorityBadge.ReduceHighest | components/common/StrategicPriorityBadge.tsx:35-39 | the reduction that keeps the running maximum, replacing it only with a strictly higher rank; `PriorityBadge.ReduceHighestFrom`, `PriorityBadge.ReduceHighestMaximal` and `PriorityBadge.ReduceHighestEarliest` state its result |
| PriorityBadge.TieGoesToEarliest | components/common/StrategicPriorityBadge.tsx:35-39 | of two primaries with equal priority the first is chosen, and a non-primary vertical with Critical priority is ignored |
| PriorityBadge.BadgeVariantShowsRank | components/common/StrategicPriorityBadge.tsx:44-57 | the four priorities have distinct variants, anything else looks like Medium, and only Critical is destructive |
| PriorityBadge.BadgeVariant | components/common/StrategicPriorityBadge.tsx:44-57 | the badge variant of a priority, with the unknown ones shown as Medium; `PriorityBadge.BadgeVariantShowsRank` states that it tells the four priorities apart |
| Dashboard.QuadrantVariantsDistinct | app/page.tsx:11-19 | the four quadrants get four distinct variants |
| Dashboard.QuadrantVariant | app/page.tsx:11-19 | the badge variant of a quadrant name; `Dashboard.QuadrantVariantsDistinct` states that the four quadrants get distinct variants |
| Dashboard.CountOf | app/page.tsx:27-30 | a quadrant's count is at most the number of points |
| Dashboard.CountQuadrants | app/page.tsx:27-30 | the tally has a key only for quadrant names that occur, and the displayed count of each quadrant is its number of points (0 when absent) |
| Dashboard.CountOfStep | app/page.tsx:27-30 | one more point adds one to its own quadrant's count only |
| Dashboard.NamesDistinct | app/page.tsx:27-30 | the quadrant names are distinct |
| Dashboard.CountsCoverPoints | app/page.tsx:56-98 | the four displayed counts sum to the number of points |
| Dashboard.AveragesWithin | app/page.tsx:33-39 | both averages are 0 without points and otherwise lie within the bounds of the points' scores |
| Dashboard.DashboardAveragesPositive | app/page.tsx:33-39 | over a non-empty matrix both averages are positive |
| Dashboard.AverageMaturity | app/page.tsx:33-35 | the mean maturity of the plotted points, 0 without points; `Dashboard.AveragesWithin` bounds it |
| Dashboard.AverageOpportunity | app/page.tsx:37-39 | the mean opportunity of the plotted points, 0 without points; `Dashboard.AveragesWithin` bounds it |
| VerticalFit.MaturityAgreesWithMatrix | app/api/insights/vertical-fit/route.ts:61-71 | the route's maturity is the matrix's maturity |
| VerticalFit.Maturity | app/api/insights/vertical-fit/route.ts:61-71 | the route's own maturity average; `VerticalFit.MaturityAgreesWithMatrix` states that it equals the matrix's |
| VerticalFit.PrivacyLevel | app/api/insights/vertical-fit/route.ts:85-88 | the privacy level read from a stored score; `VerticalFit.PrivacyRoundTrip` states that it inverts the privacy ladder |
| VerticalFit.LatencyLevel | app/api/insights/vertical-fit/route.ts:91-94 | the latency requirement read from a stored score; `VerticalFit.LatencyRoundTrip` states that it inverts the latency ladder |
| VerticalFit.PrivacyRoundTrip | app/api/insights/vertical-fit/route.ts:85-88 | reading a stored privacy score back gives the level that was scored, and "Not specified" for unknown levels |
| VerticalFit.LatencyRoundTrip | app/api/insights/vertical-fit/route.ts:91-94 | reading a stored latency score back gives the requirement that was scored, with its unit, and "Not specified" for unknown ones |
| VerticalFit.CharacteristicsOf | app/api/insights/vertical-fit/route.ts:61-100 | maturity and opportunity as in the matrix, their quadrant, dependencies not specified, and every level not specified without a record |
| VerticalFit.StoredTiersReadBack | app/api/insights/vertical-fit/route.ts:80-98 | for a record scored from known tiers, the insight names those tiers |
| VerticalFit.Analyze | app/api/insights/vertical-fit/route.ts:9-59 | 400 iff the id is missing, 404 iff no use case matches, otherwise the characteristics |
| CapabilityGaps.DetailOf | app/api/insights/capability-gaps/route.ts:64-75 | each detail names the capability, gives its effective score and inherited flag, with the capability's or the override's rationale and their fallback texts |
| CapabilityGaps.Details | app/api/insights/capability-gaps/route.ts:62-78 | one detail per capability assessment, in order |
| CapabilityGaps.CriticalGaps | app/api/insights/capability-gaps/route.ts:92-94 | at most one name per detail |
| CapabilityGaps.CriticalGapsExactly | app/api/insights/capability-gaps/route.ts:92-94 | a capability scoring below 3.0 is a gap, and every gap names such a capability |
| CapabilityGaps.CriticalGapsAppend | app/api/insights/capability-gaps/route.ts:92-94 | gap-finding distributes over concatenation |
| CapabilityGaps.AnalysisOf | app/api/insights/capability-gaps/route.ts:53-94 | details, gaps and the quadrant as above; maturity is the matrix's when capabilities are assessed and 0 (with no gaps) otherwise |
| CapabilityGaps.UnscoredOverrideIsGap | app/api/insights/capability-gaps/route.ts:65 | an override without a score counts as 0 and is always a gap |
| CapabilityGaps.NoLegacyFallback | app/api/insights/capability-gaps/route.ts:62-78 | a use case with only legacy assessments has a positive matrix maturity but 0 here |
| CapabilityGaps.Analyze | app/api/insights/capability-gaps/route.ts:9-51 | 400 iff the id is missing, 404 iff no use case matches, otherwise the gap analysis |

## Left out

- HTTP, JSON parsing, the database driver and `async` sequencing. Each route is a method over the tables it touches, given the already-parsed body. A body that is not JSON, or fields of the wrong JSON type, are not modelled.
- Concurrency. The `deleteMany`/`createMany` pairs are not transactions, and the form's `Promise.all` fetches can race with a later selection. Each model method runs alone.
- JavaScript numbers. Scores are exact reals. `NaN`, infinities and rounding of doubles are not modelled, nor `parseFloat`/`parseInt` of the text fields. The form holds its numeric inputs as already parsed, with `None` for an empty field.
- Foreign-key failures: a capability or use case id that names no row. Rows are stored as given.
- The legacy assessments route with a first item lacking `useCaseId` is not modelled; every item is taken to carry one. In the code the delete then runs with an undefined use-case filter, which the database client reads as no filter, so every legacy row is removed before the insert fails and the route answers 500.
- `assessedDate`, `scoreDate` and the other clock values. The query order they induce is the order of the snapshot's lists.
- The GET routes that feed the form. Their results are parameters of `EvaluateForm.EvaluationForm.Select`.
- The network outcome of the form's submit, the toast messages and the navigation after saving are not modelled. `EvaluateForm.EvaluationForm.Submit` stops at the two request bodies.
- Category, delivery-mechanism and vertical detail pages (app/actions.ts:63-146, 171-250, 276-342). They repeat the scoring above with their own joins and are not part of this model.
- The language-model prompt building, the competitive-analysis route and the field-guide context: they are text generation.
- Currency and percentage formatters, Zod form schemas, seed data, the create/update routes for reference data, and the UI-only forms.
- `Calculations.Mean`: also stands for `calculateAverageScore` (app/actions.ts:550-553), which is the same computation.
- `PriorityBadge.Rank`: a priority that names an inherited object property ("constructor", "toString", "__proto__" and the like) is read as 0, while the code's lookup `priorities[p] || 0` yields a non-number for it, against which every `>` is false: such a vertical, once it is the running maximum, is never displaced, and never displaces one. The form offers only the four priorities, but the verticals route stores any string. `PriorityBadge.HighestIsEarliestMaximum` and `PriorityBadge.ReduceHighestMaximal` hold only for verticals without such priorities.
- `Actions.ListAgreesWithMatrix`: states agreement on opportunity and quadrant only for a use case with at most one opportunity record, because the matrix query (app/actions.ts:578) orders no records and reads the first one it gets; `Actions.MatrixMayPlotOlderRecord` shows the disagreement.
- `Actions.KeepPlottable`: its own contract gives only the length bound; membership is stated by `Actions.KeepPlottableMember`.
- `Migration.MigrateAll`: its own contract states only that existing rows are kept; coverage, idempotence and row contents are separate lemmas.
- `Migration.CreateIfAbsent`: its own contract states only that existing rows are kept; the key behaviour is in `Migration.FindRowAppend` and `Migration.CreateIfAbsentKeepsUniqueKeys`.
