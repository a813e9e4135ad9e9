# Verified models of the AIDSS platform

Dafny models of the parts of the platform that keep state, loop or do arithmetic, with proofs of
what they promise over every input, every run or every interleaving.

| file | models |
|---|---|
| `Json.dfy`, `Prose.dfy`, `Ascii.dfy` | JSON values with JavaScript's conversions; what of a payload is printed, and in which language |
| `Translation.dfy` | the on-screen language switch, and the strategy panel's |
| `PdfSheet.dfy`, `PdfPages.dfy` | page breaking: what any sequence of layout commands leaves on paper |
| `PdfScript.dfy`, `PdfReading.dfy`, `PdfDocument.dfy` | the exported analysis: its sections, what a reader finds in them key by key, and the builder that draws them |
| `PdfHeadings.dfy`, `PdfDensity.dfy`, `PdfCrowding.dfy` | what stands under which heading, how many pages it takes, and one export in full |
| `Schema.dfy`, `TableCreation.dfy`, `InitialSchema.dfy`, `Revisions.dfy`, `Readiness.dfy`, `Upgraded.dfy` | schemas, migration operations, and six revisions up and down |
| `RowWalk.dfy` | the rows three of those revisions rewrite, along walks of the chain |
| `Reconnect.dfy` | one run of the realtime effect |
| `Session.dfy` | the stored token, its expiry event and the requests that carry it |
| `Paging.dfy` | the server window and the client cursor |
| `RoleLedger.dfy` | the operator's role commands and their audit log |
| `Preferences.dfy` | the investor's remembered preferences |
| `Interpolation.dfy` | message placeholders |
| `LeaderLease.dfy`, `ProviderQuota.dfy`, `JobQueue.dfy` | the three protocols background work rests on, statement by statement |
| `Options.dfy`, `Runs.dfy` | absent values, and runs of a machine shared by the protocols |
| `Division.dfy` | the whole-number facts the page and backoff arithmetic uses |

`dafny verify dfyconfig.toml` checks everything.

Code that changes things in place is a class whose methods are proved against a function of the old
state (`Layout`, `Connection`, `Tables`, `EffectRun`, `TokenStore`, `Store`, `MemoryManager`); the
properties are then lemmas about those functions over whole runs, and where a handler's effect depends
on what came before, the class carries its history. For the protocols shared by several
processes each database statement is one atomic step, and a run is any interleaving of steps.

## What is proved

**The exported document.** The text-splitting of the PDF library is an arbitrary function that
returns at least one line; page height is a parameter (A4 is 841.89 points). For every input:

- what is on paper is exactly the document as read key by key, every heading over its own lines
  (`BuildAnalysisPdf`, `ScriptReads`), each line once and in order
  (`DocumentSaysEverything`), and every printable scalar of an agent's payload is among it
  (`AgentProseReachesThePaper`);
- body lines run down the page without overlapping and stay 52 points clear of the page number
  (`DocumentIsLegible`), which holds exactly from a page height of 124 points (`BodyClearsTheFootIff`);
- no page lacks a body line exactly when the page is at least 152 points high (`NoBlankPageIff`);
- a one-line heading, its rule and the first line after it stay together exactly from the same height
  (`OneLineHeadingKeptIff`); the reservation of three lines is tight, and a heading of `n` lines needs
  `16 n + 26` points (`HeadingKeptIff`). The strategy heading is the exception, because its first side
  reserves again (`StrategyHeadingInDocumentIff`, `StrategyHeadingPartsOnA4`, `ReasonedExportCrowdsStrategy`);
- `n` lines take at most `1 + (n - 1) / 17` A4 pages in any document (`DocumentWastesNoPages`), and a
  run of equal lines has a closed-form layout (`UniformCount`, `UniformPlace`).

**Migrations.** Each modelled downgrade restores every schema its upgrade took, leaving no dangling
reference on the way, with two exact exceptions: the language default (`RepairRoundTripIff`) and the
account flag (`AccountsThereAndBack`). For the queue, calendar and status revisions the schemas
taken are exactly those that meet a guard on tables, columns and names, stated beforehand. Along any
walk that stays at or above the first revision accounts that were off stay off, enum columns follow
the position, and wordings change only by the repair or by losing their columns.

**Protocols.** Within the terms of their leases at most one scheduler leads under any interleaving
(`OneLeaderAtATime`). A day's recorded usage is exactly what was granted and never above its limit
(`AllowanceHolds`). Unless a reclaim takes a job from a worker still out with it, no job is held twice
or completed twice (`UndisturbedRunIsSafe`), and such a reclaim is exactly what ends good claims
(`ClaimsStayGoodIff`). A realtime run is always in exactly one of three phases (`ExactlyOnePhase`).

Four things the code's own comments suggest turn out not to hold without a condition:

- `src/aidss/jobs/quota.py:108-110` says a reservation returns false when the allowance would be
  exceeded. Alone that is exact (`AloneIsRefusedIff`); two workers opening a day together can have one
  refused with room to spare (`FirstCallsCanRace`), exactly because the day's row was not there when it
  asked (`NeedlessRefusalIffDayNotOpen`).
- `src/aidss/jobs/queue.py:154-208` records outcomes without looking at the lock, so a settled job can
  be put back; `SettledIsReopenedIff` says by which outcomes. It takes a reclaim that took the job from
  a worker still out with it (`SettledIsFinal`); after one, either worker can be the reviver, the late
  one (`LateWorkerRevivesJob`) or the punctual one (`PunctualWorkerRevivesJob`). Lateness alone does no
  harm.
- Exporting in the language a payload is written in prints the original where the payload names its
  language, and can differ where it does not (`SourceExportIsTheOriginalIff`,
  `UnnamedPayloadIsReplaced`).
- The strategy's renderings sit on the strategy, while the export looks for them on its sides
  (`frontend/src/export/analysisPdf.ts:241-245`), so the document prints the sides the same in every
  language; `StrategyExportIgnoresLanguage` says exactly when the panel agrees, and
  `IndonesianExportReadsEnglish` shows a strategy on which it does not.

## Model

| member | source | states |
|---|---|---|
| `Json.SpreadReads` | frontend/src/export/analysisPdf.ts:128 | A spread of two objects reads as the right one wherever it has the key, and as the left one elsewhere |
| `Json.TrimIs` | frontend/src/export/analysisPdf.ts:140 | Trimming removes all white space at both ends and nothing else |
| `Json.TrimEmptyIffBlank` | frontend/src/export/analysisPdf.ts:140-141 | A text trims to nothing exactly when it is all white space |
| `Json.FalsyValues` | frontend/src/export/analysisPdf.ts:126-127 | The six falsy values and the two nullish ones |
| `Json.PrintedValues` | frontend/src/export/analysisPdf.ts:140 | How each kind of value prints |
| `Json.TrimmedCharacters` | frontend/src/export/analysisPdf.ts:140 | The twenty-five characters trimming takes off |
| `Prose.LeafIsPrinted` | frontend/src/export/analysisPdf.ts:131-142 | Every printable scalar, however deep in arrays, is part of some printed line |
| `Prose.LineHasLeaf` | frontend/src/export/analysisPdf.ts:131-142 | Whatever is printed has a printable scalar behind it |
| `Prose.EmptyIffNothingReachable` | frontend/src/export/analysisPdf.ts:131-142 | A value prints nothing exactly when no printable scalar is reachable through its arrays |
| `Prose.LineShape` | frontend/src/export/analysisPdf.ts:133-141 | One line per array entry that has something to say, at most one line for anything else, never an empty line |
| `Prose.LabelIdempotent` | frontend/src/export/analysisPdf.ts:106-108 | Writing a key out twice is writing it out once |
| `Prose.LabelReads` | frontend/src/export/analysisPdf.ts:106-108 | A label has the length of its key, spaces for underscores and a capital at each word, and nothing else changed |
| `Prose.StancesRead` | frontend/src/export/analysisPdf.ts:91-104 | The eight stances as they are written out |
| `Prose.ArraysRead` | frontend/src/export/analysisPdf.ts:133-137 | Entries print in order, each on a bulleted line with what is nested in it |
| `Prose.PlainValuesRead` | frontend/src/export/analysisPdf.ts:132-141 | Plain values print trimmed, objects and missing values not at all |
| `Prose.StanceLabelsSpellTheStance` | frontend/src/export/analysisPdf.ts:91-104 | Every listed stance label spells its own value, up to case and underscores |
| `Translation.TargetIsTheOtherLanguage` | frontend/src/components/useTranslation.ts:40-57 | Whatever the locale and the stored keys, the switch offers the language the prose is not in |
| `Translation.SourceReads` | frontend/src/components/useTranslation.ts:43 | English where the payload says so, Indonesian otherwise |
| `Translation.ExportAgreesWithScreen` | frontend/src/components/useTranslation.ts:59-83 | Where a rendering is stored, the exported fields are the fields shown with the switch on |
| `Translation.SourceExportIsTheOriginalIff` | frontend/src/export/analysisPdf.ts:124-129 | Where a differing rendering in the source language is stored, exporting in that language is the original exactly when the payload names its language |
| `Translation.UnnamedPayloadIsReplaced` | frontend/src/export/analysisPdf.ts:124-129 | It happens: a payload that names no language but stores a rendering in the one it is taken to be in reads differently exported than on screen |
| `Translation.ExportIsTheOriginalIff` | frontend/src/export/analysisPdf.ts:124-129 | Exporting reads as the original exactly when no rendering is stored in the language, or the payload names it as its own, or the rendering says the same |
| `Translation.OverlayKeepsTheRest` | frontend/src/export/analysisPdf.ts:116-129 | A key no rendering carries keeps its original value |
| `Translation.Switch.ShowTranslation` | frontend/src/components/useTranslation.ts:79-97 | Where a rendering is stored the screen then reads as the document exported in that language and nothing is asked for; else what was fetched lies over the original; only with neither is a translation asked for, the original staying up |
| `Translation.StrategyExportIgnoresLanguage` | frontend/src/export/analysisPdf.ts:241-245 | Sides without versions of their own print the same in every language, which is what the panel shows exactly for English, for a language no version is stored in, and where the stored version of the side is the English one |
| `Translation.ServedStrategyIsExportedInEnglish` | src/aidss/recommendations/strategy.py:607-621 | Any strategy as the service builds it prints in English in the other language, where the panel shows that language's version |
| `Translation.IndonesianExportReadsEnglish` | src/aidss/recommendations/strategy.py:607-621 | A strategy whose Indonesian export and panel give different rationales |
| `PdfScript.StrategySectionIgnoresLanguage` | frontend/src/export/analysisPdf.ts:239-278 | The whole strategy section of such a strategy is the same in every language |
| `PdfSheet.NothingLostOrRepeated` | frontend/src/export/analysisPdf.ts:153-172 | After any commands the body is what it was plus the split lines of everything written, in call order |
| `PdfSheet.LinesNeverOverlap` | frontend/src/export/analysisPdf.ts:153-172 | After any commands lines on each page are at least the earlier line's size and 4 points apart, and between the margin and the foot where the page has that much |
| `PdfSheet.BodyClearsTheFootIff` | frontend/src/export/analysisPdf.ts:153-160 | All lines stay above the page-number strip exactly when the page is at least 124 points high |
| `PdfPages.RunExtends` | frontend/src/export/analysisPdf.ts:153-172 | Finished pages are final and the open page only grows |
| `PdfPages.HeadingKeptIff` | frontend/src/export/analysisPdf.ts:174-181 | A heading of n lines, its rule and the next line share a page exactly when 16 n + 26 points are left |
| `PdfPages.OneLineHeadingKeptIff` | frontend/src/export/analysisPdf.ts:174-181 | From any cursor, a one-line heading is kept with what follows exactly when the page is at least 152 points high |
| `PdfPages.HeadingKeptInDocument` | frontend/src/export/analysisPdf.ts:174-181 | Wherever a one-line heading directly followed by a text falls in a document, heading, rule and first line are adjacent on one final page |
| `PdfPages.StrategyHeadingKeptIff` | frontend/src/export/analysisPdf.ts:240-248 | The strategy heading shares a page with its first side exactly when 84 points are left |
| `PdfPages.RoomyLeavesNoBlank` | frontend/src/export/analysisPdf.ts:153-172 | Commands that never ask more of an empty page than it has leave no page without a line |
| `PdfPages.UniformCount` | frontend/src/export/analysisPdf.ts:162-172 | n equal lines from the top of a page fill exactly 1 + (n - 1) / k pages |
| `PdfPages.UniformPlace` | frontend/src/export/analysisPdf.ts:162-172 | Line i of such a run is line i mod k of page i div k, at that line's height |
| `PdfPages.PageCountBound` | frontend/src/export/analysisPdf.ts:162-172 | n lines of at most a size, written alone, need at most 1 + (n - 1) / k pages |
| `PdfPages.A4Holds33` | frontend/src/export/analysisPdf.ts:149-160 | On A4, k is 33 for the largest size the document uses |
| `PdfScript.AgentProseReachesTheScript` | frontend/src/export/analysisPdf.ts:281-297 | Every printable scalar under an agent's prose keys, in the requested language, is written |
| `PdfScript.RecommendationIsWritten` | frontend/src/export/analysisPdf.ts:194-229 | The label, the reasoning and every line of the three factor lists are written, in the requested language |
| `PdfScript.RecommendationFieldsAreWritten` | frontend/src/export/analysisPdf.ts:200-213 | So are confidence, horizon, entry, target and stop where they say something, a price with its method |
| `PdfReading.ScriptReads` | frontend/src/export/analysisPdf.ts:185-308 | The sections add up to the document read key by key: every heading over its own lines, every section, side, list and agent in its order, spaced and reserved as the source has it |
| `PdfReading.StrategyReads` | frontend/src/export/analysisPdf.ts:232-278 | Not holding before holding; on each side title, stance, rationale, conditions, invalidations and levels, each under its own heading |
| `PdfReading.RecommendationReads` | frontend/src/export/analysisPdf.ts:195-230 | Label, five named values with their methods, rationale, then supporting, conflicting and risk factors each under its heading |
| `PdfReading.AgentReads` | frontend/src/export/analysisPdf.ts:283-298 | Name, then the twelve kinds of prose in order under their names, a dash for an agent with none |
| `PdfHeadings.ConditionsStandUnderTheirHeadings` | frontend/src/export/analysisPdf.ts:250-266 | After each side's title the conditions stand under the conditions heading, and after them the invalidations under theirs, in one stretch |
| `PdfHeadings.StretchReachesThePaper` | frontend/src/export/analysisPdf.ts:162-172 | What stands together in the script stands together on paper |
| `PdfScript.ScriptIsRoomy` | frontend/src/export/analysisPdf.ts:190-308 | No document asks an empty page for more than three lines |
| `PdfDocument.Layout.BreakIfNeeded` | frontend/src/export/analysisPdf.ts:153-160 | Turns the page exactly when the room asked for passes the foot |
| `PdfDocument.Layout.Writing` | frontend/src/export/analysisPdf.ts:162-172 | Draws the split lines one by one, breaking before each, and moves the cursor past each |
| `PdfDocument.Layout.WriteHeading` | frontend/src/export/analysisPdf.ts:174-181 | Reserves, skips, writes, underlines and skips, in that order |
| `PdfDocument.Layout.WriteRecommendation` | frontend/src/export/analysisPdf.ts:195-230 | Carries out the recommendation's commands, field by field and factor list by factor list |
| `PdfDocument.Layout.WriteStrategy` | frontend/src/export/analysisPdf.ts:239-278 | Carries out the strategy as it is read: both sides in order, every list under its own heading |
| `PdfDocument.Layout.WriteAgents` | frontend/src/export/analysisPdf.ts:280-298 | Carries out the commands of every agent in order, a dash for one with no prose |
| `PdfDocument.Layout.Stamp` | frontend/src/export/analysisPdf.ts:310-324 | Adds to each page its own number and the total, and touches nothing else |
| `PdfDocument.BuildAnalysisPdf` | frontend/src/export/analysisPdf.ts:144-327 | For every input, height and splitter the loops produce the specified document, whose lines are those of the reading, each once and in order |
| `PdfDocument.PagesAreNumbered` | frontend/src/export/analysisPdf.ts:310-324 | On page k of n stands the ticker, the word for page and k/n, 24 points from the foot |
| `PdfDocument.DecimalReads` | frontend/src/export/analysisPdf.ts:317 | A page number is written in the digits of its value |
| `PdfDocument.DocumentSaysEverything` | frontend/src/export/analysisPdf.ts:144-308 | Read page by page, the paper holds everything the document had to say, once and in order |
| `PdfDocument.AgentProseReachesThePaper` | frontend/src/export/analysisPdf.ts:281-297 | Every printable scalar under an agent's prose keys is in a text whose split lines stand together on paper |
| `PdfDocument.DocumentIsLegible` | frontend/src/export/analysisPdf.ts:153-172 | From 124 points of height, no line overlaps another or comes within 52 points of the page number |
| `PdfDocument.NoBlankPageIff` | frontend/src/export/analysisPdf.ts:306-308 | No page lacks a body line, for any input, exactly when the page is at least 152 points high |
| `PdfDocument.StrategyHeadingInDocumentIff` | frontend/src/export/analysisPdf.ts:239-248 | In every document with a strategy the heading stands with its first side where 84 points are left; where less, it ends its page and the side opens the next |
| `PdfDocument.StrategyHeadingPartsOnA4` | frontend/src/export/analysisPdf.ts:239-248 | On A4 the heading stays behind wherever what comes before it fills the first page to between 42 and 84 points |
| `PdfCrowding.ReasonedExportCrowdsStrategy` | frontend/src/export/analysisPdf.ts:190-229 | It happens: a recommendation with a reasoning of 38 lines leaves 66 points |
| `PdfDocument.WrittenReachesThePaper` | frontend/src/export/analysisPdf.ts:162-172 | Whatever the script writes is on paper, its split lines standing together |
| `PdfDocument.DisclaimerIsKept` | frontend/src/export/analysisPdf.ts:300-308 | Every document ends with the disclaimer, its one-line heading on the page of its first line |
| `PdfPages.ReservedHeadingKept` | frontend/src/export/analysisPdf.ts:153-181 | After a reservation of r points a heading of n lines with 16 n + 26 within r is kept with its rule and the next line |
| `PdfDocument.LongDisclaimerIsKept` | frontend/src/export/analysisPdf.ts:306-308 | From 194 points of height a disclaimer heading of up to three lines is kept with its first line |
| `PdfDocument.RecommendationHeadingIsKept` | frontend/src/export/analysisPdf.ts:196-200 | The recommendation's heading is on the page of its label |
| `PdfDocument.AgentHeadingIsKept` | frontend/src/export/analysisPdf.ts:282-286 | The agents' heading is on the page of the first agent's name |
| `PdfDensity.ScriptIsPaced` | frontend/src/export/analysisPdf.ts:190-308 | No document skips more than 16 points between lines, writes larger than 18 or reserves more than 84 |
| `PdfDensity.DocumentWastesNoPages` | frontend/src/export/analysisPdf.ts:144-308 | n lines of any document take at most 1 + (n - 1) / k pages |
| `PdfDensity.A4HoldsAtLeast17` | frontend/src/export/analysisPdf.ts:149-160 | On A4, that k is 17 |
| `Schema.PerformKeepsWellFormed` | alembic/versions/60b76ad1dd80_initial_schema_phases_1_3.py:21-508 | No accepted operation, dropping a table included, leaves a foreign key, constraint or index dangling |
| `Schema.UndoOne` | alembic/versions/371022dfaa5b_background_job_queue_claiming_retries_.py:28-88 | A creating step is undone exactly by its inverse on any well-formed schema that takes it |
| `Schema.MirrorUndoes` | alembic/versions/371022dfaa5b_background_job_queue_claiming_retries_.py:28-88 | The inverse steps in reverse order are accepted and restore the schema |
| `Schema.DropUndoesTableAndIndexes` | alembic/versions/b4d1f8a2c907_agenda_sharing_and_analysis_owner.py:105-110 | Dropping a new table also undoes the indexes built on it |
| `Schema.Connection.Execute` | alembic/env.py:64-76 | Runs the operations one by one and keeps all of them or none |
| `TableCreation.UpApplies` | alembic/versions/60b76ad1dd80_initial_schema_phases_1_3.py:21-443 | Tables listed after what they refer to, with fresh names, can always be created |
| `TableCreation.DownUndoesUp` | alembic/versions/60b76ad1dd80_initial_schema_phases_1_3.py:446-508 | Dropping indexes and tables last to first is accepted and restores the schema |
| `InitialSchema.SpecsAreOrderly` | alembic/versions/60b76ad1dd80_initial_schema_phases_1_3.py:21-443 | Every foreign key of the first revision points at a table created earlier, and no table or index name repeats |
| `InitialSchema.DowngradeIsDown` | alembic/versions/60b76ad1dd80_initial_schema_phases_1_3.py:446-508 | The listed downgrade is the upgrade's tables last to first, each one's indexes before it |
| `InitialSchema.InitialRoundTrip` | alembic/versions/60b76ad1dd80_initial_schema_phases_1_3.py:21-508 | Wherever the first revision applies, its downgrade restores what was there |
| `InitialSchema.InitialUpgradeApplies` | alembic/versions/60b76ad1dd80_initial_schema_phases_1_3.py:21-443 | The first revision applies to any schema that uses none of its names |
| `InitialSchema.InitialUpgradeBuilds` | alembic/versions/60b76ad1dd80_initial_schema_phases_1_3.py:21-443 | Afterwards every table is as defined and every index as listed, the address and the news hash unique |
| `InitialSchema.IndexesAreWellNamed` | alembic/versions/60b76ad1dd80_initial_schema_phases_1_3.py:51-443 | Every index named after a table and column is on those; the six others are on the columns written out; only two are unique |
| `InitialSchema.TargetsAreReferrers` | alembic/versions/60b76ad1dd80_initial_schema_phases_1_3.py:117-443 | Which tables each table refers to, read from the referred side |
| `Readiness.JobQueueThereAndBack` | alembic/versions/371022dfaa5b_background_job_queue_claiming_retries_.py:28-88 | The queue revision applies exactly where the queue has a status and none of its new names is taken, and its downgrade restores every such schema |
| `Upgraded.JobQueueUpIs` | alembic/versions/371022dfaa5b_background_job_queue_claiming_retries_.py:28-71 | The upgraded queue, written out: eight columns with their definitions, two indexes, and no two jobs with one deduplication key |
| `Revisions.TranslationsRoundTrip` | alembic/versions/df94aedf2f33_store_recommendation_translations_.py:20-46 | The translations revision's downgrade restores any schema its upgrade took |
| `Revisions.RepairRoundTripIff` | alembic/versions/d5b2914c7ae0_recommendation_language_must_be_written.py:49-58 | The repair's downgrade restores the schema exactly when the language default was 'id' |
| `Upgraded.TranslationsUpIs` | alembic/versions/df94aedf2f33_store_recommendation_translations_.py:20-37 | The upgraded recommendations, written out: a language defaulting to id, and renderings defaulting to none |
| `Upgraded.RepairUpIs` | alembic/versions/d5b2914c7ae0_recommendation_language_must_be_written.py:49-52 | The repair takes the language's default away and touches nothing else of the schema |
| `Readiness.CalendarThereAndBack` | alembic/versions/b4d1f8a2c907_agenda_sharing_and_analysis_owner.py:48-110 | The calendar revision applies exactly where its targets exist and its names are free, and the shorter downgrade restores every such schema |
| `Upgraded.CalendarUpIs` | alembic/versions/b4d1f8a2c907_agenda_sharing_and_analysis_owner.py:48-102 | The upgraded schema, written out: agenda, shared items, the six indexes, and an owner on each analysis that may be set to null |
| `Readiness.AccountsThereAndBack` | alembic/versions/c3f81a6e02b7_user_status_and_news_sources.py:33-97 | The status revision applies exactly where there is a flag no other table refers to and its names are free; after the downgrade the flag has been replaced, which is a new default and nothing else exactly when the flag was a required boolean nothing depended on |
| `Upgraded.AccountsUpIs` | alembic/versions/c3f81a6e02b7_user_status_and_news_sources.py:33-82 | The upgraded schema, written out: four status columns in place of the flag, and the news sources |
| `RowWalk.Tables.FoldEnums` | alembic/versions/9bdcfc488a3b_phase_5_store_enum_values_rather_than_.py:44-55 | The loop folds every listed column in place |
| `RowWalk.Tables.Upgrade` | alembic/versions/c3f81a6e02b7_user_status_and_news_sources.py:54-59 | One revision up in place: from the first revision on nobody is switched on or off, and reaching the repair leaves no row mislabelled |
| `RowWalk.Tables.Downgrade` | alembic/versions/c3f81a6e02b7_user_status_and_news_sources.py:87-97 | One revision down in place: above the first revision nobody is switched on or off and no account, cell or recommendation is lost |
| `RowWalk.Tables.Migrate` | alembic/env.py:64-76 | Any sequence of moves is the walk of those moves: at or above the first revision accounts keep being on or off, and repaired wordings survive while their columns stay |
| `RowWalk.OffStaysOff` | alembic/versions/c3f81a6e02b7_user_status_and_news_sources.py:56-59 | Along any walk that stays at or above the first revision every account is kept, and is off exactly when it was off |
| `RowWalk.StatusAfterWalk` | alembic/versions/c3f81a6e02b7_user_status_and_news_sources.py:54-97 | Along a walk at or above the first revision a status survives exactly, unless the walk dipped below the status revision; then a ban has become a suspension |
| `RowWalk.FoldListedIs` | alembic/versions/9bdcfc488a3b_phase_5_store_enum_values_rather_than_.py:32-48 | The updates fold the cells of the listed columns, leave nulls and other cells alone, and lose no row |
| `RowWalk.RecasingIsIdempotent` | alembic/versions/9bdcfc488a3b_phase_5_store_enum_values_rather_than_.py:16-18 | The re-casing upgrade can be run again without effect |
| `RowWalk.EnumsFollowTheWalk` | alembic/versions/9bdcfc488a3b_phase_5_store_enum_values_rather_than_.py:44-55 | Along any walk at or above the first revision listed columns are upper case below the re-casing and lower case from it on, spelling the same name |
| `RowWalk.EnumsReturn` | alembic/versions/9bdcfc488a3b_phase_5_store_enum_values_rather_than_.py:44-55 | Such a walk that returns to its position returns every value |
| `RowWalk.EnumColumnsAre` | alembic/versions/9bdcfc488a3b_phase_5_store_enum_values_rather_than_.py:32-41 | The eight columns by name |
| `RowWalk.LabelsFollowTheWalk` | alembic/versions/9bdcfc488a3b_phase_5_store_enum_values_rather_than_.py:32-55 | A stored recommendation label is upper case up to the second revision and lower case after it |
| `RowWalk.PositionsAre` | alembic/versions/9bdcfc488a3b_phase_5_store_enum_values_rather_than_.py:22-26 | Which revisions the positions of the chain stand for |
| `RowWalk.RepairMends` | alembic/versions/d5b2914c7ae0_recommendation_language_must_be_written.py:39-47 | The repair relabels every row whose English rendering is its own reasoning, leaves the rest, and changes nothing exactly when there is no such row |
| `RowWalk.RepairReads` | alembic/versions/d5b2914c7ae0_recommendation_language_must_be_written.py:39-47 | A row whose 'en' rendering is its own reasoning is labelled English and loses its renderings; every other row stays |
| `RowWalk.NoReasoningCalledEnglish` | alembic/versions/d5b2914c7ae0_recommendation_language_must_be_written.py:39-58 | After a walk that crosses the repair no row has its own reasoning as an English rendering |
| `RowWalk.WordingsAfterWalk` | alembic/versions/d5b2914c7ae0_recommendation_language_must_be_written.py:20-58 | A walk that keeps the columns changes wordings only by the repair, as if crossed once |
| `RowWalk.WordingsSurvive` | alembic/versions/d5b2914c7ae0_recommendation_language_must_be_written.py:37-58 | Once repaired, wordings survive every such walk |
| `RowWalk.WordingsReset` | alembic/versions/df94aedf2f33_store_recommendation_translations_.py:20-46 | A walk at or above the first revision that drops the columns and takes them back resets every label to 'id' and every rendering to none |
| `Reconnect.EffectRun.constructor` | frontend/src/realtime/useEvents.ts:69-81 | A run starts with one attempt to connect |
| `Reconnect.EffectRun.TryConnect` | frontend/src/realtime/useEvents.ts:73-81 | Makes a socket unless the run is closed or there is no token |
| `Reconnect.EffectRun.OnReady` | frontend/src/realtime/useEvents.ts:99-106 | Adds a ready to the run, shows the connection and resets the delay |
| `Reconnect.EffectRun.OnClose` | frontend/src/realtime/useEvents.ts:126-132 | Unless the run is over, leaves exactly one timer and no socket, waiting what the refusals of the run so far call for |
| `Reconnect.EffectRun.OnTimer` | frontend/src/realtime/useEvents.ts:130 | Leaves one socket and no timer where a token is found, and a stopped run where none is |
| `Reconnect.EffectRun.Dispose` | frontend/src/realtime/useEvents.ts:141-147 | Stops the run: no timer is left, no socket is referred to, and none is made |
| `Reconnect.ExactlyOnePhase` | frontend/src/realtime/useEvents.ts:66-148 | In every reachable state a run has one socket, or one retry pending, or has stopped, and never two of these |
| `Reconnect.SocketsMove` | frontend/src/realtime/useEvents.ts:73-148 | What each event leaves: sockets, timers, delay and flag, in full |
| `Reconnect.StopsOnlyForWantOfToken` | frontend/src/realtime/useEvents.ts:74-78 | A run that is not cleaned up and has stopped found no token at its last attempt |
| `Reconnect.NothingAfterCleanUp` | frontend/src/realtime/useEvents.ts:129-147 | After cleanup no socket is made, no timer armed and no connection shown, whatever follows |
| `Reconnect.WaitsFollowRefusals` | frontend/src/realtime/useEvents.ts:99-132 | The n-th wait since the last ready is min(1000 * 2^(n-1), 30000); opening alone resets nothing |
| `Reconnect.CostOfRefusals` | frontend/src/realtime/useEvents.ts:28-29 | n refusals in a row cost 1000 * (2^n - 1) up to five and 31000 + 30000 * (n - 5) beyond |
| `Session.TokenStore.Lookup` | frontend/src/api/client.ts:16-30 | Finds the token unless its readable expiry has passed; then clears storage and fires once |
| `Session.TokenStore.OnRequest` | frontend/src/api/client.ts:48-52 | A request carries the stored token exactly when there is one that has not run out; otherwise storage is empty |
| `Session.TokenStore.OnResponse` | frontend/src/api/client.ts:53-61 | A 401 leaves no token and fires once exactly when there was one; any other answer changes nothing |
| `Session.TokenStore.OnSignedIn` | frontend/src/auth/AuthContext.tsx:71-77 | The answer after a login signs in and drops the notice, leaving token and expiry as stored, or clears both; nothing else changes |
| `Session.TokenStore.OnVerified` | frontend/src/auth/AuthContext.tsx:32-38 | The start-up answer signs in, leaving token and expiry as stored, or clears both; nothing else changes |
| `Session.FiringEmptiesStorage` | frontend/src/api/client.ts:24-28 | A step fires at most once, only for a token's expiry or a 401, leaving storage empty; a token never vanishes unannounced except by signing out or a refused answer |
| `Session.FiresOncePerToken` | frontend/src/api/client.ts:16-62 | On any run the event fires no more often than tokens are stored |
| `Session.QuietUntilNextSignIn` | frontend/src/api/client.ts:37-40 | After a firing none follows until a token is stored |
| `Session.StorageChangesOnly` | frontend/src/api/client.ts:16-62 | Which events change the stored token and expiry, and to what: logins, clearing, and a look at what has run out |
| `Session.DisplayChangesOnly` | frontend/src/auth/AuthContext.tsx:32-97 | Who is shown as signed in, and the notice, change only by an answer, an expiry or leaving |
| `Session.StorageIsTheLastLogin` | frontend/src/api/client.ts:32-35 | Whatever is stored is the last login's token with the expiry it came with |
| `Session.NoExpiredTokenIsSent` | frontend/src/api/client.ts:47-52 | After any history a request carries the last login's token before the expiry of that login, or none |
| `Session.LookupSettles` | frontend/src/auth/AuthContext.tsx:52-56 | After a look no expired token is left, and a second look changes nothing |
| `Paging.SweepShowsEverything` | frontend/src/components/Pager.tsx:86-92 | Pressing Next from the start until it is disabled shows the whole list once, in ceil(total / limit) pages |
| `Paging.SweepShowsTheRest` | src/aidss/api/pagination.py:28-30 | From any offset the sweep shows the rest of the list, once and in order |
| `Paging.CursorStaysOnGrid` | frontend/src/components/Pager.tsx:57-92 | Under any presses the offset stays a multiple of the page size, on a page that has rows |
| `Paging.PressesUndoEachOther` | frontend/src/components/Pager.tsx:76-92 | Previous undoes Next, and Next undoes Previous, wherever each is enabled |
| `Paging.PressesMove` | frontend/src/components/Pager.tsx:60-92 | Next moves on by a page while rows remain, Previous back by one but not before the start, another page size starts over |
| `Paging.WindowIs` | src/aidss/api/pagination.py:28-30 | The window is the rows from the offset, as many as the limit allows, beside the full count |
| `RoleLedger.TypedForIff` | src/aidss/cli.py:33-34 | Every text is typed for exactly one address: in any case, with white space around it |
| `RoleLedger.CommandActsOnItsAddress` | src/aidss/cli.py:37-65 | A command acts on the account stored under the address it is typed for, and on nothing else |
| `RoleLedger.Store.SetRole` | src/aidss/cli.py:37-70 | For that address: exit code 1 exactly where it has no account; a differing role is set and logged, or rolled back and raised where the commit fails; a role already held changes nothing |
| `RoleLedger.Store.Invoke` | src/aidss/cli.py:107-112 | grant-admin makes the account an admin, revoke-admin an investor, and listing changes nothing |
| `RoleLedger.LogReplaysToTheRoles` | src/aidss/cli.py:46-65 | After any commands, replaying the new entries over the roles at the start gives the roles now |
| `RoleLedger.StrippedCharacters` | src/aidss/cli.py:34 | The twenty-nine characters around a typed address that do not count |
| `Ascii.LettersFold` | src/aidss/cli.py:34 | The twenty-six letters whose case does not count |
| `RoleLedger.HistoriesChain` | src/aidss/cli.py:52-62 | Whatever the log held before, the entries added about an account chain from its role then to its role now, every entry a change |
| `RoleLedger.HistoriesAlternate` | src/aidss/cli.py:107-112 | After the first of them, each added entry reverses the one before it |
| `RoleLedger.RoleIsLastAsked` | src/aidss/cli.py:37-65 | A role is what the last command to succeed asked for |
| `Preferences.MemoryManager.Remember` | src/aidss/agents/memory.py:88-117 | After any sayings a stated value is what is stored now, a guess only where none was ever stated, and no other row moves |
| `Preferences.MemoryManager.Load` | src/aidss/agents/memory.py:78-86 | Overlays the user's rows on the defaults, in whatever order they come; defaults alone for nobody |
| `Preferences.StatedOutranksInferred` | src/aidss/agents/memory.py:99-116 | What is stored is the last stated value, else the last inferred one, else nothing |
| `Preferences.UsersAreApart` | src/aidss/agents/memory.py:7-10 | One user's words never touch another's rows |
| `Preferences.LoadedReads` | src/aidss/agents/memory.py:79-86 | A loaded preference is the stored value where there is one, else the default |
| `Preferences.DefaultsAreUnremarkable` | src/aidss/agents/memory.py:39-45 | The five defaults by name and value |
| `Interpolation.FillMeans` | frontend/src/i18n/index.tsx:58-64 | The scan fills a template hole by hole, whatever the values contain |
| `Ascii.WordCharacters` | frontend/src/i18n/index.tsx:61 | The sixty-three characters a placeholder name is made of |
| `Interpolation.TranslateMeans` | frontend/src/i18n/index.tsx:58-64 | A message is its template filled hole by hole, as it is without values, and the key itself where there is none |
| `Interpolation.FillWithPlaceholders` | frontend/src/i18n/index.tsx:61-63 | Giving every name its own placeholder leaves any template as it was |
| `Interpolation.FillTwice` | frontend/src/i18n/index.tsx:58-64 | Two steps are one step with both values, where the first values have no braces |
| `Interpolation.FillTwiceIff` | frontend/src/i18n/index.tsx:58-64 | For every template and all second values two steps are one exactly where no first value holds a placeholder and no two can make one up between them |
| `Interpolation.FillTwiceNeedsBracelessValues` | frontend/src/i18n/index.tsx:61-63 | A first value with braces can be taken for a placeholder |
| `LeaderLease.OneLeaderAtATime` | src/aidss/jobs/leader.py:55-96 | Under any interleaving of any number of schedulers no two lead at once within the terms of their leases, and the leader is the holder on record |
| `LeaderLease.AttemptSucceedsIff` | src/aidss/jobs/leader.py:55-96 | Undisturbed, acquiring succeeds exactly when the lease is free, its own or run out, for a full term |
| `LeaderLease.StatementsRead` | src/aidss/jobs/leader.py:55-111 | What each statement does to the row and to the scheduler, terms counted from the clock read on entry |
| `LeaderLease.RenewalAndHandover` | src/aidss/jobs/leader.py:98-111 | A leader can renew, nobody can take over from it, and once it releases a peer leads at once |
| `LeaderLease.LeaseHolder.Acquire` | src/aidss/jobs/leader.py:55-96 | Takes or renews the lease exactly when that is allowed, changes nothing otherwise, and does what an undisturbed attempt of the protocol does |
| `LeaderLease.LeaseHolder.GiveUp` | src/aidss/jobs/leader.py:98-111 | Removes the lease exactly when it is its own |
| `ProviderQuota.AllowanceHolds` | src/aidss/jobs/quota.py:98-206 | Under any interleaving what is recorded is exactly what was granted, and never above the limit |
| `ProviderQuota.AloneIsRefusedIff` | src/aidss/jobs/quota.py:98-148 | Undisturbed, a reservation is refused exactly when it would exceed the limit, changing nothing |
| `ProviderQuota.StatementsRead` | src/aidss/jobs/quota.py:117-148 | What each statement of a reservation does to the row and which answer it gives |
| `ProviderQuota.NeedlessIff` | src/aidss/jobs/quota.py:124-148 | Among workers a refusal is needless exactly when the update found no row, one has been written since and it has room |
| `ProviderQuota.OpenDaysRefuseNothingNeedlessly` | src/aidss/jobs/quota.py:124-148 | If the day's row is there when a claim is asked for, that claim is never refused needlessly, whatever the others do |
| `ProviderQuota.FirstCallsCanRace` | src/aidss/jobs/quota.py:138-148 | Wherever the day is not open and two workers are free, two claims that fit together can have one refused with room to spare |
| `ProviderQuota.NeedlessRefusalIffDayNotOpen` | src/aidss/jobs/quota.py:124-148 | A claim short of the whole limit risks a needless refusal exactly when the day's row is not there as it is asked for |
| `ProviderQuota.UsageTable.Reserve` | src/aidss/jobs/quota.py:98-148 | Records what it grants and nothing else, and answers as an undisturbed worker of the protocol does |
| `JobQueue.ClaimsStayGoodIff` | src/aidss/jobs/queue.py:106-235 | Through a whole run everyone out with a job holds it exactly when no reclaim in it takes a job from a worker still out with it |
| `JobQueue.HoldersStayIff` | src/aidss/jobs/queue.py:211-235 | The one step that breaks good claims is such a reclaim |
| `JobQueue.UndisturbedRunIsSafe` | src/aidss/jobs/queue.py:106-235 | Without such a reclaim, however late workers are, no job is out twice or completed twice, and failures are counted up to the budget, waiting and reclaiming costing nothing |
| `JobQueue.TimelyRunIsSafe` | src/aidss/jobs/queue.py:37-40 | In particular while every worker finishes within the timeout |
| `JobQueue.SettledIsFinal` | src/aidss/jobs/queue.py:154-235 | Without such a reclaim a completed or dead job never changes again |
| `JobQueue.SettledIsReopenedIff` | src/aidss/jobs/queue.py:169-208 | A settled job is put back exactly by a deferral, or a retryable failure within the budget, of a worker out with it |
| `JobQueue.OnlyStaleOutcomesTouchSettledJobs` | src/aidss/jobs/queue.py:154-208 | Whatever touches a settled job is an outcome of a worker out with it whose claim is no longer good |
| `JobQueue.RobbedJobsCanBeRevived` | src/aidss/jobs/queue.py:106-235 | After such a reclaim, wherever another worker can claim the job next, either of the two can finish it and the other put it back |
| `JobQueue.PunctualWorkerRevivesJob` | src/aidss/jobs/queue.py:190-208 | The reviver need not be late: the second worker can put back what the late one finished |
| `JobQueue.LateWorkerRevivesJob` | src/aidss/jobs/queue.py:190-208 | A worker that outlives its lock can have a completed job completed again |
| `JobQueue.AbandonedJobsReturn` | src/aidss/jobs/queue.py:211-235 | Through any run in which nobody reports on a job, each reclaim leaves it due or under a lock no older than the timeout, uncharged |
| `JobQueue.JobsAreKeptAndUnique` | src/aidss/jobs/queue.py:59-103 | Jobs are never deleted and no two share a deduplication key |
| `JobQueue.RetryDelayIs` | src/aidss/jobs/queue.py:164-166 | The waits are 30, 60, 120, 240, 480, 960 and 1920 seconds, and an hour from the eighth failure on |
| `JobQueue.RetryDelayGrows` | src/aidss/jobs/queue.py:164-166 | Backoff never shrinks, starts at the base and never passes the ceiling |
| `JobQueue.FailureBacksOff` | src/aidss/jobs/queue.py:169-187 | The a-th failure puts a retryable job back min(30 * 2^(a-1), 3600) seconds from now while within its budget, and is its last otherwise |
| `JobQueue.BackoffHolds` | src/aidss/jobs/queue.py:106-185 | Until that long after, whatever happens, nobody can claim it unless another outcome is recorded for it |
| `JobQueue.DeferralWaits` | src/aidss/jobs/queue.py:190-208 | A deferred job is pending again from the time asked for, uncharged |
| `JobQueue.DeferralHolds` | src/aidss/jobs/queue.py:106-208 | Until then nobody can claim it unless another outcome is recorded for it |
| `JobQueue.ClaimTakesTheLongestWaiting` | src/aidss/jobs/queue.py:106-151 | A job can be claimed exactly when it is pending, due, and none due has waited longer; it is then running under that worker's lock |
| `JobQueue.OutcomesFreeTheJob` | src/aidss/jobs/queue.py:154-208 | Every outcome takes the lock off that job alone and frees the worker |
| `JobQueue.SuccessSettles` | src/aidss/jobs/queue.py:154-161 | A success settles the job and changes nothing else of it |
| `JobQueue.ReclaimReturnsTheAbandoned` | src/aidss/jobs/queue.py:211-235 | A reclaim returns exactly the running jobs locked more than 900 seconds ago, due at once and uncharged |
| `JobQueue.EnqueueAddsUnlessTaken` | src/aidss/jobs/queue.py:59-103 | A job is added pending and untried, unless its deduplication key is taken |

## Left out

- Text metrics: the PDF library's line splitting is an arbitrary function; widths, fonts, colours and horizontal positions are not modelled.
- Ill-typed payloads: `translations`, a rendering and `reference_levels` are read as objects; anything else in their place reads as an empty one.
- Inherited object keys: `name in values` and label lookups see own keys only, not those of JavaScript's prototypes.
- Case mapping is ASCII; enum names, labels, addresses and keys in this system are.
- Schema.Accepts: does not model primary keys, the index behind a unique constraint, check constraints, column types' compatibility or a foreign key's need of a unique target.
- InitialSchema.InitialUpgradeApplies: column definitions are arbitrary, as long as key and index columns exist and references are the listed ones; the order and the names are the revision's own.
- The other twelve revisions: they create tables and add columns in the same way, and touch none of the rows modelled here.
- Rows written by the application between migrations: a walk is up and down steps only.
- Reconnect: one run of the effect; a late close from an earlier run can clear the shared socket reference, and which queries an event invalidates is not modelled.
- Session: the login and start-up requests are steps of their own; a reply that arrives after expiry can leave a signed-in user without a token, so no such invariant is stated.
- Paging: the list does not change while it is read, and its order is total.
- RoleLedger: commands are atomic, one after another; the listing command only reads.
- Preferences: the two sources the platform writes; other source texts are not modelled.
- Number, money, percentage and date formatting in the interface.
- LeaderLease.OneLeaderAtATime: speaks of lease terms; a scheduler pass that outlasts its term goes on without looking (`src/aidss/jobs/worker.py:260-320`) and can overlap the next leader's.
- LeaderLease and ProviderQuota: each database statement is atomic and all processes read one clock; transaction rollbacks other than the modelled conflicts are not included.
- JobQueue: statements as transitions rather than methods; job types, payloads, results and error texts are left out, and a worker that loads a row after losing it is taken to have loaded it before.
- React rendering, HTTP, WebSocket transport and browser storage appear as events and state only.
