# QualityCI: a model of its evidence, publication and gate logic

QualityCI turns controlled tables into a *Case*, checks it with seven rules, and lets a Case change only through
recorded operations bound to bytes. This project models the places where two independent pieces of code must agree, or
where a chain, a transaction or a verdict must hold over every run, and proves what each is for.

## What is proved

* **Twice-derived provenance and its closure check.** One pass builds a document's fields and a provenance list, merging
  repeated targets in place; a second pass builds an evidence plan on its own; a checker compares the two.
  `Agreement.DeriveTwice` proves that from any raw cells on both passes fail on exactly the same tables and otherwise
  list the same entries, aggregate contributors and their order included. `Submitted.ValidateMappingClosure` proves
  what the checker accepts, and `ClosureExact.SubmittedExactly` that, within the size limits, this is exactly the full
  provenance in any order, whole entries compared as Python compares them. `ClosureExact.BuildAndClose` joins the whole
  pipeline, and `Existence.SourcesAccepted` shows that every mappable table of up to 2499 rows has such an accepted
  build. `CellReadings.FieldsAreSaid` and `CellReadings.FieldsFixed` say what a built document holds, from the cells'
  texts alone; `ClosureMeaning.AcceptedMeans` what an accepted list means, for any parser evidence.
* **All-or-nothing publication.** `Publication.Publish`: with a fault possible at every step up to the restoring ones,
  every file is as it was unless the command completes; it completes exactly when nothing faulted, every watched path
  was a regular file and the store read back what it was given.
* **Canonical identity.** The projection forgets listing order exactly when approvals stay apart after normalization,
  is idempotent, leaves the caller's lists alone and loses nothing: equal projections are one Case up to listing order
  (`Canonical.ProjectionIff`).
* **Validation evidence.** R006 passes exactly when reports and plan match one to one under the Case's own subject and
  scope hashes. `ValidationRun.ServesExactly`: reports that serve one Case serve another exactly when the two differ in
  listing order, approvals, recorded evidence, results and the active mutation only, unless their subjects collide under
  the hash. The evidence set says exactly which members it was made of, whatever their order.
* **Mutation and resolution.** After a mutation each operation's value is read at its place, at every depth, and every
  place no operation touches reads as before (`Effects.MutationWrites`, `Effects.MutationKeeps`); it is refused exactly
  when a step cannot be carried out. A recorded mutation has the effect of the raw one on every Case; for every first
  list the exact condition under which all second lists that fit the bound compose with it, which every accepted
  resolution list meets; a resolved Case differs from the Case before in the touched documents and two markers only, and
  its documents hold the approved edits and otherwise the facts they had (`ResolvedFacts.ResolvedHolds`,
  `ResolvedFacts.ResolvedKeeps`).
* **Lineage.** In every reachable context the hash chain is linked, the continuity errors are unreachable, and equal
  terminal hashes force equal histories.
* **Rules.** R001, R002 and R003, with their indexes, equal a scan that uses none; no Case migrated from v0.1 or v0.2
  passes overall.
* **Authorization.** The authenticity state and the record-set hash do not depend on record order, nor acceptance and the
  recorded hashes on assertion order; `ApprovalGate.Admit` runs all gates and proves that acceptance means assertions and
  records in bijection with a chained time window.
* **Byte walks and arithmetic.** Bijective base-26 columns, injective sheet locators, exact tiling of the ZIP central
  directory, an injective table fingerprint.
* **Request slots.** Slots and requests in flight add up in every interleaving; the drain of a rejected connection ends
  within its byte budget.

## Findings

Properties that hold only under a condition are kept as the code has them, with a concrete input where they fail and the
exact condition under which they hold.

* The provenance list does not check the first merge for a repeated cell, the plan always does
  (`src/qualityci/case_builder.py:232-253` against `1166-1170`). `Divergence.FirstMergeRepeatsACell` is the input,
  `Divergence.DivergeExactly` the condition; `_map_table` never produces such cells.
* The closure check compares whole entries with Python's `==`, coordinates included, so acceptance does not pin the
  provenance (`src/qualityci/revision_artifacts.py:881-938`). No list is ever pinned: `Submitted.NeverPinned` writes some
  cell's row as a float, for instance `2.0` for `2` in a document of texts only (`OneStep.RealRowAccepted`). A list that
  says `1` for `true` passes as well (`TwoRisks.TruePassesForOne`, a PFMEA of two risks). `ClosureExact.SubmittedExactly`
  is what passes; `ValueKinds.PinnedIff` the condition among lists with integer coordinates: they are pinned exactly when
  no leaf of the document is a boolean, an integer or a float without fraction.
* Approvals are kept unique on exact text and sorted on normalized text (`src/qualityci/loader.py:102-111`). Two
  approvals whose roles differ in spelling only make the projection of any valid native Case depend on listing order
  (`Canonical.TiedApprovals`); `Canonical.CanonicalIff` is the condition. In Cases migrated from v0.1 two rows of one
  characteristic without process steps do so too (`src/qualityci/loader.py:865-875`, `Canonical.TiedRows`);
  `Canonical.MigratedIff` is the condition there.
* `apply_mutation` indexes documents once, writes its marker at the end and takes at most 10000 operations
  (`src/qualityci/loader.py:1082-1084`, `1112`), so two lists applied in turn need not end as their concatenation. Inputs:
  a first list that renames a document (`Composition.RenameDoesNotCompose`), one that makes the marker an object
  (`Composition.MarkerDoesNotCompose`), and two harmless lists that are too long together
  (`Composition.LongDoesNotCompose`). `Composition.ComposesIff` is the condition for all second lists that fit: after the
  first list the early index is the one its documents then give and the marker is no object; `Composition.Composes` reads
  it off the first list's operations. `Composition.EveryListIff` is the condition for all second lists, however long.
* The authenticity reason code can depend on record order although the state does not
  (`src/qualityci/authorization_authenticity.py:546-609`). Inputs: a revoked key beside an invalid signature
  (`Authenticity.ContradictionsInput`), a missing key beside one of unknown status (`Authenticity.PendingsInput`).
  `Authenticity.ReasonStableIff` is the condition.
* A request slot can be released twice: starting the thread can raise after the thread has begun, which takes an
  asynchronous exception, and then both the thread and the handler release (`src/qualityci/web_demo.py:858-867`). If the
  exception is outside `Exception` the serving loop ends with it. `RequestSlots.LateRaiseOverfills` is the input;
  `RequestSlots.ReleasedOnceIff` says that a request is released once exactly when its own start never raises late, and
  `RequestSlots.SlotsAddUpIff` that slots and requests in flight add up throughout exactly when none does.

## Conventions

* JSON is a datatype; printing followed by parsing is the identity. Numbers are reals with a tag that tells booleans,
  integers and floats apart.
* Digests are free terms of one datatype (lineage), so that different terms are different hashes there, or parameters
  (elsewhere), of which nothing is assumed but what a lemma states as a precondition.
* Text stripping, case folding, normalization, header normalization, UTF-8, float and timestamp reading and signature
  verification are parameters. A lemma that needs a property of one states it as a precondition.
* An exception is an empty result; the kinds of exceptions are told apart only where a property is about one of them.
* A source loop is a loop, a class with mutable fields is a class; each is proved against a function or predicate about
  its whole input, and the lemmas are about that.

`dafny verify dfyconfig.toml` checks everything.

## Model

| member | source | states |
|---|---|---|
| Ordering.SortForgetsOrder | src/qualityci/loader.py:102-180 | sorting by key gives one result for all listing orders when the key tells the members apart |
| Ordering.SortCanonicalIff | src/qualityci/loader.py:102-180 | a stable sort forgets listing order if and only if no two different members compare equal |
| Ordering.TextLeIff | src/qualityci/loader.py:102-180 | texts compare by code point: a prefix comes first, else the first character that differs decides |
| Ordering.KeyLeIff | src/qualityci/loader.py:102-180 | key tuples compare likewise, by the first text that differs |
| Json.PyEqSymmetric | src/qualityci/revision_artifacts.py:904-938 | Python equality of JSON values is symmetric |
| Json.PyEqTransitive | src/qualityci/revision_artifacts.py:904-938 | Python equality of JSON values is transitive across booleans, integers and floats |
| Json.PyEqIff | src/qualityci/revision_artifacts.py:904-938 | two values are equal exactly when they differ in nothing but whether a number is a boolean, an integer or a float |
| Json.LeafIff | src/qualityci/revision_artifacts.py:619-630 | the recursive leaf walk lists exactly the paths that lead to a scalar |
| Json.PathRoundTrip | src/qualityci/revision_artifacts.py:604-630 | scanning a written target gives back its path, so two paths are never written alike |
| Tables.MapTable | src/qualityci/case_builder.py:850-976 | yields the mapped table when one exists and fails only when none does: clean cells, distinct headers, every requested header, some data, rows in order |
| Tables.CleanApart | src/qualityci/case_builder.py:902-908 | accepted cells have pairwise distinct coordinates and locators |
| Tables.ChosenColumnsDiffer | src/qualityci/case_builder.py:917-949 | two canonical columns never sit over one grid column |
| Tables.MappedTableWellFormed | src/qualityci/case_builder.py:850-976 | rows ascend strictly, every cell lies in its row, columns of a row differ: the cell uniqueness provenance relies on |
| TableReadings.MappedIff | src/qualityci/case_builder.py:850-976 | read off the items alone: a table is mapped exactly when every item is evidence in a place of its own, headings are apart and found, and its rows are the ascending nonblank ones below the header with their cells unchanged |
| CellReadings.CellRead | src/qualityci/case_builder.py:1946-1979 | a cell is read exactly when it says something, a flag being `true` or `false` after case folding and a limit a number, and then as that flag, that number or the stripped text |
| CellReadings.MappableIff | src/qualityci/case_builder.py:1477-1732 | a table makes a document exactly when every mapped cell of every row can be read, no identifier repeats and an inspection names one pair of references |
| CellReadings.FieldsAreSaid | src/qualityci/case_builder.py:1477-1877 | the built fields are what the cells say: a risk is special exactly when its cell says `true`, a limit has its cell's number and is an integer exactly when that is integral, steps come in the order they are first said |
| CellReadings.FieldsFixed | src/qualityci/case_builder.py:1477-1877 | the cells leave no choice: no other fields are what they say |
| Roles.PathsDiffer | src/qualityci/case_builder.py:1477-1877 | two different leaves of a document are never given the same target |
| Provenance.ProvenanceList.Append | src/qualityci/case_builder.py:215-266 | accepts as the code does, appends or merges in place, and a refused entry changes nothing |
| Provenance.ProvenanceList.Merge | src/qualityci/case_builder.py:229-266 | a merged entry lists both cells; a repeated cell is refused only from the second merge on |
| Provenance.ProvenanceList.FinalizeAggregates | src/qualityci/case_builder.py:268-277 | every aggregate's contributors end in coordinate order, everything else unchanged |
| Provenance.AppendRegroups | src/qualityci/case_builder.py:215-266 | after any accepted run the list holds one entry per target, standing for that target's contributions |
| Provenance.JoinsIsAccepted | src/qualityci/case_builder.py:215-266 | equal values from a new cell are accepted by the list and by the plan |
| EvidencePlanning.EvidencePlan.Add | src/qualityci/case_builder.py:1143-1172 | refused exactly on another value or a repeated cell; otherwise the target gains that cell and nothing else changes |
| EvidencePlanning.EvidencePlan.AddDerived | src/qualityci/case_builder.py:1174-1193 | a locator is accepted exactly when its target has no role yet |
| EvidencePlanning.EvidencePlan.ExpectedMappings | src/qualityci/case_builder.py:1217-1262 | the expected list has one entry per planned target, in target order, and no other |
| EvidencePlanning.AddRegroups | src/qualityci/case_builder.py:1143-1172 | the plan's dictionary always groups the contributions so far by target |
| EvidencePlanning.PlannedIsFinalizedGroup | src/qualityci/case_builder.py:1217-1262 | for the same contributions the plan writes the entry the finalized list holds |
| Feeds.SameGroups | src/qualityci/case_builder.py:1418-1437 | taking inspection references after all rows or with each row groups the cells alike, order included |
| Feeds.OwnLeafGroup | src/qualityci/case_builder.py:1497-1688 | a risk's or characteristic's own leaf is fed by its row alone |
| Feeds.RowFeedJoins | src/qualityci/case_builder.py:1880-1908 | a row's contribution always agrees with what its target already has and comes from a new cell |
| Builder.BuildProcessFlow | src/qualityci/case_builder.py:1477-1494 | succeeds exactly on mappable tables; fields and recorded contributions are the table's |
| Builder.BuildPfmea | src/qualityci/case_builder.py:1497-1567 | the same for risks: unreadable rows and repeated failure modes are the only refusals |
| Builder.BuildCharacteristicDocument | src/qualityci/case_builder.py:1570-1652 | the same for control plans and SOPs: unreadable rows, repeated pairs and repeated controls are the only refusals |
| Builder.BuildInspectionRecord | src/qualityci/case_builder.py:1655-1688 | the same for inspection records, whose references must read alike in every row |
| Builder.BuildCharacteristic | src/qualityci/case_builder.py:1787-1877 | one characteristic row: its leaves are recorded in column order and its fields are the cells' values |
| PlanBuilder.PlanProcessFlow | src/qualityci/case_builder.py:1321-1328 | the plan takes a process flow exactly when the builder does, with the contributions in plan order |
| PlanBuilder.PlanPfmea | src/qualityci/case_builder.py:1329-1379 | the same for a PFMEA, with one locator per row |
| PlanBuilder.PlanCharacteristics | src/qualityci/case_builder.py:1380-1437 | the same for the three characteristic documents |
| PlanBuilder.PlanCharacteristicRow | src/qualityci/case_builder.py:1265-1311 | one row's leaves and locator are planned exactly when the row is readable |
| Agreement.BuildFields | src/qualityci/case_builder.py:1459-1474 | dispatch by document type keeps the builders' exact success condition |
| Agreement.RecordDerivedLocators | src/qualityci/case_builder.py:1911-1943 | never fails after a successful build: every anchor is found, no locator target is taken |
| Agreement.BuildDocument | src/qualityci/case_builder.py:786-801 | fields and the complete provenance, exactly on mappable tables |
| Agreement.BuildEvidence | src/qualityci/case_builder.py:1314-1456 | the complete expected list in target order, exactly on mappable tables |
| Agreement.PlanMeaning | src/qualityci/case_builder.py:1217-1262 | an entry is expected exactly when the filled plan lists it as a cell group or a row locator |
| Agreement.ListsAgree | src/qualityci/case_builder.py:786-801 | sorted by target, the provenance equals the expected list entry for entry |
| Agreement.DeriveTwice | src/qualityci/case_builder.py:786-1456 | from the raw cells on, builder and plan fail on the same tables; otherwise the sorted provenance is the expected list, contributors and their order included |
| Divergence.ListTakesIff | src/qualityci/case_builder.py:215-266 | the list takes a run of contributions exactly when each target's values agree and no cell repeats after the second |
| Divergence.PlanTakesIff | src/qualityci/case_builder.py:1143-1172 | the plan takes it exactly when each target's values are equal and no cell repeats |
| Divergence.DivergeExactly | src/qualityci/case_builder.py:232-253 | the plan's runs are the list's runs minus those with a disputed target |
| Divergence.FirstMergeRepeatsACell | src/qualityci/case_builder.py:232-253 | one cell twice for one leaf: the list merges it with itself, the plan refuses |
| Closure.IndexParserCells | src/qualityci/revision_artifacts.py:738-775 | accepts exactly distinct, bounded cells with the document's identity and returns their sources |
| Closure.IndexPlan | src/qualityci/revision_artifacts.py:777-805 | accepts exactly plans with distinct targets that use every parser cell and nothing else |
| Submitted.IndexMappings | src/qualityci/revision_artifacts.py:807-902 | accepts exactly lists of distinct targets whose entries each pass their own checks |
| Submitted.ComparePlan | src/qualityci/revision_artifacts.py:904-938 | accepts exactly when, reference identities aside, list and plan match both ways |
| Submitted.CheckLocators | src/qualityci/revision_artifacts.py:939-961 | accepts exactly when every locator equals its anchor's cell and every row beside it equals its own |
| Submitted.ValidateMappingClosure | src/qualityci/revision_artifacts.py:701-969 | with coordinates of any kind, returns the list in target order exactly when cells, plan, entries, leaves, plan comparison and anchors all close |
| ClosureMeaning.AcceptedMeans | src/qualityci/revision_artifacts.py:701-969 | for any parser evidence, the list is accepted exactly when it documents every scalar of the fields once: true values, the planned cells of the document's own file and no others, every parser cell used, locators of their anchors' cells, reference identities of the registry's documents |
| Submitted.EqualEntriesInterchange | src/qualityci/revision_artifacts.py:827-938 | an accepted list stays accepted when cell entries are exchanged for entries Python calls equal, values and coordinates alike |
| Submitted.AdmittedIff | src/qualityci/revision_artifacts.py:827-961 | accepted lists have cells at numbers equal to integers and locators at integers, and read back with integers they are closed; and conversely |
| Submitted.WrittenIff | src/qualityci/revision_artifacts.py:701-969 | a list written with integer coordinates is accepted exactly when it is closed |
| Submitted.NeverPinned | src/qualityci/revision_artifacts.py:881-913 | every accepted list has an accepted variant no builder writes, with a row number that is a float |
| Documents.FinalizeReferences | src/qualityci/case_builder.py:1734-1784 | refuses exactly references the registry does not resolve; otherwise overlays type and hash with one entry each |
| Documents.LeafStored | src/qualityci/case_builder.py:1477-1877 | each named leaf's value is found at its target in the finished fields |
| Documents.LeafNamed | src/qualityci/revision_artifacts.py:619-630 | every scalar of the finished fields is one of the named leaves |
| DocumentReadings.FlagsRead | src/qualityci/case_builder.py:1497-1567 | at `risks[i].special_characteristic` the finished fields hold whether row i's cell says `true` |
| DocumentReadings.LimitsRead | src/qualityci/case_builder.py:1787-1877 | at `characteristics[i].specification` they hold the numbers and the unit row i's cells give |
| DocumentReadings.ReferencesRead | src/qualityci/case_builder.py:1734-1784 | references are refused exactly when the registry does not hold both documents the cells name, with their types and SHA-256 hashes; otherwise they hold identity, type and hash |
| DocumentReadings.EntryCellsRead | src/qualityci/case_builder.py:1065-1082 | every cell an entry lists is named truly, place, text and header included, and its value is what its first cell says |
| DocumentReadings.OwnEntryRead | src/qualityci/case_builder.py:1880-1908 | each leaf of a risk or characteristic has an entry of its own that names its row's cell |
| DocumentReadings.EntriesWellMade | src/qualityci/case_builder.py:215-277 | an entry is one cell, or several in row order, or a locator, under its contract names |
| DocumentReadings.LocatorEntryRead | src/qualityci/case_builder.py:1911-1943 | each row's locator entry copies the locator of the row's anchor cell and names that cell and the anchor leaf |
| HonestClosure.ParserCells | src/qualityci/case_builder.py:1195-1215 | lists every mapped cell of every row once, and nothing else |
| HonestClosure.GroupAscends | src/qualityci/case_builder.py:1217-1262 | a leaf's contributors come in strictly ascending rows, so sorting them changes nothing |
| HonestClosure.HonestConsumption | src/qualityci/revision_artifacts.py:777-805 | the plan of a built document consumes exactly its parser cells |
| HonestClosure.HonestPlan | src/qualityci/revision_artifacts.py:777-805 | within the size limits, the plan of a built document passes the plan checks |
| ClosureTheorem.EntryLeaf | src/qualityci/revision_artifacts.py:827-829 | every expected entry documents a leaf and carries its value |
| ClosureTheorem.LeafEntry | src/qualityci/revision_artifacts.py:962-968 | every leaf of a built document has its expected entry |
| ClosureTheorem.HonestLeaves | src/qualityci/revision_artifacts.py:962-968 | targets of the full provenance are the scalar leaves of the document, both ways |
| ClosureTheorem.HonestAnchor | src/qualityci/revision_artifacts.py:939-961 | every built locator passes the anchor check |
| ClosureTheorem.HonestAccepted | src/qualityci/revision_artifacts.py:701-969 | within the size limits the check accepts what the builder produces |
| ClosureExact.OnePerTarget | src/qualityci/revision_artifacts.py:807-816 | the full provenance has one entry per target |
| ClosureExact.SubmittedExactly | src/qualityci/revision_artifacts.py:701-969 | within the size limits the accepted lists are exactly the full provenance in any order, whole entries up to Python equality, locators at integers: dropped, swapped or altered contributors are refused |
| ClosureExact.AcceptedExactly | src/qualityci/revision_artifacts.py:701-969 | the same among lists with integer coordinates: closed lists are the full provenance in any order, values up to Python equality |
| ClosureExact.BuildAndClose | src/qualityci/revision_artifacts.py:701-969 | from raw cells to verdict: unmapped and unresolved exactly when they should be, and the pipeline's own list is refused only for size |
| OneStep.OneStepAccepted | src/qualityci/revision_artifacts.py:701-969 | every one-step process flow with visible texts is honestly built and accepted, so the assumptions of the theorems above can be met |
| OneStep.RealRowAccepted | src/qualityci/revision_artifacts.py:881-913 | the list of a document of texts only is accepted with row 2.0 for 2 |
| Existence.ProvenanceExists | src/qualityci/case_builder.py:215-277 | every mappable table has a provenance list: one entry per target, contributors ordered, locators added |
| Existence.HonestExists | src/qualityci/case_builder.py:786-801 | every mappable table whose references resolve has an honest build with its full provenance, of bounded size |
| Existence.SourcesAccepted | src/qualityci/revision_artifacts.py:701-969 | up to 2499 rows that build is within the limits and accepted, so the theorems about honest builds are about every such table |
| ValueKinds.PinnedIff | src/qualityci/revision_artifacts.py:904-938 | among lists written with integer coordinates, acceptance pins the provenance itself if and only if no leaf is a boolean, an integer or a float without fraction |
| ValueKinds.Alter | src/qualityci/revision_artifacts.py:904-938 | at any such leaf the value can be exchanged for one of another kind and the list is still accepted |
| TwoRisks.TruePassesForOne | src/qualityci/revision_artifacts.py:827-938 | a two-risk PFMEA with an aggregate and row locators: the list that says integer one for true is accepted and is not the expected one |
| Fingerprint.NumberRoundTrip | src/qualityci/case_builder.py:2036-2043 | a number that fits its eight bytes is read back from them |
| Fingerprint.FrameTaken | src/qualityci/case_builder.py:2036-2043 | a written cell is read back off the front of the hashed bytes |
| Fingerprint.FramesInjective | src/qualityci/case_builder.py:2036-2043 | the hashed bytes decode in one way only |
| Fingerprint.LogicalTableFingerprint | src/qualityci/case_builder.py:1992-2043 | hashes the sorted, shifted, nonblank cells, and raises exactly when a coordinate is not positive or a number does not fit eight bytes |
| Fingerprint.ShiftedToOrigin | src/qualityci/case_builder.py:2020-2035 | the hashed grid keeps its shape and texts and starts at row 1 and column 1 |
| Fingerprint.SamePrintIff | src/qualityci/case_builder.py:1992-2043 | equal fingerprints if and only if the normalized, origin-shifted nonblank cells agree |
| Fingerprint.ReorderingKeepsPrint | src/qualityci/case_builder.py:1992-2043 | listing the cells in another order never changes the fingerprint |
| Fingerprint.BlanksKeepPrint | src/qualityci/case_builder.py:1992-2043 | adding cells that normalize to nothing never changes it |
| Fingerprint.MovingKeepsPrint | src/qualityci/case_builder.py:1992-2043 | moving the grid together with its header row never changes it |
| Publication.Disk.StageJsonOutput | src/qualityci/cli.py:737-756 | stages a new file beside the output, or leaves everything as it was |
| Publication.Disk.Promote | src/qualityci/cli.py:759-760 | the staged file replaces the output, or nothing happens, fault or not |
| Publication.ArtifactsAre | src/qualityci/cli.py:788-792 | the guarded artifacts are the database file, its journal, its write-ahead log and its shared-memory index beside it |
| Publication.SnapshotOutput | src/qualityci/cli.py:771-785 | success means a regular or absent output with a byte-equal backup |
| Publication.SnapshotDatabase | src/qualityci/cli.py:795-812 | success means a byte-equal backup of each existing artifact and nothing else disturbed |
| Publication.RestoreDatabase | src/qualityci/cli.py:815-824 | all four artifacts end as they were, whatever the store left, and no other path is touched |
| Publication.RestoreOutput | src/qualityci/cli.py:827-838 | the output ends as it was and no other path is touched |
| Publication.TryPublish | src/qualityci/cli.py:176-222 | whatever step fails, the state stays undoable; success publishes the output and the store's last state |
| Publication.Undo | src/qualityci/cli.py:223-235 | from any undoable state every path but the temporaries is as it was |
| Publication.Publish | src/qualityci/cli.py:122-235 | completes exactly when nothing faults, paths are regular and distinct, the gate passed and the store reads back its input; otherwise every file is as it was; completion leaves no temporary |
| ZipDirectory.TilingUnique | src/qualityci/ingestion.py:1756-1781 | a region is tiled by entries in one number only |
| ZipDirectory.WalkEntries | src/qualityci/ingestion.py:1756-1781 | the cursor loop ends and succeeds exactly when the declared number of entries tiles the region |
| ZipDirectory.PreflightZipDirectory | src/qualityci/ingestion.py:1738-1781 | accepts exactly buffers whose last end record in the window is consistent and whose directory is tiled without gap |
| ZipDirectory.EndRecordIs | src/qualityci/ingestion.py:1738-1755 | an end record is consistent exactly when its bytes say so: no other disk, one member count, no ZIP64 placeholder, the directory right before it, its comment right after |
| ZipDirectory.EntrySizeIs | src/qualityci/ingestion.py:1756-1781 | an entry takes 46 bytes and the three lengths at its offsets 28, 30 and 32 |
| Coordinates.NumberOfLabel | src/qualityci/ingestion.py:1856-1871 | reading a column's letters gives its number |
| Coordinates.LabelOfNumber | src/qualityci/ingestion.py:1856-1871 | writing a letter string's number gives the string |
| Coordinates.ThreeLetters | src/qualityci/ingestion.py:1832-1841 | columns within bounds need at most three letters, so the length test refuses nothing more |
| Coordinates.KnownColumns | src/qualityci/ingestion.py:1867-1871 | A is 1, Z is 26, AA is 27 and XFD is the last column |
| Coordinates.SheetNameIff | src/qualityci/ingestion.py:1823-1829 | a sheet name is valid exactly when it has 1 to 31 plain characters and no quote at either end |
| Coordinates.ColumnLabel | src/qualityci/ingestion.py:1856-1864 | raises exactly on nonpositive numbers; otherwise writes the bijective base-26 digits |
| Coordinates.ColumnNumber | src/qualityci/ingestion.py:1867-1871 | the accumulated value is the bijective base-26 number of the letters, of either case |
| Coordinates.ValidateXlsxCoordinate | src/qualityci/ingestion.py:1832-1841 | accepts exactly letters of either case followed by a row number, within bounds |
| Coordinates.CoordinatesDiffer | src/qualityci/ingestion.py:1832-1853 | two accepted coordinates that name one grid cell are equal |
| Coordinates.LocatorInjective | src/qualityci/ingestion.py:1844-1848 | two cells share a locator only when they are one cell of one sheet, quoting included |
| Coordinates.FreshLocator | src/qualityci/ingestion.py:1118-1138 | a new coordinate of a new sheet has a new locator: the duplicate-locator error is unreachable |
| Coordinates.ParseSheets | src/qualityci/ingestion.py:1084-1163 | upper-cases each reference and refuses exactly bad or repeated names, bad or repeated coordinates, overlong texts and too many items; otherwise lists one item per cell |
| Coordinates.ItemsApart | src/qualityci/ingestion.py:1084-1163 | no two items share a locator, or a coordinate or grid position of one sheet |
| Canonical.CanonicalIff | src/qualityci/loader.py:76-180 | a validated native Case's projection forgets listing order if and only if its approvals stay apart after normalization |
| Canonical.TiedApprovals | src/qualityci/loader.py:102-111 | in every valid native Case two approvals whose roles differ in spelling only are valid and make the projection depend on their order |
| Canonical.MigratedIff | src/qualityci/loader.py:76-180 | of a Case migrated from v0.1, if and only if moreover no two different rows of one document tie under their sort key |
| Canonical.TiedRows | src/qualityci/loader.py:865-875 | two rows of one characteristic without process steps pass the checks on a migrated Case and make its projection depend on their order |
| Canonical.ProjectionIdempotent | src/qualityci/loader.py:76-180 | projecting twice is projecting once, for every Case |
| Canonical.ProjectionSame | src/qualityci/loader.py:76-180 | the projection is the same Case listed in another order: nothing is lost or changed |
| Canonical.ProjectionOrdered | src/qualityci/loader.py:76-180 | its lists are in the order of their keys |
| Canonical.EqualProjectionsSame | src/qualityci/loader.py:76-180 | Cases of one projection are one Case up to listing order |
| Canonical.ProjectionIff | src/qualityci/loader.py:76-180 | of a validated Case whose approvals stay apart, projections are equal if and only if the Cases differ in listing order only |
| Canonical.KeysSay | src/qualityci/loader.py:628-952 | uniqueness compares normalized step and characteristic, evidence, failure and control identifiers, and an approval's exact role and revision |
| Canonical.SubjectIgnoresDownstream | src/qualityci/validation_evidence.py:154-191 | the validation subject ignores approvals, recorded evidence, results and the active mutation |
| Canonical.SubjectForgetsOrder | src/qualityci/validation_evidence.py:154-191 | the subject of a validated Case forgets every listing order, approvals included |
| Canonical.SubjectIff | src/qualityci/validation_evidence.py:154-191 | two Cases have one validation subject if and only if they differ in listing order, approvals, recorded evidence, results and the active mutation only; a change of any document counts |
| CaseLists.CanonicalCaseProjection | src/qualityci/loader.py:76-180 | the in-place sorts work on fresh copies: the caller's lists are not modified and the result is the same Case in canonical order |
| CaseLists.ValidateUniqueness | src/qualityci/loader.py:628-952 | the growing-set loops accept exactly native Cases with unique keys, approvals unique on exact text, control identifiers unique in control plans |
| CaseLists.CanonicalHash | src/qualityci/loader.py:183-202 | raises exactly on Cases with repeated keys, otherwise hashes the projection, which `Canonical.ProjectionIff` shows to be the Case up to listing order |
| CaseLists.ValidationSubject | src/qualityci/validation_evidence.py:154-191 | computed by popping and sorting a projection in place, without touching the caller's Case; `Canonical.SubjectIff` says what it tells apart |
| Mutations.EditTouchesRoot | src/qualityci/loader.py:1061-1074 | an edit changes no member its path's root does not name |
| Mutations.ApplyMutation | src/qualityci/loader.py:1077-1113 | the loop through an index made once has the effect of the step function on the whole list |
| Effects.EditRaises | src/qualityci/loader.py:1061-1074 | an edit raises exactly when its walk meets a missing member or a value that is no object, or a delete finds nothing |
| Effects.EditLeaves | src/qualityci/loader.py:1061-1074 | after a set the value is at the path, at every depth; after a delete nothing is |
| Effects.EditKeeps | src/qualityci/loader.py:1061-1074 | every path that does not run through the edited one reads as before |
| Effects.OperationSays | src/qualityci/loader.py:1085-1106 | which operations are understood, and the place and value each names |
| Effects.MutationWrites | src/qualityci/loader.py:1077-1113 | after a whole mutation each operation's value is read at its place in the event, the Case or the document, unless a later operation or the marker reaches that place |
| Effects.MutationKeeps | src/qualityci/loader.py:1077-1113 | a place no operation touches reads as before |
| Effects.MutationRaises | src/qualityci/loader.py:1077-1113 | a mutation is refused exactly on a bad identifier or list, a Case that cannot be indexed, or a first operation that cannot be carried out where it stands |
| Effects.BeginRaises | src/qualityci/loader.py:1084 | the index cannot be made exactly when the document list is missing or holds an item without a text identifier |
| Mutations.StepKeepsCurrent | src/qualityci/loader.py:1084-1110 | a document edit that keeps the identifier keeps the early index right |
| Composition.ComposesIff | src/qualityci/loader.py:1077-1113 | a list of fewer than 10000 operations composes with every second list that fits the bound if and only if, after it, the early index is the one the documents then give and the marker is no object |
| Composition.ComposesBesideMarker | src/qualityci/loader.py:1077-1113 | with every fitting list of document operations, or every fitting list that does not edit inside the marker, if and only if the index is right |
| Composition.Composes | src/qualityci/loader.py:1077-1113 | any operations on the event, the documents and the Case that spare identifiers, the document list and the marker compose with every second list that fits |
| Composition.RenameDoesNotCompose | src/qualityci/loader.py:1084-1110 | after a rename B works on the result of A but the concatenation fails |
| Composition.MarkerDoesNotCompose | src/qualityci/loader.py:1084-1112 | after A makes the marker an object the concatenation works but B on the result of A fails |
| Composition.LongDoesNotCompose | src/qualityci/loader.py:1082 | two harmless lists within the bound but not together apply one after the other to every Case, their concatenation to none |
| Composition.EveryListIff | src/qualityci/loader.py:1077-1113 | over all second lists, only a list that never applies composes with every one, or an empty list before a Case whose marker is no object |
| MutationMaterial.DecodeMutation | src/qualityci/case_source_assurance.py:846-916 | accepts exactly well-formed mutations and records each operation with its default target and value presence |
| MutationMaterial.DecodableIff | src/qualityci/case_source_assurance.py:846-916 | an operation is accepted exactly when it is a set with a value or a delete without one, on a named document, the event or the Case, with clean texts and no further member |
| MutationMaterial.DecodesIff | src/qualityci/case_source_assurance.py:846-916 | a mutation is accepted exactly with a clean identifier and 1 to 10000 such operations |
| MutationMaterial.MutationForApplication | src/qualityci/case_source_assurance.py:919-932 | rebuilds one operation per recorded one |
| MutationMaterial.ProjectionKeepsEffect | src/qualityci/case_source_assurance.py:846-932 | every accepted mutation, recorded and rebuilt, acts on every Case like the raw one |
| MutationMaterial.ApplyBothWays | src/qualityci/case_source_assurance.py:846-932 | decoding, rebuilding and applying ends as applying the raw mutation does |
| Resolution.ValidateResolutionOperationPaths | src/qualityci/revision_artifacts.py:572-601 | accepts exactly nonempty lists of fact operations in which identifiers that normalize alike are spelled alike, and returns the touched identifiers by normalized identity |
| Resolution.FactOperationIff | src/qualityci/revision_artifacts.py:572-601 | an operation is accepted exactly when it names a document and one of the six facts a resolution may change |
| Resolution.AcceptedCompose | src/qualityci/revision_artifacts.py:572-601 | accepted operation lists that fit the bound together compose |
| Resolution.RunFrame | src/qualityci/loader.py:1077-1113 | fact operations keep length, order, identifiers and every untouched document |
| Resolution.ReplaceDocuments | src/qualityci/revision_artifacts.py:315-343 | replaces in place exactly when each rebuilt document states the edited facts |
| Resolution.ResolveCase | src/qualityci/revision_artifacts.py:270-357 | exactly resolvable Cases resolve; only touched documents and the two markers change, each touched document is its rebuilt form, and the risk error is unreachable |
| ResolvedFacts.FactsCompared | src/qualityci/revision_artifacts.py:315-346 | a rebuilt document is compared on its identifier, type, revision, status, owner, revision date and fields, and on nothing else |
| ResolvedFacts.ResolvedHolds | src/qualityci/revision_artifacts.py:270-357 | in the resolved Case every approved set that no later operation on its document overlaps reads as approved, and every approved delete leaves nothing there |
| ResolvedFacts.ResolvedKeeps | src/qualityci/revision_artifacts.py:270-357 | every part of the facts that no operation reaches reads as it was before |
| Lineage.Bind | src/qualityci/case_source_assurance.py:749-843 | a valid root Case is bound to a continuous context with an empty history |
| Lineage.DeriveMutation | src/qualityci/case_source_assurance.py:1111-1188 | derives exactly when the mutation decodes, applies and leads to a valid Case; one sound entry is added and the continuity errors are unreachable |
| Lineage.ProjectResolution | src/qualityci/case_source_assurance.py:1010-1059 | accepts exactly raw resolutions of exact shape and records each operation |
| Lineage.ProjectableIff | src/qualityci/case_source_assurance.py:1010-1059 | a resolution is accepted exactly with its four members, clean texts and at least one set on a named document, spelled with four members |
| Lineage.DeriveNativeReplay | src/qualityci/case_source_assurance.py:1191-1309 | derives exactly when material, artifacts and Case fit and the resolved Case is valid; one entry is added and the held Case is the resolution |
| Lineage.RunHistory | src/qualityci/case_source_assurance.py:1111-1309 | every sequence of derivations keeps the chain linked, one entry each, and stops only at an operation itself at fault |
| Lineage.SameHashSameHistory | src/qualityci/case_source_assurance.py:354-426 | equal last lineage hashes force equal histories, roots and bindings |
| Lineage.TerminalHashFixesContext | src/qualityci/case_source_assurance.py:531-563 | equal terminal hashes also force the held Cases to have one projection |
| Relations.LookupFinds | src/qualityci/rules.py:152-161 | the characteristic index finds a row exactly when a scan does |
| Relations.LookupUnique | src/qualityci/rules.py:152-161 | in validated rows it is the only one |
| Relations.GroupFinds | src/qualityci/rules.py:164-175 | the risk groups hold exactly the rows a scan finds |
| Relations.IndexHalves | src/qualityci/rules.py:196-209 | each bucket lists exactly the bound rows with that half |
| Relations.Candidates | src/qualityci/rules.py:178-193 | at most three distinct candidates, and none exactly when no row shares a half, so the cap decides nothing |
| RelationRules.CheckScope | src/qualityci/rules.py:139-149 | complete exactly when some link exists and every affected characteristic is linked |
| RelationRules.LookUp | src/qualityci/rules.py:420-470 | indexed limits and misbinding of a pair equal the scan's |
| RelationRules.LimitsIff | src/qualityci/rules.py:245-262 | a row gives limits exactly when its specification has a target, a minimum and a maximum in order and a unit that is not blank, and then those |
| RelationRules.UnboundIff | src/qualityci/rules.py:212-242 | a row is legacy-unbound exactly when its step, or in a control plan its control, is missing or empty |
| RelationRules.ControlledIff | src/qualityci/rules.py:510-633 | a row controls exactly when method, frequency and reaction plan all say something |
| RelationRules.RuleProcessCoverage | src/qualityci/rules.py:265-387 | R001's status equals a scan of steps, links and rows |
| RelationRules.RuleSpecConsistency | src/qualityci/rules.py:390-507 | R002's status equals a scan of links and rows |
| RelationRules.SpecificationPasses | src/qualityci/rules.py:390-507 | R002 passes if and only if the scope is complete, no row is legacy-unbound and each pair has one ordered equal specification in all three documents |
| RelationRules.RuleSpecialCharacteristicControl | src/qualityci/rules.py:510-633 | R003's status equals a scan of links, risks and controls |
| RelationRules.LinkOrderIrrelevant | src/qualityci/rules.py:265-633 | link order and repetition change no status of R001, R002 or R003 |
| Migration.MigrateReferences | src/qualityci/loader.py:317-364 | raises exactly on a reference that is not revision-only or a document member that cannot be looped over; otherwise distrusts references, marks the Case and changes nothing else |
| MigrationReadings.RecordMigratedIff | src/qualityci/loader.py:317-364 | an inspection record is migrated exactly when its references are text revisions under nonblank roles, to itself with the contract version and the references, whole, under one untrusted key |
| MigrationReadings.RelationshipsMigrated | src/qualityci/loader.py:398-473 | a v0.1 event gets one link exactly when it has one step and one characteristic, otherwise the Case says that the link is ambiguous; nothing else changes |
| Migration.Migrate | src/qualityci/loader.py:398-473 | runs the version chain from the Case's own version, with chained markers |
| Migration.PrepareCase | src/qualityci/loader.py:1116-1119 | returns the migrated Case exactly when the validator accepts it |
| Migration.PrepareTwice | src/qualityci/loader.py:1116-1119 | preparing a prepared Case changes nothing |
| Migration.MigratedReferencesUnverifiable | src/qualityci/rules.py:713-838 | under every sealed context R005 is UNVERIFIABLE on a Case migrated from v0.2 |
| MigrationReadings.ReferenceStatusIs | src/qualityci/rules.py:713-838 | R005 decides only with sealed facts and both references, and passes when there is no third and the facts match |
| MigrationReadings.DocumentByTypeIff | src/qualityci/loader.py:1129-1134 | a rule reads the document of a type that is the only approved one |
| MigrationReadings.RowShows | src/qualityci/rules.py:152-175 | a rule reads a row's own members, text by text |
| Migration.MigratedCoverageNeverPasses | src/qualityci/rules.py:265-387 | R001 never passes on a Case migrated from v0.1, whatever its impact plan |
| Migration.Overall | src/qualityci/engine.py:116-121 | PASS exactly when all pass, CONTRADICTED exactly when one contradicts |
| Migration.EvaluateMigrated | src/qualityci/engine.py:116-186 | no v0.1 or v0.2 input evaluates to overall PASS, whatever the other rules say |
| ValidationEvidence.RuleValidationEvidence | src/qualityci/rules.py:841-942 | passes if and only if reports and requirements match one to one and all bind; unverifiable exactly when something required is missing |
| ValidationEvidence.MatchingIsBijective | src/qualityci/rules.py:841-942 | one-to-one means equally many, no report answering two requirements |
| EvidenceBundle.ValidateBundle | src/qualityci/validation_evidence.py:428-487 | accepts exactly bundles whose manifest is in canonical order, names nothing twice after normalization and lists the members, each once |
| EvidenceBundle.BundleIff | src/qualityci/validation_evidence.py:428-487 | the same, spelled out: entries by normalized identifier, no source, identifier or file name twice, an entry for each member and a member for each entry |
| EvidenceBundle.PrepareSet | src/qualityci/validation_evidence.py:581-671 | prepares exactly accepted bundles of the expected phase whose reports are all readable; the hashed payload is the manifest and the reports in identifier order |
| EvidenceBundle.SetHolds | src/qualityci/validation_evidence.py:581-671 | the set reports every member once, by identifier, with its claims, source, file name and byte hash, for its subject, scope, phase and manifest |
| EvidenceBundle.SameSetIff | src/qualityci/validation_evidence.py:581-671 | two bundles have one payload if and only if members, in any order, phase, subject and scope agree |
| ValidationRun.ScopeForgetsOrder | src/qualityci/validation_evidence.py:118-151 | the scope, sorted by plain text where the validator compares normalized text, forgets every listing order of a valid Case |
| ValidationRun.SubjectFixesScope | src/qualityci/validation_evidence.py:118-191 | Cases of one subject have one scope, so the scope digest tells nothing apart that the subject hash does not |
| ValidationRun.ScopeIff | src/qualityci/validation_evidence.py:118-151 | two Cases have one scope exactly when identifiers, revision, type, risk level and version agree and steps, characteristics, links and plan agree up to order |
| ValidationRun.ServesSays | src/qualityci/rules.py:841-942 | reports serve a Case exactly when each requirement has its one report: passed, on this event and revision, under this scope and subject, of the required kind, claim and issuer, performed and issued inside the validity |
| ValidationRun.EvaluateSourceRooted | src/qualityci/engine.py:301-346 | a context prepared for another Case, scope or phase is refused; R006 then passes exactly when the reports serve this Case, and each of them names it |
| ValidationRun.EvaluateBundle | src/qualityci/engine.py:256-298 | from a raw bundle to the verdict: only a bundle that cannot be prepared is refused, so the guard never fires on its own context |
| ValidationRun.ServesExactly | src/qualityci/rules.py:841-942 | reports that pass for one Case pass for another if and only if the Cases differ in listing order, approvals, recorded evidence, results and the active mutation only, unless their subject hashes collide |
| ValidationRun.FitsExactly | src/qualityci/engine.py:328-338 | a context prepared for one Case fits another under the same condition |
| ValidationRun.ServesThroughReordering | src/qualityci/validation_evidence.py:154-191 | reordering, approving or recording evidence never invalidates the reports |
| Authenticity.JudgeRecords | src/qualityci/authorization_authenticity.py:546-609 | the early-return loop gives the order-free state and the reason; PASS means every record has an active capable key, nested windows and a valid signature |
| Authenticity.JudgedExactly | src/qualityci/authorization_authenticity.py:546-609 | each record is judged by the one reason that holds of it: wrong member or domain, no key, revoked, unknown status, incapable, out of window, bad signature |
| Authenticity.StateIff | src/qualityci/authorization_authenticity.py:546-609 | the set is contradicted exactly when the roles are not the required ones or a record is refuted, and passes exactly when the roles are right and every record is authentic |
| Authenticity.StateForgetsOrder | src/qualityci/authorization_authenticity.py:546-609 | the state does not depend on record order |
| Authenticity.SetHashForgetsOrder | src/qualityci/authorization_records.py:687-711 | neither does the record-set hash |
| Authenticity.ReasonStableIff | src/qualityci/authorization_authenticity.py:546-609 | the reason code is independent of record order if and only if the deciding records share one reason |
| Authenticity.ContradictionsDisagree | src/qualityci/authorization_authenticity.py:546-609 | two records contradicting for different reasons make the reason depend on order |
| Authenticity.PendingsDisagree | src/qualityci/authorization_authenticity.py:546-609 | so do two pending ones when none contradicts |
| Authenticity.ContradictionsInput | src/qualityci/authorization_authenticity.py:546-609 | a revoked key and an invalid signature: the two listings give two reasons |
| Authenticity.PendingsInput | src/qualityci/authorization_authenticity.py:546-609 | a missing key and a key of unknown status: the two listings give two reasons |
| ApprovalGate.ValidateApprovalAssertions | src/qualityci/approval_subject.py:441-509 | accepts exactly shaped assertions that each join a record, with roles, approvals and hashes once and exactly the required roles; returns the sorted hashes |
| ApprovalGate.RequireAuthenticatedAssertionRecords | src/qualityci/authorization_authenticity.py:612-656 | accepts exactly when the state is PASS and assertions match the authenticated records without remainder |
| ApprovalGate.GatesAgree | src/qualityci/authorization_authenticity.py:612-656 | when both gates accept, assertions, required roles and records are in bijection and key start, record start, record issue, assertion issue, record end, key end come in that order |
| ApprovalGate.ApprovedIff | src/qualityci/approval_subject.py:441-509 | given the records' claims, the first gate asks exactly for well-formed assertions for this subject, each signed by a record of the subject's purpose and scope, with every required role once |
| ApprovalGate.ApprovalForgetsOrder | src/qualityci/approval_subject.py:441-509 | neither acceptance nor the returned hashes depend on the order of the assertions |
| ApprovalGate.Admit | src/qualityci/web_demo.py:302-316 | records judged, assertions joined and matched: accepted exactly when roles are as required, every record is authentic, the records sign the assertions and each record has its assertion; then they are in bijection |
| RequestSlots.EveryRunAccounted | src/qualityci/web_demo.py:847-867 | in every interleaving free slots and requests in flight make the maximum and each admitted request is in flight or was released once |
| RequestSlots.RejectedTakesNoSlot | src/qualityci/web_demo.py:847-857 | a connection is rejected exactly when the maximum is in flight, and then changes no slot |
| RequestSlots.QuietMeansAllReturned | src/qualityci/web_demo.py:847-867 | all slots are free exactly when nothing is in flight, and then every admitted request was released exactly once |
| RequestSlots.EveryRunBalanced | src/qualityci/web_demo.py:858-867 | with starts that raise after launching, releases made, refused and owed are the admissions plus the late raises, in every interleaving |
| RequestSlots.EveryRequestCounted | src/qualityci/web_demo.py:858-867 | the same for each request: its releases, made, refused and owed, are one plus the late raises of its own start |
| RequestSlots.ReleasedOnceIff | src/qualityci/web_demo.py:858-867 | in a run that ends with nothing owed a request is released once if and only if its start never raised late, and all are if and only if none did |
| RequestSlots.SlotsAddUpIff | src/qualityci/web_demo.py:858-867 | slots and requests in flight make the maximum in every state of a run if and only if no start raises late |
| RequestSlots.LateRaiseOverfills | src/qualityci/web_demo.py:858-867 | one late raise lets two requests run on one slot |
| RequestSlots.DemoServer.Serve | src/qualityci/web_demo.py:847-867 | the fields follow every schedule, and never more than the maximum run |
| RequestSlots.Drain | src/qualityci/web_demo.py:869-905 | ends at the first round that cannot go on, having read at most 64 KiB, and reads nothing when sending failed |
| RequestSlots.SteadyPeerDrained | src/qualityci/web_demo.py:892-905 | a peer that keeps sending within the deadline is read to the full budget in eight rounds |

## Left out

- Migration.MigrateReferences: the marker's document identifiers and reason are not represented.
- Migration.Migrate: the markers' free-text and list members (reason, scope, document and evidence identifiers) are not represented.
- Migration.MigratedReferencesUnverifiable: the comparison of a native reference with a sealed context is one abstract predicate, because a migrated Case never reaches it.
- Lineage.DeriveNativeReplay: hashes bound by the material beyond the artifact and reference sets travel as an opaque list; exact-type and seal checks are not represented.
- Publication.Disk.StageJsonOutput: parent directories it creates are not represented.
- Publication.Publish: path resolution, created parent directories and file metadata; restoring and cleaning steps are taken not to fault, and the store to touch only its four artifacts and to make no directories.
- Submitted.ValidateMappingClosure: entry dictionaries with missing or further members, and malformed target texts; targets are structured paths, which the round trip of written paths justifies.
- Coordinates.ParseSheets: XML reading; it starts from located sheets with cells and texts. Upper-casing is a parameter.
- CaseLists.ValidateUniqueness: the field-shape checks of the validator; only its uniqueness checks on native Cases are modelled as loops.
- CaseLists.CanonicalHash: a Case is valid here when its keys are unique; field shapes are not checked.
- CaseLists.CanonicalCaseProjection: documents are values here, so aliasing is modelled for the event's lists only.
- CaseLists.ValidationSubject: likewise; the digest of the result is left to its callers.
- Canonical.MigratedIff: a row whose process step is null, on which the projection raises, counts as one without a process step.
- Mutations.ReadOperation: a document identifier that is no text is refused; the code would find a number among numeric identifiers, which the validator refuses.
- Mutations.ApplyMutation: nested dictionaries are edited by value; two operations sharing one value object are not told apart from equal values.
- Provenance.ProvenanceList.Append: the dictionary's second reference to an entry is an index into the list.
- ApprovalGate.ValidateApprovalAssertions: exact key sets, versions and digest spellings of an assertion.
- Authenticity.JudgeRecords: the snapshot checks before the record loop; key parsing and signature verification are parameters.
- EvidenceBundle.ValidateBundle: manifest keys, versions, exact text and file name shapes; canonical bytes are read as sorted order.
- EvidenceBundle.PrepareSet: reading and checking one member's bytes is a parameter.
- ValidationRun.ScopeForgetsOrder: a link list that is null, which the digest cannot sort, is not told apart from an absent one.
- ValidationRun.EvaluateSourceRooted: of the evaluation only R006 is run; seals and the identity of the Case object are taken as given.
- Divergence.DivergeExactly: numbers are reals, so the plan telling 0.0 from -0.0 is not represented; no table yields -0.0.
- Agreement.BuildDocument: cell values are read before a row is recorded; an error discards the list either way.
- Fingerprint.LogicalTableFingerprint: the digest is a parameter; equal fingerprints mean equal cells when it is injective.
- R004 and R007, finding texts, evidence excerpts and severities: statuses are modelled, their wording is not.
- CSV, DOCX and PDF extraction, sniffing and XML: library parsing without visible semantics.
- The audit store and the workflow engine: the store is a step that may change only its four artifacts.
- Operating-system file opening, link and handle checks: foreign calls.
- User interface, HTTP handling, benchmark counters and the fixed demo trace: no property beyond a single body.
