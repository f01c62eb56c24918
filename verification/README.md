# Eager loading, bulk creation and the audit gate: a model with proofs

The project models three parts of the repository and proves what they promise. All of it is checked by
`dafny verify dfyconfig.toml`; no part of the original program was executed.

1. **Eager loading** (`backend/ent/account_query.go`, `backend/ent/accountgroup_query.go`, row decoding in
   `backend/ent/account.go`). Query builders are classes whose methods update their fields, nodes are objects whose
   `Edges` the loaders assign, and every loader is a method with the loops and index maps of the source. Each method
   is proved against the batched specification in `EagerSpec`, and the specification against a naive join that
   serves every node on its own (`NaiveJoin`). A store is five finite tables; a query filters, sorts stably and
   pages the rows of one table. `AccountsDenote(S, nodes, trees)` says that objects in S stand for value trees.
2. **Bulk creation** (`AccountCreateBulk.Save`, `defaults` and `check` in `backend/ent/account_create.go`).
   `BulkCreate` has the mutator chain on objects and arrays; `MutatorChain` is the control flow as a function from
   hooks, check results and the answer of the store (a *plan*) to a trace of events. A hook may pass on the mutation it has
   received, another one or a foreign one, reject, or answer without calling the next mutator, and afterwards keep,
   replace or recover the result.
3. **The audit-exception gate** (`tools/check_pnpm_audit_exceptions.py`). The parser, the generator over both report
   shapes and the verdict are methods with the loops of the script, each proved against a specification.

| Module | Content |
|---|---|
| Lists, Rows | order-preserving list operations; tables, selections and the rows a query returns |
| Entities, Queries, Editing | nodes, scanning and assigning rows; query builders, `Clone`, builder calls along a path of edges |
| EagerSpec, GroupJoins | the batched specification, its errors and panics, and the query tree after a run |
| Distribution, Loaders, NodeDistribution, EagerLoading | the loaders and `sqlAll`, on the heap |
| NaiveJoin, Denotation, EagerTheorems, Agreement | the naive join, object graphs, and what a caller of `All` gets |
| Selections, NodeFields, EdgeContents | rows, fields and edges in terms of cells: counts, order, pages, chosen fields |
| Routes, Transparency, Rerun, Paging, Cloning | properties that span edges, column lists, runs, pages and clones |
| AccountChecks, MutatorChain, BulkCreate | default values and checks, the protocol of a save, the save on the heap |
| ExceptionParser, AuditReport, AuditGate | the exceptions file, the audit report, the verdict |

## Assumptions

- The store honours filters, sorts stably, and answers the same query with the same rows within one run; account and
  group ids are distinct; join rows have a group id; `account.Columns` has the key columns, and `group.Columns` has the id in front
  (`ValidStore`, `WellTyped`, `LeadsWithId`). The join behind `loadGroups` lists its rows group by group;
  `Agreement.GatherExactly` covers its distribution for rows in any order.
- Cells have the type of their column, and the JSON documents of stored accounts decode (`TypedRow`).
  `Entities.ScanThenAssign` says exactly when a document does not.
- Clocks, default functions, validators, the batch insert, `str`, `lower` and `date.fromisoformat` are parameters.

## Findings

Properties that the code does not have without a condition. Each row gives an input that fails and the exact
condition, proved in both directions by the members in the last column.

| Property | Fails for | Holds exactly if | Proved by |
|---|---|---|---|
| A subquery loads for each node what it would load for that node alone | `WithUsageLogs` with `Limit(1)`, two accounts with one log each: one of them gets none | the subquery has neither a positive limit nor a positive offset | `Paging.LogsIffUnpaged`, `ChildrenIffUnpaged`, `JoinsIffUnpaged`, `EntitiesIffUnpaged`, `AccountsIffUnpaged`, `GroupsIffUnpaged` |
| A query object can run again | one account in one group, `WithGroups`, run twice: `values[1].(*sql.NullInt64)` panics, as the first run has left its join, and with it a second `account_id` column, in the stored subquery | no groups query of the tree joins a row once more; without an offset, that is: none joined a row before | `Rerun.SecondRun`, `Rerun.QuietFromStart`, `GroupJoins.JoinPanicsIff`; input: `Rerun.SecondRunCanPanic` |
| A query object that has run follows a changed store | an account that is new in the second run, and has a usage log: it gets none, as the first run has left its ids in the subquery | the accounts that are new to it have no usage log (stated for usage logs; every subquery is confined alike) | `Rerun.StaleLogsIff`, `Rerun.RunConfines` |
| A `Save` that succeeds has completed every builder | a hook that answers without calling the next mutator, or turns its failure into a success | no hook masks a failure (`MutatorChain.Masks`, decided by the hooks alone) | `MutatorChain.SuccessIsHonestIff`, `BulkCreate.SuccessfulSave` |
| The completed builders form a suffix of the list | such a hook on a builder behind another builder | nothing can complete on top of a masked failure (`MutatorChain.Breaks`) | `MutatorChain.DoneIsSuffixIff` |
| Every inserted row has passed its check | a hook that passes on a mutation of no builder: `check` looks at the builder's own, and the row is made of the other | the hooks hold every batch back, or every builder ends on a mutation that some builder of the save owns; a builder ends on its own exactly if no hook redirects, or the last that does names it | `BulkCreate.InsertedRowsPassIff`, `BulkCreate.OwnMutationIff`; input: `BulkCreate.SaveUnchecked` |
| A field ends as the last non-NULL value of its column | `credentials` selected twice with `{"a":1}` and `{"b":2}`: both entries stay, as `json.Unmarshal` merges into the map | for a scalar column other than the id: always; for a JSON column: the last document, if it is an object, has every member that the value before and the earlier documents leave | `Entities.ScalarAssigned`, `Entities.JsonReplacedIff`; input: `Entities.RepeatedColumnMerges` |
| The gate returns a verdict | an item of `via` whose only title is a numeric `source`: `"; ".join` raises | the file parses, all titles are strings, and no severity is a non-zero number | `AuditGate.Run`, `ExceptionParser.ParseFailsIff`; input: `AuditReport.NumericSourceRaises` |
| A list marker starts a new exception | a dash on a line of its own, as YAML allows: the fields below it overwrite those of the exception before it | text follows the dash on its line | `ExceptionParser.MarkerEndsIff`; input: `ExceptionParser.LoneDashMerges` |
| A clone has "all associated steps" (the comment at account_query.go:386) | a query with `ForUpdate`: `modifiers` is not copied | no query of the tree, at any depth, has a modifier (modifiers never change what is loaded) | `Cloning.CloneIsSameIff`, `Cloning.CloneLoadsAlike`; input: `Cloning.LockThenClone` |

## Model

| member | source | states |
|---|---|---|
| `EagerTheorems.All` | backend/ent/account_query.go:550-625 | Running any tree of With queries without paging below the root yields objects that stand for the naive per-node join of every selected row. Node i has exactly the chosen fields of row i that hold a value: every column without a selection, else the id, the selected fields and the keys of requested edges. With one order option the ranks of the rows never fall. The run succeeds exactly if every query that it issues selects columns of its table, and else names the first field that is not one |
| `EagerTheorems.IssuedIff` | backend/ent/account_query.go:524-549 | A tree that has not run before runs without error exactly if every query that it issues, in the order of the loaders, selects columns of its table; else the error names the first unknown field of the first query that has one |
| `EagerLoading.AccountsAll` | backend/ent/account_query.go:550-625 | For any tree, paged or not and run before or not: the nodes stand for the batched graph, the outcome is the first error or panic in the order of the loaders, and the query tree is left as `AfterEdges` says, on its old footprint |
| `EagerTheorems.AnyRun` | backend/ent/account_query.go:550-844 | Any run of any tree, paged or not: no "unexpected foreign-key" or "foreign-key is nil" error, only unknown fields, and a panic only if a groups query has run before; the nodes of a successful run have exactly the chosen fields of their rows |
| `EagerTheorems.JoinRowsCopy` | backend/ent/accountgroup_query.go:456-467 | Join rows have exactly the chosen fields of their rows: every column, else the selected ones and the keys of requested edges |
| `EagerTheorems.EntitiesCopy` | backend/ent/account_query.go:866-880 | The same for groups, proxies and usage logs, with the id |
| `NaiveJoin.RunIsNaive` | backend/ent/account_query.go:550-844 | The batched graph, level by level with shared queries, equals the graph that joins every node on its own, to any depth |
| `EdgeContents.LogContents` | backend/ent/account_query.go:785-814 | The usage logs of a node are the rows of the table whose account_id cell is its id and that the subquery accepts, each as often as there, in the order options of the subquery, with the chosen fields |
| `EdgeContents.ChildContents` | backend/ent/account_query.go:752-784 | The same for children by parent_account_id; each is the node of its own row with the edges of the subquery |
| `EdgeContents.JoinContents` | backend/ent/account_query.go:815-844 | The same for join rows by account_id |
| `EdgeContents.GroupContents` | backend/ent/account_query.go:627-687 | The groups of a node are those that some join row connects to it, cell by cell, and that the subquery accepts, each as often as in the table of groups, in order, with the chosen fields |
| `EdgeContents.EntityContents` | backend/ent/account_query.go:688-719 | There is an entity exactly if the key cell names the id of a row that the subquery accepts, and it has the chosen fields of such a row |
| `EdgeContents.AccountContents` | backend/ent/account_query.go:720-751 | The same for accounts, with the edges of the subquery |
| `EdgeContents.KeyColumns` | backend/ent/account_query.go:692-730 | The proxy and the parent of a node hang on its proxy_id and its parent_account_id |
| `EdgeContents.JoinKeyColumns` | backend/ent/accountgroup_query.go:382-415 | The account and the group of a join row hang on its account_id and its group_id |
| `Selections.SelectCounts` | backend/ent/account_query.go:881-887 | Without paging, a row is returned as often as it is in the table if every predicate accepts it, else not at all |
| `Selections.SelectInOrder` | backend/ent/account_query.go:894-900 | The ranks of the first order option never fall among the returned rows; where it ties, neither do those of the next |
| `Selections.SiftStable` | backend/ent/account_query.go:894-900 | Rows that tie under all order options stay in the order of the table |
| `Selections.PageExactly` | backend/ent/account_query.go:888-893 | A page is the rows from the offset on, as many as a positive limit allows |
| `Loaders.LoadGroups` | backend/ent/account_query.go:627-687 | The groups of every node are those that the join gathers for its id; a panic exactly if the callback meets a second value that is no integer holder; the query keeps the join predicate |
| `Loaders.LoadProxy` | backend/ent/account_query.go:688-719 | Every node, also one listed twice or without a key, gets the proxy that its key names among the rows of the subquery, or none; without any key no query is issued |
| `EagerLoading.LoadParent` | backend/ent/account_query.go:720-751 | The same for parents, which are loaded with all edges of their own query |
| `EagerLoading.LoadChildren` | backend/ent/account_query.go:752-784 | Every node gets the rows of the subquery that refer to its id, in order, with all edges of their own query |
| `Loaders.LoadUsageLogs` | backend/ent/account_query.go:785-814 | The same for usage logs |
| `EagerLoading.LoadAccountGroups` | backend/ent/account_query.go:815-844 | The same for join rows and their two edges |
| `EagerLoading.LoadAccount` | backend/ent/accountgroup_query.go:379-407 | Every join row gets the account that its key names, with all edges of the account's query |
| `NodeDistribution.LoadGroup` | backend/ent/accountgroup_query.go:408-436 | Every join row gets the group that its key names, or none |
| `EagerLoading.JoinRowsAll` | backend/ent/accountgroup_query.go:334-378 | A run of a join query yields objects for its batched rows and both edges, and its first error |
| `Agreement.GatherExactly` | backend/ent/account_query.go:653-685 | For join rows in any order and with any repetition, an account gets exactly the groups that some row joins to it, each once, in the order of the groups' first rows in the whole result |
| `Agreement.RequestedKeys` | backend/ent/account_query.go:689-704 | The ids a many-to-one loader asks for are exactly the non-nil keys, each once |
| `Agreement.ParentOutcome` | backend/ent/account.go:131-138 | After a run, `ParentOrErr` is not-loaded exactly if the edge was not requested, not-found exactly if the key is nil or names no row the subquery accepts, and else the account with the id of the key |
| `Agreement.ProxyOutcome` | backend/ent/account.go:120-127 | The same for `ProxyOrErr` |
| `Agreement.ListOutcomes` | backend/ent/account.go:111-166 | The four list accessors fail exactly if their edge was not requested, and else return the nodes of the batched edge |
| `Agreement.JoinOutcome` | backend/ent/accountgroup.go:47-65 | The three states of `AccountOrErr` and `GroupOrErr` after a run of a join query |
| `Routes.TwoRoutesAgree` | backend/ent/account_query.go:815-844 | With unfiltered subqueries, a group is in `Edges.Groups` exactly if it is the `Edges.Group` of some element of `Edges.AccountGroups` |
| `Routes.ParentsAndChildrenInverse` | backend/ent/account_query.go:720-784 | With unfiltered subqueries, c is among the children of n exactly if n is loaded as the parent of c, whichever batches they are part of |
| `Routes.EdgesConserve` | backend/ent/account_query.go:752-844 | The lists that the nodes receive from a one-to-many loader add up to the multiset of its whole result, also with repeated nodes and for paged subqueries |
| `Routes.FanInOrder` | backend/ent/account_query.go:769-783 | Each such list is the subsequence of the result, in its order, whose foreign key is the id of the node |
| `Transparency.RunIsTransparent` | backend/ent/account_query.go:866-880 | Any field lists, at the root and at every subquery, load the same objects, hung together alike, as selecting every column, in the runs that succeed, whose fields are columns |
| `Rerun.SecondRun` | backend/ent/account_query.go:638-664 | After a successful run of any tree, fresh or not, the next run of the same query object panics exactly if the join of some groups query then returns a row; otherwise it returns the same graph |
| `Rerun.QuietFromStart` | backend/ent/account_query.go:638-645 | Without an offset, the next join of a groups query returns a row exactly if this one does |
| `Rerun.SecondRunCanPanic` | backend/ent/account_query.go:661-664 | A valid store and query whose first run succeeds and whose second panics |
| `Rerun.EveryRunIsTheFirst` | backend/ent/account_query.go:704-830 | After any number of runs, a tree of many-to-one and one-to-many edges still returns the graph of its first run, though every run adds its filters |
| `Rerun.RunConfines` | backend/ent/account_query.go:704-830 | After a run, every subquery that was issued accepts what it accepted before, but only rows that refer to a key of this run |
| `Rerun.StaleLogsIff` | backend/ent/account_query.go:798-800 | Over a changed store, a query that has run loads the usage logs that a fresh one would exactly if the accounts that are new to it have none |
| `GroupJoins.JoinPanicsIff` | backend/ent/account_query.go:652-665 | With the columns and holders that k + 1 join predicates produce, the assertion on `values[1]` fails for some row exactly if k > 0 and the join returns a row |
| `Paging.LogsIffUnpaged` | backend/ent/account_query.go:785-814 | A usage-log subquery that accepts a page of rows of two accounts loads per account over every store exactly if it is not paged, for any predicates, order, limit and offset |
| `Paging.ChildrenIffUnpaged` | backend/ent/account_query.go:752-784 | The same for children |
| `Paging.JoinsIffUnpaged` | backend/ent/account_query.go:815-844 | The same for join rows |
| `Paging.EntitiesIffUnpaged` | backend/ent/account_query.go:688-719 | A proxy subquery, or the group subquery of a join row, that accepts one row more than a page loads per key over every store exactly if it is not paged |
| `Paging.AccountsIffUnpaged` | backend/ent/account_query.go:720-751 | The same for parents and for the account of a join row |
| `Paging.GroupsIffUnpaged` | backend/ent/account_query.go:627-687 | The same for groups |
| `Queries.AccountQuery.Clone` | backend/ent/account_query.go:388-409 | The clone is a valid tree of new objects that denotes the same query without its modifiers; the receiver is not touched |
| `Queries.AccountGroupQuery.Clone` | backend/ent/accountgroup_query.go:220-236 | The same for join queries |
| `Editing.CloneThenEdit` | backend/ent/account_query.go:388-475 | After `Clone`, any sequence of builder calls on either tree and on the queries nested in it, with new queries by `With*`, leaves in each tree exactly what its own calls say |
| `Editing.WhereNarrows` | backend/ent/account_query.go:43-47 | Where adds one condition to those that returned rows satisfy |
| `Editing.LimitTakes` | backend/ent/account_query.go:49-53 | Limit returns the first n rows of an unpaged query, unless n is 0 |
| `Editing.OffsetSkips` | backend/ent/account_query.go:55-59 | Offset leaves out the first n |
| `Editing.OrderRefines` | backend/ent/account_query.go:68-72 | Later order options decide only behind the earlier ones |
| `Editing.SelectAdds` | backend/ent/account_query.go:511-517 | Select adds to the chosen fields |
| `Editing.LockKeepsRows` | backend/ent/account_query.go:942-950 | A lock changes neither rows nor fields |
| `Editing.WithRequests` | backend/ent/account_query.go:411-475 | A With method requests its own edge, with a query for all rows, and no other |
| `Editing.NewSelectsAll` | backend/ent/account_query.go:411-475 | The new query of a With method returns every row of its table |
| `Editing.PathReaches` | backend/ent/account_query.go:411-475 | A call on a nested query changes the query of this edge and no other |
| `Cloning.CloneIsSameIff` | backend/ent/account_query.go:388-409 | A clone denotes the same query as its original exactly if no query of the tree has a modifier |
| `Cloning.LockThenClone` | backend/ent/account_query.go:942-950 | After `ForUpdate` on the root of any tree, the clone lacks the lock and denotes another query |
| `Cloning.CloneLoadsAlike` | backend/ent/account_query.go:388-409 | A clone loads the same graph as its original, or fails alike |
| `Cloning.AllOfClone` | backend/ent/account_query.go:388-409 | Running a clone returns the naive join of the original and leaves the original as it was, groups edge or not |
| `Entities.ScanValues` | backend/ent/account.go:168-189 | A holder of the kind of its column for every column, unknown and repeated ones too |
| `Entities.Account.AssignValues` | backend/ent/account.go:193-417 | The account ends in the state of the fold over all columns; a length error exactly if there are too few values |
| `Entities.ScanThenAssign` | backend/ent/account.go:168-417 | Holders shaped by `scanValues` never give an unexpected type: assigning fails exactly on a document that does not decode |
| `Entities.ScalarAssigned` | backend/ent/account.go:193-417 | A scalar field other than the id ends as the last non-NULL value of its column, else as it was |
| `Entities.IdAssigned` | backend/ent/account.go:200-205 | The id ends as the last one scanned |
| `Entities.SelectedAssigned` | backend/ent/account.go:412-414 | A column without a field ends in the selected values with the last holder that it had |
| `Entities.HoldersFitFields` | backend/ent/account.go:17-96 | The holder that `scanValues` makes for a column fits the type of its struct field, for every column |
| `Entities.JsonAssigned` | backend/ent/account.go:250-265 | A JSON field ends as the merge of the documents of its column, in order, into what it was |
| `Entities.JsonReplacedIff` | backend/ent/account.go:250-265 | It ends as the last document of its column, or as it was without one, exactly if that document, when it is an object, has every member that the value before and the earlier documents leave |
| `Entities.RepeatedColumnMerges` | backend/ent/account.go:250-265 | `{"a":1}` and `{"b":2}` for one column: the field keeps both entries |
| `AccountChecks.PassesExactly` | backend/ent/account_create.go:588-662 | A row passes `check` exactly if the fourteen required fields are set and the six validated ones, as far as they are set, are accepted |
| `AccountChecks.FirstDefects` | backend/ent/account_create.go:589-618 | `check` reports the first defect in the order of the source (continued by `NextDefects` and `LastDefects`) |
| `AccountChecks.FirstMissing` | backend/ent/account_create.go:527-557 | `defaults` fails on the first of four default functions that is missing and that the caller has not made up for |
| `AccountChecks.FillStops` | backend/ent/account_create.go:527-585 | No field behind the missing default is set |
| `AccountChecks.DefaultsErrorIsRepeated` | backend/ent/account_create.go:527-662 | If `defaults` fails, `check` fails on what it leaves; if it succeeds, `check` fails only for a missing name, platform or type or a rejecting validator |
| `AccountChecks.CallerFieldsStay` | backend/ent/account_create.go:527-585 | `defaults` neither sets nor clears name, platform and type |
| `MutatorChain.ProperlyNested` | backend/ent/account_create.go:2102-2149 | For any hooks, checks and store: every hook that is entered is left again, in reverse order, across all builders |
| `MutatorChain.EventsOnStack` | backend/ent/account_create.go:2102-2149 | At every event the open hooks are, in order, all those of earlier builders and those of its own builder before it: `hooks[0]` is outermost, and check, batch and completion stand inside all hooks |
| `MutatorChain.HookRuns` | backend/ent/account_create.go:2140-2143 | A hook that rejects or skips runs nothing below it; any other runs the rest once, on the mutation that it passes on, and then keeps, fails or recovers |
| `MutatorChain.RunHasPhases` | backend/ent/account_create.go:2102-2149 | The rest of the trace is a prefix of the checks in order, then at most one batch, and only after all checks passed, then completions in falling order |
| `MutatorChain.PhasesOfSave` | backend/ent/account_create.go:2102-2149 | The same for a whole save; if nothing breaks, exactly the builders n-1 down to some m complete, in this order, and m < n only after the store has accepted the batch; if nothing masks, a success completes all |
| `MutatorChain.HonestSave` | backend/ent/account_create.go:2102-2149 | With hooks that only pass on, reject or fail: the completed builders are n-1 down to some m, none before the store has accepted the batch, and all of them if the save succeeds |
| `MutatorChain.SuccessIsHonestIff` | backend/ent/account_create.go:2117-2138 | A success means that all builders are completed, for all check results and stores, exactly if no hook masks |
| `MutatorChain.DoneIsSuffixIff` | backend/ent/account_create.go:2117-2138 | The completed builders form a suffix, for all check results and stores, exactly if no builder can complete on top of a masked failure |
| `BulkCreate.AccountCreateBulk.Save` | backend/ent/account_create.go:2095-2152 | The result, trace and batches of the save on objects are those of its plan; builder j is checked on its own mutation with the default values, and row j, which spec j and node j carry, is that of the mutation behind its hooks; a completed builder holds this mutation, which is done and reports its node unless a later completion ends on the same one |
| `BulkCreate.AccountCreate.Defaults` | backend/ent/account_create.go:527-585 | The unset fields that have a default get it, in order, up to the first missing default function |
| `BulkCreate.SuccessfulSave` | backend/ent/account_create.go:2128-2151 | Unless a hook masks, a successful save has inserted the one batch; node j carries row j and the j-th id of the store's answer, or 0 if it gives none; the mutation that builder j ends on is done and reports node j, unless an earlier builder ends on the same one |
| `BulkCreate.RowsExactly` | backend/ent/account_create.go:2114-2116 | Row j has the fields that the mutation behind the hooks of builder j held; only an owned one gets missing default values |
| `BulkCreate.ReachLast` | backend/ent/account_create.go:2140-2143 | The last hook that passes on another mutation decides what reaches the closure |
| `BulkCreate.BatchIsNamed` | backend/ent/account_create.go:595-618 | No batch is sent with a builder whose own mutation lacks a name, a platform or a type, or with a row of such a mutation |
| `BulkCreate.BatchIsChecked` | backend/ent/account_create.go:2107-2123 | At most one batch; it is sent only if every builder passed its check on its own mutation, and its row j is that of the mutation that builder j ends on |
| `BulkCreate.InsertedRowsPassIff` | backend/ent/account_create.go:2107-2116 | Every row of every batch passes its check, whatever the mutations hold, the default values and the validators, exactly if the hooks hold every batch back or every builder ends on a mutation that some builder of the save owns |
| `BulkCreate.SaveUnchecked` | backend/ent/account_create.go:2107-2124 | For any builders that this condition excludes, field values, a validator and a save that sends a row which does not pass its check |
| `BulkCreate.OwnMutationIff` | backend/ent/account_create.go:2107-2114 | A builder ends on its own mutation, and by the contract of `Save` its row is then its own, exactly if no hook redirects, or the last that does names the builder's own |
| `ExceptionParser.ParseExceptions` | tools/check_pnpm_audit_exceptions.py:23-48 | The loop computes the parse of the lines, or raises with it |
| `ExceptionParser.ParseFailsIff` | tools/check_pnpm_audit_exceptions.py:12-48 | Parsing raises exactly if some list item has text without a colon |
| `ExceptionParser.PrintThenParseText` | tools/check_pnpm_audit_exceptions.py:12-48 | Printing records with legal keys as one text, each value in double quotes, in single quotes or bare, and parsing its lines gives the records back; a bare value has no space at its ends and is not enclosed in quotes |
| `ExceptionParser.PrintThenParse` | tools/check_pnpm_audit_exceptions.py:23-48 | The same line by line |
| `ExceptionParser.InsertSkipped` | tools/check_pnpm_audit_exceptions.py:29-33 | A blank, comment, `version:` or `exceptions:` line anywhere changes nothing |
| `ExceptionParser.Reindent` | tools/check_pnpm_audit_exceptions.py:30-30 | Indenting any line differently changes nothing |
| `ExceptionParser.StripsPadding` | tools/check_pnpm_audit_exceptions.py:30-30 | Spaces, tabs and line ends around a line are stripped, visible ASCII characters at its ends are not |
| `ExceptionParser.SkippedExactly` | tools/check_pnpm_audit_exceptions.py:31-34 | The skipped lines are the blank ones, comments and the two top-level keys |
| `ExceptionParser.InsertIgnored` | tools/check_pnpm_audit_exceptions.py:44-46 | A line without a colon that starts no item changes nothing |
| `ExceptionParser.MarkerEndsIff` | tools/check_pnpm_audit_exceptions.py:35-43 | A list marker ends the exception before it exactly if it does not stand alone on its line |
| `ExceptionParser.LoneDashMerges` | tools/check_pnpm_audit_exceptions.py:35-46 | Two items, the second with its dash on a line of its own, become one exception |
| `AuditReport.IterVulns` | tools/check_pnpm_audit_exceptions.py:64-111 | The generator yields, in order, what both report shapes specify, and raises exactly if a title to be joined is not a string |
| `AuditReport.YieldsExactly` | tools/check_pnpm_audit_exceptions.py:64-111 | A finding is yielded exactly if an advisory gives it or an identified item of a vulnerability reports it |
| `AuditReport.AdvisoryIdIsFirst` | tools/check_pnpm_audit_exceptions.py:51-61 | The id of an advisory is the first that is not blank of GHSA id, URL, first CVE, number, title, text and overview |
| `AuditReport.ItemIdIsFirst` | tools/check_pnpm_audit_exceptions.py:89-102 | The id of a "via" object is the first of GHSA id, URL, source, title and name; its title the first of title, URL, text and source |
| `AuditReport.GhsaFirst` | tools/check_pnpm_audit_exceptions.py:64-79 | An advisory with a GHSA id is yielded under it, with its severity and its module name |
| `AuditReport.GhsaFirstInVia` | tools/check_pnpm_audit_exceptions.py:81-111 | So is every object with a GHSA id in a "via" list |
| `AuditReport.TextIsAdvisory` | tools/check_pnpm_audit_exceptions.py:103-108 | A text in place of such an object is its own id |
| `AuditReport.RaisesExactly` | tools/check_pnpm_audit_exceptions.py:109-109 | The generator raises exactly if some title to be joined is a number other than 0 |
| `AuditReport.NumericSourceRaises` | tools/check_pnpm_audit_exceptions.py:97-109 | A report on which the generator raises |
| `AuditGate.Run` | tools/check_pnpm_audit_exceptions.py:142-243 | `main` raises exactly if parsing, joining or stripping does, and returns 0 exactly if every exception is complete, validly dated and has a key of its own, every named high or critical finding is identified, and the first finding of each key has an unexpired exception of the same or no severity |
| `AuditGate.SevereNeedsException` | tools/check_pnpm_audit_exceptions.py:193-210 | A named finding whose severity reads "high" or "critical", for whose package and advisory there is no exception, keeps the gate from passing |
| `AuditGate.OthersIgnored` | tools/check_pnpm_audit_exceptions.py:194-196 | A finding of any other severity, or without a name, changes no verdict |
| `AuditGate.RepetitionIgnored` | tools/check_pnpm_audit_exceptions.py:203-206 | Nor does a later severe finding for the same package and advisory, whatever its severity |
| `AuditGate.SevereExactly` | tools/check_pnpm_audit_exceptions.py:114-117 | A finding is severe exactly if it has a name and its severity, stripped and in lower case, is "high" or "critical" |
| `AuditGate.AcceptedExactly` | tools/check_pnpm_audit_exceptions.py:157-174 | An exception is accepted exactly if its five fields are set, its day is a date, and package and advisory are not blank |
| `AuditGate.CoversExactly` | tools/check_pnpm_audit_exceptions.py:211-219 | It covers a finding exactly if its day is not past and its severity is blank or reads the same |
| `AuditGate.PassesUntil` | tools/check_pnpm_audit_exceptions.py:216-219 | A gate that passes on some day passes on another exactly if no exception that a first finding needs is past on that day; its last day is still good |
| `AuditGate.PassesEarlier` | tools/check_pnpm_audit_exceptions.py:187-219 | A gate that passes on a day passes on every earlier day |
| `AuditGate.OrderIrrelevant` | tools/check_pnpm_audit_exceptions.py:152-243 | Files that parse to the same exceptions in any order get the same verdict: the exit code, or the raise |
| `AuditGate.UnusedException` | tools/check_pnpm_audit_exceptions.py:152-243 | A file with one more valid exception, with a new key and anywhere in the list, still passes if the other did, and has the same verdict unless the exception covers a finding |
| `AuditGate.NeededException` | tools/check_pnpm_audit_exceptions.py:207-240 | Taking an exception whose key is that of a first finding out of the file of a passing gate makes it exit with 1 |

## Left out

- Queries.AccountQuery.Clone: the traversal path and the interceptors, which a clone shares, are not modelled, nor is the sharing of slice capacity.
- BulkCreate.AccountCreateBulk.Save: `SeparateBuilders` excludes a builder that stands in the list more than once and has a hook that passes on another mutation, because what its second closure checks then depends on what the first has stored; the same builder twice with other hooks is covered. Different builders have different mutations.
- MutatorChain.RunHasPhases: a hook calls the next mutator at most once; a hook that calls it again would issue a second batch.
- AuditGate.Run: message texts and titles are left out of the result, which keeps the exit code; a report is given as its fields, so that entries of a wrong shape, on which `.get` raises, do not occur.
- ExceptionParser.PrintThenParseText: lines end with a newline; the other line ends that universal newlines translate are given as newlines.
- Unique and DISTINCT: row selection has no duplicate elimination; `setContextOp`, contexts and interceptors have no effect.
- The wrapping of a constraint error of the batch insert: the model has one refusal.
- SQL text, drivers and their errors, transactions and row locks: the store answers every well-formed query; only the batch insert may refuse.
- Traversal queries (`QueryGroups` and the like), `First`, `Only`, `Count`, `GroupBy`, aggregates: they do not eager-load, or restrict `All`.
- Updates, deletes, upserts and the generated code of the other entities: the same templates, or logic in libraries that are not part of this model.
- Hooks that read or change queries, builders or the store while a save is under way.
