# Leadflow: verified model

Leadflow is a CRM server for sales leads: a Go program over PostgreSQL, with an optional Redis
cache and a server-sent-events hub. This project models its core in Dafny, replaces the database by
tables, and proves what the core promises.

| files | part of the program |
|---|---|
| `Keyset`, `LeadList`, `Transfers` | keyset pagination: eight sort modes of the lead list, two transfer logs |
| `Sql`, `LeadQuery`, `LeadWhere`, `SearchWhere`, `WhereBuilder`, `Selection`, `Text`, `Calendar` | the compiler from list parameters to WHERE clauses with numbered placeholders, the direct predicate it has to denote and what that says on the columns, LIKE escaping, day windows |
| `GeoFilter`, `ActorScope`, `Summaries` | the scope of an actor in list, per-lead gate and aggregates; dashboard counts against list totals |
| `Qualification`, `Crm`, `Routing`, `Database`, `Invariants`, `Runs`, `Effects`, `Fields`, `RoutingFields`, `History` | the lead life cycle over several tables: specification functions, the store methods proved against them, what every run keeps, what operations and whole runs change, each operation on the columns, the timeline |
| `TransferLocks` | concurrent executive transfers and their lock order |
| `ResponseCache`, `RedisCache`, `CacheProtocol` | the response caches and the interleavings of several instances |
| `Session`, `Hub`, `HubProtocol`, `LoginLimiter` | single live session, SSE hub and presence, login limiter |

How the model reads the program:

- A clause is a syntax tree with `Param(n)`; `Sql.Eval` gives it three-valued meaning over a lead,
  the other tables and an argument vector. `LeadWhere.Denotes` says that a clause list uses exactly
  the placeholders of its arguments and selects the leads of a `Test`, for every database and any
  arguments around them.
- Case folding, collation and the text of dates and numbers are a parameter (`Model.Locale`). Folding
  works character by character and keeps the LIKE metacharacters apart (`Text.FoldOk`); text columns
  compare in a strict total order with the empty text first (`LeadListing.CollationOk`).
- Clocks, fresh ids, generated session ids and the row an `ORDER BY .. LIMIT 1` query returns are
  parameters, with a predicate for what the environment guarantees.
- An in-memory structure that the program updates is a class; a transaction is one method that
  restores the saved tables where the program rolls back. Concurrent protocols are step relations
  over a system state.
- A method is proved against a function, and the function is stated a second time on the columns of
  the rows, without the names it is defined by: the orders (`LeadListing.AnswerIsSorted`), the
  filters (`LeadSelection`), every operation of the life cycle with its refusals
  (`LifecycleFields`, `RoutingFields`), a request's checks, the caches and the limiter.

Where the program does not do what one would expect, the exact condition is proved:

- the analyst sort orders a missing creator as the empty text but encodes the dash, and an empty
  status or stage key makes the cursor ignored (`LeadListing.UnsafeCursorSpoils`);
- the aggregate filter numbers the analyst-team scope from its own arguments (`GeoScopes.LeadClause`): latent,
  because the only function that passes it a start, `andSQL` (geo_filter.go:133), has no caller;
- the transfer logs do not escape their search (`TransferLogs.LogSearchIsSubstringIff`);
- ids that read "none" or "unassigned", and the all-zero team (`ActorScopes.ListIsGate`);
- a routed lead keeps its closing time (`LifecycleEffects.StaleClosingIff`), a mark over a
  padded status stamps a time without a row (`LifecycleInvariants.MarkKeepsTimeIff`), a re-promoted
  executive leaves leads on the old team (`LifecycleRuns.ChangeRoleKeepsTeamsIff`);
- the "passed" list ignores "passed" under an exact status (`Summaries.PassedIsListTotalIff`,
  `Summaries.PassedAgreesIff`);
- checks made outside their transaction (`LifecycleRuns.StaleOutcomesKeepStageIff`,
  `LifecycleRuns.StalePatchKeepsChainIff`, `LifecycleRuns.StaleMarkKeepsHistoryIff`,
  `LifecycleRuns.StaleAssignKeepsTeamsIff`, `Sessions.StaleDeactivationsIff`);
- a late store of the cache generation (`CacheProtocol.NeverOlderIff`), a session stored after a
  deactivation (`Sessions.SurvivesDeactivationIff`), an unlocked send, unannounced drops and
  overtaking announcements (`HubProtocol.SendToHitsClosedIff`, `HubProtocol.DropKeepsFaithfulIff`,
  `HubProtocol.RightAboutUserIff`).

## Model

| member | source | states |
|---|---|---|
| `Keyset.OrderIsUnique` | leads.go:809-888 | Two ordered arrangements of the same rows under a strict order are equal, so an ORDER BY that ends in the primary key leaves the database no choice. |
| `Keyset.FilterOrderBy` | leads.go:890-959 | Filtering before or after ORDER BY is the same query. |
| `Keyset.ReadPage` | leads.go:904-998 | The row loop with its limit+1 probe, the cut and the next cursor compute the page that `CutPage` describes. |
| `Keyset.WalkReadsTable` | leads.go:765-1082 | If every cursor selects exactly the rows ordered after its row, the n-th page is the n-th slice of the ordered table, hasMore is false exactly on the last page, and n pages together are the first rows of the table, each once. |
| `Keyset.SeenIsProduct` | leads.go:126-134 | After n pages of `limit` rows a client has seen min(n*limit, total) rows, so the walk ends. |
| `Keyset.BadCursorSpoilsWalk` | leads.go:890-896 | One cursor that misses a row ordered after it loses that row from the walk of a two-row table. |
| `Keyset.IgnoredCursorRepeats` | leads.go:812-887 | A cursor the query ignores returns the first page for ever. |
| `LeadListing.ValueClause` | leads.go:850-871 | The three-valued cursor clause of the value sort, with its three numbered placeholders, is "strictly after" under DESC NULLS LAST, also for a cursor without a value. |
| `LeadListing.AppendCursor` | leads.go:805-888 | For each of the eight sort modes the cursor clause appended behind the filter arguments admits exactly the rows the cursor asks for, whatever arguments follow; an ignored cursor admits every row. |
| `LeadListing.SortIsStrict` | leads.go:809-879 | Each of the eight ORDER BY lists is a strict order. |
| `LeadListing.SafeCursorResumes` | leads.go:1057-1082 | In every sort mode the cursor of a safe row (non-empty id, non-empty status or stage key, existing creator) selects exactly the rows after it. |
| `LeadListing.UnsafeCursorSpoils` | leads.go:828-884 | For every row that is not safe there is a second row such that the two-row list is not walked correctly: the analyst dash, the empty status or stage key and the empty id. |
| `LeadListing.List` | leads.go:754-1110 | The compiled count and page queries, the probe row and the truncation answer the page and the exact total of the direct predicate. |
| `LeadListing.ListWalk` | leads.go:765-1110 | For every table, parameters, sort mode and limit, following the cursors shows exactly the filtered rows in ORDER BY order, each once, with the right hasMore and total on every page, when the rows' cursors are safe. |
| `LeadListing.AnswerIsSorted` | leads.go:795-888 | Whatever the cursor, an answer shows at most `limit` selected leads with the names of their creators, in the order of its sort mode: each of the eight orders, with its tie-break, on the columns of the leads. |
| `LeadListing.WalkIsSorted` | leads.go:795-998 | Along a client's walk the rows of a page stand, on those columns, before the rows of every later page. |
| `LeadListing.ForeignCursorStartsAgain` | leads.go:769-772 | A cursor of another sort mode gives the first page. |
| `Text.EscapeIsCharacterwise` | leads.go:521-526 | The three successive replacements of escapeILIKE equal one character-wise escape. |
| `Text.EscapedLikeIsContains` | leads.go:521-526 | The pattern "%" + escaped q + "%" matches exactly the strings that contain q, for all q and s. |
| `Text.EscapedILikeIsContains` | search.go:65-69 | With ILIKE, the same modulo case folding. |
| `Text.RawLikeIsContainsIff` | transfers.go:235-244 | The unescaped pattern is a substring search on every text exactly when the query has no LIKE metacharacter. |
| `Text.TrimSpaceStable` | leads.go:537-572 | Trimming is idempotent, and BTRIM changes nothing after it. |
| `Text.TrimSpaceCuts` | leads.go:537-572 | Trimming cuts white space off both ends, as far as it goes, and nothing else. |
| `Calendar.WindowIsDayRange` | leads.go:666-683 | An instant lies in the half-open window of two local midnights exactly when its displayed day lies in the inclusive day range. |
| `Calendar.StoredDateIsShown` | handlers_leads_http.go:290-309 | A date stored as local midnight is displayed as that date. |
| `Calendar.MidnightIs1815` | business_tz.go:11-20 | A day begins at 18:15 UTC of the day before. |
| `LeadQuery.DocumentCoversParts` | search.go:237-255 | The all-fields search finds every lead that has the query inside one of the texts its search document is made of. |
| `LeadSelection.PresetMeaning` | leads.go:423-505 | Each of the presets selects the leads its name says, on the columns of the lead. |
| `LeadSelection.FacetsMeaning` | leads.go:618-690 | The facets select exactly the leads whose places, holders, channel, codes, day and reason are what was asked. |
| `LeadSelection.SearchFinds` | search.go:71-255 | A search in each of the fields finds exactly the leads whose columns mention the query, the words of the tag and closed searches included. |
| `LeadSelection.ListMeaning` | leads.go:726-744 | A list shows exactly the leads of its preset, or of its exact status in the preset's place, whose columns are in the facets and mention the query in the searched field. |
| `LeadSelection.FoundByColumn` | search.go:237-255 | The all-fields search finds a lead by any part of any of sixteen texts, named column by column. |
| `LeadWhere.AddsTrans` | leads.go:618-690 | Meanings of appended clauses compose: a later append neither renumbers nor rebinds an earlier one. |
| `LeadWhere.AnalystScopeCompiles` | leads.go:579-616 | The analyst-team scope, numbered from the arguments before it, selects the leads created by the team lead or a lead analyst of the same team. |
| `LeadWhere.BlankGeoCompiles` | geo_filter.go:31-45 | A blank label selects missing, blank and sentinel places. |
| `SearchWhere.PatternCompiles` | search.go:71-255 | For every column search with one pattern argument, the clause uses that one placeholder and finds exactly the leads whose field mentions the query. |
| `SearchWhere.PhoneCompiles` | search.go:48-63 | The phone search matches the text as written or, from two digits on, the digits without separators. |
| `SearchWhere.DocumentCompiles` | search.go:237-255 | The all-fields search with its optional digit pattern denotes the search over the document. |
| `SearchWhere.TagCompiles` | search.go:71-255 | The tag search, whose clause depends on the query's words, denotes the tags. |
| `SearchWhere.ClosedCompiles` | search.go:71-255 | The closed search, with its branches lost, open and closed, denotes the closing state. |
| `WhereBuilding.WhereBuilder.AppendIn` | leads.go:507-518 | The loop that grows arguments and placeholders in step appends a clause that denotes membership. |
| `WhereBuilding.WhereBuilder.AppendLeadFilter` | leads.go:423-505 | Every filter preset appends clauses that denote it. |
| `WhereBuilding.WhereBuilder.AppendLeadFacets` | leads.go:618-686 | The facets append clauses that denote all of them, with the reversed date range swapped. |
| `WhereBuilding.WhereBuilder.AppendLeadSearch` | search.go:71-255 | Every search field appends clauses that denote it; short queries append nothing. |
| `WhereBuilding.BuildLeadListWhere` | leads.go:726-744 | Behind any reserved arguments and in front of any further ones, the clauses use exactly the placeholders reserved+1 .. reserved+len(args) and select exactly the leads of the direct predicate, in every database. |
| `WhereBuilding.LeadScopeWhere` | leads.go:1266-1277 | The same for the scope without the search box, with or without the preset. |
| `WhereBuilding.MoreArgumentsKeepMeaning` | leads.go:902-903 | Appending a cursor, a limit or other arguments changes no meaning. |
| `TransferLogs.FoundIsSubstring` | transfers.go:235-244 | Without a metacharacter in the query, the log search finds the rows with a text that contains it. |
| `TransferLogs.MetaFindsTooMuch` | transfers.go:235-244 | For every query with a metacharacter, in every locale whose lower() is idempotent and leaves the metacharacters alone, some row is found although none of its texts contains the query. |
| `TransferLogs.LogSearchIsSubstringIff` | transfers.go:235-244 | The log search is "some text contains the query" on every row if and only if the query has no LIKE metacharacter. |
| `TransferLogs.ListSalesExecTeamTransfers` | transfers.go:216-356 | The team-transfer log answers the page and the exact total of its test, or the cursor error. |
| `TransferLogs.ListLeadTransfers` | transfers.go:363-532 | The lead-transfer log does the same, with the error for an unknown action; the team filter wins over the creator filter. |
| `TransferLogs.LogCursorResumes` | transfers.go:271-286 | A log cursor resumes after its row exactly when the row's id is not empty. |
| `TransferLogs.LogWalk` | transfers.go:216-532 | Following the answers' own cursors from the empty one, with distinct non-empty ids, the n-th answer is the n-th slice of the selected rows, newest first; hasMore is false exactly on the last page and every page carries the exact total. |
| `TransferLogs.LogAnswerIsSorted` | transfers.go:271-356 | Whatever the cursor, an answer shows rows of its test, newest first with the larger id first on ties, and no more than the limit. |
| `TransferLogs.TeamLogRows` | transfers.go:216-250 | The rows of the team log, on their columns. |
| `TransferLogs.LeadLogRows` | transfers.go:385-440 | The rows of the lead log, on their columns: a known transfer, the team, else the creator, the action and the text. |
| `TransferLogs.ActionsAsked` | transfers.go:363-420 | Which actions are refused, when a cursor is, and that "all" asks for every transfer, forty at a time by default and a hundred at most. |
| `GeoScopes.LeadClause` | geo_filter.go:62-123 | The clause is well numbered and denotes the filter when argStart is 0 or there is no analyst-team scope, and is never well numbered otherwise; no caller of the program passes another argStart, so the defect is latent. |
| `GeoScopes.FilterMeaning` | geo_filter.go:62-123 | The aggregate filter selects exactly the leads whose places, holders and analyst team are what it carries; only the exact word "none" asks for a missing holder. |
| `ActorScopes.ApplyActorLeadScope` | handlers.go:65-86 | The role's scope replaces the client's facet in one place, and the analyst team lead's scope clears the manager facet. |
| `ActorScopes.ScopeReplacesFacet` | handlers.go:65-86 | The scope of each role, parameter by parameter: one facet replaced, the manager facet cleared for the analyst team lead, the all-zero team for a main team lead without a team, the rest kept. |
| `ActorScopes.FacetsOnlyShrink` | handlers.go:65-110 | Whatever the client sends, the list shows only leads it shows without facets. |
| `ActorScopes.BareListIsRule` | handlers.go:65-86 | The list without facets shows a lead exactly when the access rule allows it, except on the misread leads: ids that read "none" or "unassigned", and leads on the all-zero team. |
| `ActorScopes.RuleByRole` | handlers.go:26-62 | The rule role by role, on the fields of actor and lead. |
| `ActorScopes.RequireLeadAccess` | handlers.go:143-209 | The gate answers unauthorized, forbidden, granted or not found as the rule says; for scoped roles it opens exactly for stored leads the rule allows. |
| `ActorScopes.ListIsGate` | handlers.go:65-209 | For every stored lead, the list without facets shows it iff the gate opens for it, exactly when the lead is not misread. |
| `ActorScopes.GeoFilterFromRequest` | handlers.go:112-124 | The aggregate filter carries the scope of the actor's role. |
| `ActorScopes.FilterIsList` | handlers.go:112-124 | The aggregate filter selects the leads of the list with the same places, for ids other than none and unassigned. |
| `Summaries.ListTotalIsCount` | leads.go:785-803 | The list's total is the number of leads the direct predicate selects. |
| `Summaries.PipelineSummary` | leads.go:1136-1162 | Every board card equals the total of the list with its pipeline preset and the same facets, without query, status and stage, and the stage cards together do not exceed the board. |
| `Summaries.CardSelects` | leads.go:1136-1162 | A card counts the leads of its pipeline preset in all facets but status and stage, on the columns. |
| `Summaries.TotalPassed` | leads.go:1308-1325 | COUNT(DISTINCT leadId) over the join, with two reserved arguments, counts the scoped leads that were handed over. |
| `Summaries.PassedSelects` | leads.go:1308-1325 | The passed count counts the leads in the facets and preset that were handed over, on the columns. |
| `Summaries.PassedIsListTotalIff` | leads.go:449-457 | For all parameters the count of passed leads never exceeds the total of the "passed" list, and equals it if and only if every listed lead satisfies the summary's preset or, with an exact status, was handed over. |
| `Summaries.PassedAgreesIff` | leads.go:723-736 | Without facets, the count and the "passed" list agree in every database if and only if there is no exact status and the preset is "all" or "passed". |
| `Summaries.StatusSpoilsPassed` | leads.go:733-736 | With an exact status the list drops the preset "passed": one lead of that status without a handoff is listed and not counted. |
| `Summaries.StagesPartition` | leads.go:1238-1246 | The six stage groups partition every set of leads. |
| `Summaries.SalesExecOutcome.Complete` | leads.go:1248-1257 | On counts of one scan the remainder is the number of leads at any other stage, assigned is the sum of all groups, and the clamp never changes anything. |
| `Summaries.ExecutiveOutcome` | leads.go:1702-1741 | One row of the outcomes counts the scoped leads of the executive per stage, and the groups add up to assigned. |
| `Summaries.HeldSelects` | leads.go:1702-1741 | An executive's row counts the leads in the facets and preset that the executive holds, on the columns. |
| `Qualification.HalvingKeepsSqueeze` | qualification.go:75-77 | One round of replacing "__" shortens the key when it changes it and keeps what it squeezes to. |
| `Qualification.Collapse` | qualification.go:75-77 | The loop terminates with every run of underscores squeezed to one. |
| `Qualification.NormalizeQualification` | qualification.go:64-88 | Normalising computes the canonical code, by code, key or label, or the trimmed text. |
| `Qualification.NormalizeIsStable` | qualification.go:64-94 | The result is canonical or the trimmed text, and normalising it again changes nothing. |
| `Qualification.NormalizeByParts` | qualification.go:64-88 | A text is its own code, else the code of its key, else the code of a label of the same text without case, else itself, trimmed. |
| `Qualification.KeyIsClean` | qualification.go:68-79 | A key has no dash, no space, no two underscores in a row and none at its ends, and does not depend on case. |
| `Routing.CleanIdsDistinct` | assign.go:119-136 | The cleaned ids are distinct and are exactly the non-blank trimmed ids of the request. |
| `Database.Store.InsertQualificationLog` | qualification_log.go:30-75 | A history row is added unless there is no target or nothing changed. |
| `Database.Store.CreateLead` | leads.go:2403-2531 | Creating a lead writes the lead, its handoff row and the first history row, or refuses and changes nothing. |
| `Database.Store.UpdateLead` | leads.go:2957-3072 | Editing keeps an outdated source or status, stamps the entry time and adds a history row exactly when the status changes. |
| `Database.Store.UpdateQualificationStatus` | leads.go:2175-2222 | Patching the status writes lead and history together, or nothing. |
| `Database.Store.MarkLeadNotAppropriate` | leads.go:2806-2884 | Marking checks the reason, is idempotent for the same reason, and makes the lead irrelevant. |
| `Database.Store.EnsureLogSeeded` | qualification_log.go:200-224 | Seeding gives a lead without history one row at its creation time. |
| `Database.Store.UpdateSalesOutcome` | leads.go:2712-2797 | The SET list grown part by part has the effect of the whole outcome, or the request is refused and nothing changes. |
| `Database.Store.AssignLeads` | assign.go:107-357 | All selected leads are assigned with one handoff row each, or none is changed; the count is the number of distinct ids. Which leads and columns: `RoutingFields.AssignOnFields`. |
| `Database.Store.DeleteSelectedLeads` | assign.go:393-478 | The selected leads in scope go with their handoffs and histories; the count is their number. Which leads: `RoutingFields.DeleteLeadsOnFields`. |
| `Database.Store.TransferSalesExec` | users.go:1096-1252 | The transfer moves user, leads and log in one step, and leadsMoved is the number of leads the executive holds. |
| `Database.Store.DeleteUserAccount` | users.go:669-809 | The deletion's statements and loop have the effect of the specification, and every refusal leaves the tables as they were. |
| `LifecycleInvariants.LoggingKeepsHistory` | qualification_log.go:30-75 | Logging a change extends the chain and ends at the new status and time. |
| `LifecycleInvariants.MarkKeepsTimeIff` | leads.go:2843-2879 | Marking keeps "the last history row's time is qualificationEnteredAt" exactly when the stored status is not IRRELEVANT with space around it. |
| `LifecycleInvariants.OutcomeKeepsStage` | leads.go:2712-2797 | An accepted outcome keeps the stage invariants of a lead. |
| `LifecycleInvariants.AssignKeeps` | assign.go:266-348 | Assigning leads keeps the whole invariant. |
| `LifecycleInvariants.TransferKeeps` | users.go:1193-1226 | Moving an executive keeps the whole invariant. |
| `LifecycleInvariants.DeleteUserKeeps` | users.go:669-809 | Deleting a user keeps the whole invariant. |
| `LifecycleInvariants.DeleteUserLeavesNoTrace` | users.go:693-809 | Deleting a user keeps every lead id; on success no lead, manager or team pointer refers to the user and every team has an existing main team lead. |
| `LifecycleInvariants.DeleteUserBlocked` | users.go:764-776 | A team without another main team lead stops the deletion. |
| `LifecycleRuns.RunKeepsInvariant` | leads.go:2175-2884 | The invariant holds in every state of every run of the ten operations, refused ones included. |
| `LifecycleRuns.ReachableLead` | leads.go:2446-2464 | In every reachable state: a closed stage has a closing time, a won lead has revenue, PRE_SALES is fully unassigned, WITH_EXECUTIVE has an executive, an assigned executive excludes PRE_SALES and WITH_TEAM_LEAD, the assignment time goes with the executive, the lead is on its executive's team, and the history is a chain that ends at the current status and entry time. |
| `LifecycleRuns.TransferMovesExactly` | users.go:1193-1226 | A transfer changes the executive and exactly the leads they hold; no other lead or user changes. |
| `LifecycleRuns.MovingBackRestoresTeams` | users.go:1096-1252 | Moving an executive back restores the users and the team of every lead. |
| `LifecycleRuns.ChangeRoleKeepsTeamsIff` | handlers_users.go:395-420 | Changing a role keeps "a lead is on its executive's team" if and only if the request does not promote to sales executive on another team, or the user holds no lead. |
| `LifecycleRuns.DemoteAndPromoteLosesTeam` | handlers_users.go:395-420 | Demoting an executive with leads and promoting them again with another team ends with leads on the old team. |
| `LifecycleRuns.StaleOutcomesKeepStageIff` | leads.go:2723-2792 | Two outcome requests that read the same row and passed the checks against it leave a consistent row if and only if neither closes the lead as won on the revenue, or for the stage, that the other one replaces. |
| `LifecycleRuns.StaleChecksLoseRevenue` | leads.go:2723-2745 | The case in full: one request closes on the stored revenue, the other removes it, and the lead is won without revenue. |
| `LifecycleRuns.StalePatchKeepsChainIff` | leads.go:2187-2217 | Two patches that read the same current status leave a chain if and only if one of them changes nothing, on rows with a blank status too. |
| `LifecycleRuns.StaleMarkKeepsHistoryIff` | leads.go:2844-2879 | A mark that read the status before its transaction keeps the history if and only if the status read is still the stored one; without history, unless the stored status became IRRELEVANT at another time and the status read was not. |
| `LifecycleRuns.StaleAssignKeepsTeamsIff` | assign.go:155-281 | An assignment that read the assignee before its transaction keeps every lead on its executive's team if and only if it routes to a team lead or the assignee is still on the team read. |
| `LifecycleRuns.MoveBetweenBreaksTeams` | assign.go:155-281 | Any accepted move of the executive between that read and the transaction breaks it. |
| `LifecycleEffects.AssignEffect` | assign.go:266-348 | An accepted assignment changes every selected lead and no other, keeps started stages, and logs one handoff per lead in request order. |
| `LifecycleEffects.ClosedAtIsFirstClosing` | leads.go:2756-2777 | After any run of the ten operations the closing time of a lead that was open at the start is the time of the first closing since it was last reopened, and is absent if and only if every closing was followed by a reopening. |
| `LifecycleEffects.StaleClosingIff` | assign.go:266-281 | After any run of the ten operations a lead that was open at the start carries a closing time on an open stage if and only if some accepted assignment routed it to a team lead while it was closed and no accepted outcome has set its stage since. |
| `LifecycleEffects.RunKeepsDealValue` | leads.go:2778-2783 | Closed revenue is the deal value of its lead in every state of every run. |
| `LifecycleEffects.HistoryOnlyGrows` | qualification_log.go:30-75 | Whatever a run does, the history a lead had stays the beginning of its history as long as the lead exists. |
| `LifecycleEffects.DeleteLeadsEffect` | assign.go:393-478 | Exactly the selected leads in scope disappear, with exactly their handoffs and histories. |
| `LifecycleFields.OutcomeOnFields` | leads.go:2712-2797 | An outcome is stored column by column, absent fields kept, when nothing is wrong with it, and refused with a true complaint otherwise. |
| `LifecycleFields.MarkOnFields` | leads.go:2806-2884 | A mark stores flag, reason, author and status with one history row, does nothing the second time, and is refused with a true complaint. |
| `LifecycleFields.MarkedStaysMarked` | leads.go:2824-2865 | A marked lead is on the "not appropriate" list, and marking it again for another reason is refused. |
| `LifecycleFields.EditOnFields` | leads.go:2957-3072 | An edit stores every column of the request in that column, keeps the sales side, logs exactly a change of status, and is refused with a true complaint. |
| `LifecycleFields.CreateOnFields` | leads.go:2403-2531 | A creation adds one lead with the columns of the request, one handoff row and one history row at the creation time, or is refused with a true complaint. |
| `LifecycleFields.PatchOnFields` | leads.go:2175-2222 | A patch stores the canonical status with the time and one history row, or nothing when the lead has it. |
| `LifecycleFields.SeedOnFields` | qualification_log.go:200-224 | A lead with a status and without history gets one row dated at its creation; otherwise nothing changes. |
| `RoutingFields.AssignRefusals` | assign.go:107-262 | An assignment is accepted exactly when the request is in order and every selected lead exists, belongs to the requester on each scope given and is qualified; a refusal names something that is wrong. |
| `RoutingFields.AssignOnFields` | assign.go:212-348 | Exactly the selected leads change; all of them had the creator, team, executive and analyst team the request is limited to; each row is stated column by column, with one handoff row by the actor. |
| `RoutingFields.DeleteLeadsOnFields` | assign.go:393-478 | Exactly the named leads with the creator, team, executive and analyst team of the request go, with their handoffs and histories; no id or more than a hundred are refused. |
| `RoutingFields.TransferOnFields` | users.go:1096-1252 | A transfer is refused with a true complaint, or moves the executive, each held lead and the log, stated column by column, and nothing else. |
| `RoutingFields.DeleteUserOnFields` | users.go:669-809 | A deletion is refused with a true complaint, or takes the user away; leads, teams and users keep every column but the pointers to the user. |
| `QualificationHistory.ListQualificationHistory` | qualification_log.go:158-197 | The row loop computes the timeline: minutes before, minutes within, current. |
| `QualificationHistory.NeighboursAgree` | qualification_log.go:160-194 | The minutes in the previous status are the previous row's minutes in status, and exactly the last row is current. |
| `QualificationHistory.RowsAreShown` | qualification_log.go:158-197 | Each entry shows its own row, in order; all but the first carry the minutes since the row before, within half a minute. |
| `QualificationHistory.MinutesAddUp` | qualification_log.go:160-194 | For rows in time order and not in the future, the minutes add up to the elapsed time within half a minute per row. |
| `TransferLocks.StepKeeps` | users.go:1111-1187 | Every step of any transaction keeps the locks exclusive, the team read under the user lock true, and the history honest. |
| `TransferLocks.RunsNeverDeadlock` | users.go:1111-1187 | In every reachable state of any number of concurrent transfers with an unfinished transaction, some transaction can take its next step, and no team row is locked twice. |
| `TransferLocks.SecondTransferNeedsMoveBack` | users.go:1134-1143 | Two transfers of one executive with the same expected team both succeed only if the executive was moved back in between. |
| `ResponseCaching.ResponseCache.Get` | response_cache.go:31-39 | A hit is what a cache without the size bound would serve. |
| `ResponseCaching.ResponseCache.Set` | response_cache.go:41-52 | Setting stores the entry, empties a full cache first, and ignores blank data and non-positive lifetimes. |
| `ResponseCaching.StoreAndAsk` | response_cache.go:31-52 | What was stored is served up to and including the end of its lifetime, and other keys are as they were. |
| `RedisCaching.RedisResponseCache.Generation` | redis_cache.go:94-119 | The generation comes from a copy younger than 300 ms, from the server, or from nowhere; it is never below the instance's own last clear. |
| `RedisCaching.RedisResponseCache.Get` | redis_cache.go:128-144 | The server answers with the value stored under the generation in use, or with nothing; the fallback answers when the server is away; no hit from the server is older than the instance's own last clear. |
| `RedisCaching.RedisResponseCache.Set` | redis_cache.go:146-163 | A value is stored under the generation in use, or in the fallback when the server is away; blank, oversized and lifeless values change nothing. |
| `RedisCaching.StoreAndAskAgain` | redis_cache.go:128-163 | What was stored is what the next lookup gets, unless the local copy of the generation ran out in between and the counter had been ahead of it; then the lookup is answered under the counter. |
| `RedisCaching.RedisResponseCache.Clear` | redis_cache.go:165-184 | A clear moves the generation past every stored value; without the server the generation stays and the local copy is dropped. |
| `CacheProtocol.StaleNeverServedLater` | redis_cache.go:94-184 | In every interleaving of several instances, once 300 ms plus one fetch delay have passed since an increment, no later lookup is answered with a value stored under an older generation. |
| `CacheProtocol.NeverOlderIff` | redis_cache.go:94-184 | In the interleaved system, whatever follows, an instance answers with nothing stored before generation g if and only if its usable copy, its pending fetches and its running lookups are at g or above. |
| `CacheProtocol.ClearingInstanceNeverServesOld` | redis_cache.go:165-184 | When a clear stores its generation, its instance never again serves an older value if and only if none of the instance's other calls in flight got its generation before that. |
| `CacheProtocol.LateStoreServesOld` | redis_cache.go:112-119 | The failing case from the start: a fetch that read before the clear and stores after it brings the old generation back, and the clearing instance serves an old value. |
| `Sessions.MatchesIffHashOf` | session.go:39-50 | The stored hash fits a session id exactly when it is the hash of that id. |
| `Sessions.SessionStore.LoadAuthedUser` | httpx.go:57-83 | A request is accepted if and only if its token is verified, the account exists, is active and has a known role, the stored hash is that of the token's session and the tab it names, if any, is that session's; each refusal names exactly its reason. |
| `Sessions.SessionStore.ReplaceActiveSession` | users.go:206-219 | The new session's hash replaces the stored one, for this user alone. |
| `Sessions.SessionStore.ClearActiveSessionIfCurrent` | users.go:221-232 | The hash is cleared only while it is the hash of this session. |
| `Sessions.SessionStore.SetActive` | users.go:492-545 | Switching an account off clears its session hash; the actor and the last active superadmin, by count, cannot be switched off, an unchanged flag writes nothing, and some superadmin stays active. |
| `Sessions.RunKeepsSuperadmin` | users.go:509-517 | With each request's check and UPDATE in one step, a superadmin stays active in every run. |
| `Sessions.StaleDeactivationsIff` | users.go:509-532 | Two deactivations accepted against the same accounts leave no active superadmin if and only if they switch off two different superadmins and there were no others. |
| `Sessions.AtMostOnePasses` | httpx.go:57-83 | At most one session id per user passes the request check. |
| `Sessions.LoginInvalidatesEarlier` | handlers_auth.go:123-156 | From the moment a login is stored, no session stored for the user before it ever passes again, in any continuation. |
| `Sessions.DeactivationInvalidates` | users.go:514-531 | A token stored before a deactivation never passes again, in any continuation, however often the account is switched on afterwards. |
| `Sessions.SurvivesDeactivationIff` | users.go:206-219 | In every state, a token handed out before a deactivation passes at the end of some run that starts with it if and only if its login had not stored its session yet: storing does not look at the account's flag. |
| `Sessions.SessionEndsIff` | handlers_auth.go:123-192 | One step ends a live session if and only if it stores another login, resets the password, switches the account off or is the clear of the session's own logout. |
| `Sessions.OwnLogoutEnds` | handlers_auth.go:158-192 | The own logout of a live session is let through to its clear, and the clear ends the session. |
| `Sessions.StaleLogoutsKeepSession` | handlers_auth.go:158-192 | A live session ends only by a later login, a password reset, a deactivation or its own logout, however the read and the clear of other logouts interleave. |
| `Hub.RealtimeHub.Add` | realtime.go:72-84 | Adding a connection reports the total and whether it is the user's first. |
| `Hub.RealtimeHub.Remove` | realtime.go:86-105 | Only the caller that finds the connection removes it and closes its channel, and learns whether it was the user's last. |
| `Hub.RealtimeHub.IsOnline` | realtime.go:113-126 | The search over the connections says whether the trimmed user has one; a blank user has none. |
| `Hub.RealtimeHub.Snapshot` | realtime.go:128-146 | The snapshot has exactly the connected users, each once, with the data of one of their connections. |
| `Hub.RealtimeHub.OnlineCount` | realtime.go:150-162 | The count is the number of entries of a snapshot on the asked team: all connected users without a team, and the connected users of the team when no user is connected with two teams. |
| `Hub.RealtimeHub.DropUserExcept` | realtime.go:241-265 | Exactly the user's connections outside the kept session are removed and closed. |
| `HubProtocol.ChannelsAreSafe` | realtime.go:72-105 | In every interleaving of add, remove, close and broadcast steps each channel is closed at most once and no broadcast sends on a closed channel. |
| `HubProtocol.SendToHitsClosedIff` | realtime.go:164-179 | In every run the unlocked sendTo hits a closed channel if and only if an earlier step closed it; it is safe while the connection is in the table, and as long as nobody removed the connection before. |
| `HubProtocol.DropBeforeSendTo` | realtime.go:335-365 | A drop between add and sendTo closes the channel first. |
| `HubProtocol.MadeIsFaithful` | realtime.go:72-105 | Without drops, folding the announcements decided under the lock gives exactly the connected users, after every interleaving. |
| `HubProtocol.InOrderGivesSnapshot` | realtime.go:335-365 | With sending as a step of its own, when no announcement overtakes an earlier one about the same user, what was received followed by what is still to be sent gives the connected users; with nothing left to send the subscriber knows the snapshot. |
| `HubProtocol.RightAboutUserIff` | realtime.go:335-365 | Once everything is sent, in whatever order, a subscriber is right about a user if and only if the announcement about the user received last is of the kind decided last. |
| `HubProtocol.DropKeepsFaithfulIff` | realtime.go:262-264 | A drop keeps the announced users right exactly when the user has another connection. |
| `HubProtocol.LateOfflineHidesUser` | realtime.go:335-365 | The overtaking run: a connection is removed, another one added and announced, and the earlier offline event is sent last; the connected user is shown as offline. |
| `LoginLimiting.LoginLimiter.Allow` | ratelimit.go:33-49 | At non-decreasing times the limiter answers as one that never prunes. |
| `LoginLimiting.LoginLimiter.Prune` | ratelimit.go:51-61 | Pruning removes exactly the expired buckets, and only from 256 on. |
| `LoginLimiting.AtMostTwoWindows` | ratelimit.go:33-49 | An interval no longer than the window lets at most 2*limit - 1 attempts per key through, for every sequence of attempts in time order. |
| `LoginLimiting.RefusedOnlyAtLimit` | ratelimit.go:39-48 | An attempt is refused only when `limit` attempts for its key were allowed in the window before it. |

## Left out

- PostgreSQL, Redis, HTTP, JSON, base64, JWT, password hashing and SHA-256 themselves: encodings round-trip, cursors arrive decoded, tokens cannot be forged, and the session hash is injective.
- Canonicalising the filter, sort and search-field names, and parsing a day from text: the parameters carry the parsed values.
- Unicode case mapping that changes the number of characters, and collations that are not a total order.
- Floating point: amounts, deal values and minutes are exact numbers.
- Time zones with changing offsets: the business offset is the fixed UTC+5:45 of the default zone.
- The regular expressions that extract a qualification reason from the notes: the extracted reason is a parameter.
- Display texts of the list rows, and the latest handoff joined to them.
- Language, response-proof and message-time columns of a lead, and the time of the not-appropriate mark: stored and returned, never tested by the modelled code.
- Creating users and teams, linking a new main team lead, analyst transfers, API keys, and every table outside the model that may still refer to a user (one flag, `restricted`).
- The foreign keys of the handoff and transfer logs, whose definition is not part of this model.
- Redis failing while a call is under way: `CacheProtocol` assumes the server answers; `RedisCaching` says what one call does without it.
- Data computed before a mutation and stored in the cache after its clear: it is stored under the new generation, and no bound here covers it.
- Buffered events a slow client loses: every subscriber is taken to receive the announcements in the order they are sent.
- The logout's drop of all of the user's event streams, which also reaches a session that logged in meanwhile.
- Revenue sums, attribution mixes, reports, exports and KPI targets: counts and sums over the same scope.
- Qualification.NormalizeQualification: the label table is tried in a fixed order where the program's map has none; the labels differ pairwise, so the order matters only for a folding that identifies two of them.
- Database.Store.AssignLeads: reads and writes are one step; what the assignee read before the transaction can do is `LifecycleRuns.StaleAssignKeepsTeamsIff`.
- Database.Store.MarkLeadNotAppropriate: reads and writes are one step; what the status read before the transaction can do is `LifecycleRuns.StaleMarkKeepsHistoryIff`.
- Sessions.SessionStore.SetActive: the count and the UPDATE are one step; what two interleaved requests can do is `Sessions.StaleDeactivationsIff`.
- Database.Store.DeleteUserAccount: the API keys the user created, which the program deletes with the user, are not modelled; the other tables that may still refer to the user are one flag, `restricted`, that blocks the deletion.
- Database.Store.CreateLead: histories are kept in insertion order per lead; the program's table is ordered by time when it is shown.
