# Tiqora: models and proofs

Dafny models of five stateful parts of Tiqora, with proofs of what each promises.
`dafny verify dfyconfig.toml` checks everything.

1. **LLM-routing conversion** (`Routing*.dfy`, `Chains.dfy`). The migration that turns
   per-queue model fields into a catalog of models, shared fallback profiles, one global
   default per task and per-queue overrides, and the downgrade that turns them back. The
   planner is a class whose maps, sets and lists are updated step by step; it refines the
   function `Conversion`. Proved: every queue resolves what it resolved before, the plan holds
   nothing superfluous, input order does not matter, the chosen defaults are optimal, and
   capability flags are sound and exact. The plan meets the constraints of the new schema
   exactly under two conditions on names, and the downgrade gives back agent, final-answer
   and vision chains always and triage exactly under two conditions on the old fields.
2. **Change management** (`Change*.dfy`, `EventPaging.dfy`). The store of change records
   behind the change routes: create, update, guarded transitions, CAB outcome, risk, tasks and
   the append-only event log. The store is a class of mutable records; every method equals a
   step on record values, and the steps keep an invariant over every run of requests. When
   each request is granted, and everything it then sets and logs, is stated on the record and
   the request alone.
3. **Dashboard live refresh** (`RefreshScheduler.dfy`, `PendingPolls.dfy`, `PendingSync.dfy`,
   `EditDataPlan.dfy`). Timers, server events, page visibility and answers in any
   interleaving, as a timed transition system; batches, polls and the reuse of loaded data.
4. **Widget settings** (`WidgetSettings.dfy`, `WidgetPaths.dfy`). The recursive schema check,
   described by the paths on which a value can fail, and the repair of stored settings.
5. **Root store parser** (`Certdata.dfy`). The index-driven parser of `certdata.txt` with its
   multi-line octal blocks, proved to read back what is written (`CertdataText.dfy`), and the
   selection of e-mail roots.

`Common.dfy`, `Text.dfy` and `Json.dfy` hold the shared vocabulary: a stable sort, strip and
casefold on characters, and JSON as a value tree.

Some things hold less widely than a reader of the source might expect. Each comes with the
exact condition under which it holds; the first four also with a concrete input where it fails:

- The new tables do not take every plan. Profile names are told apart exactly, but their unique
  index ignores case and trailing spaces: "m @ P +1" (two models at "P") and "M @ p +1" (one at
  "p +1") collide. And the old fallback text can hold a model name longer than its new column.
  `RoutingSchema.AcceptedExactly` gives both conditions, `NamingAcceptedExactly` and
  `PlainNamesAcceptedExactly` what the first means for the base names of the profiles;
  `RoutingExamples` has a configuration for each.
- The downgrade does not always restore triage. It loses the head where triage names a blank
  model without a default beside a named agent model at the same provider, and the fallbacks
  where the agent's own chain does not carry them, as for a queue without an agent: it stores
  fallbacks behind an agent only, although the old field had room for them.
  `RoutingTriage.TriageComesBackExactly` gives both conditions, `RoutingExamples` a queue for
  each. A triage chain at provider 0, which the old fields read as "not set", cannot arise from
  the upgrade unless the agent is there too; `ProviderZeroExample` shows one stored later.
- A change in approval need not have its window in order: the window check skips an empty
  end. `ChangeRuns.ApprovalWindow` says when it is in order, `EmptyEndReachesApproval` is a
  run.
- An accepted task order need not take effect: the route compares lengths and looks tickets
  up, but does not refuse a ticket that is listed twice. `ChangeTasks.OrderTakesEffect` says
  when it does, `TwiceListedExample` is an order that does not.
- Paging through the events with a limit between 0 and 1, or a negative one, does not give the
  whole log. `EventPaging.PagesCoverExactly` says when it does.
- A hidden page is not always silent: a fetch by hand goes out at once.
  `PendingPolls.HiddenFetches` says which steps fetch.

The docstring of the downgrade says that vision may silently switch to another model. Straight
after the upgrade it does not: the first row of a provider is its default model, which is what
the vision chain used. Models edited in between are outside this model.

The class methods that update the planner, the tables, the change records and the two dashboard
engines in place are each proved equal to a function on values; the table below lists only the
outermost of them.

## Model

| member | source | states |
|---|---|---|
| `Chains.Dedupe` | backend/alembic/versions_tiqora/20260930_0053_llm_routing.py:185-192 | The seen-set loop computes `Deduped`: every entry that does not occur earlier, in order |
| `Chains.DedupedElements` | backend/alembic/versions_tiqora/20260930_0053_llm_routing.py:185-192 | Nothing is lost, nothing is added, nothing is repeated |
| `Chains.DedupedKeepsOrder` | backend/alembic/versions_tiqora/20260930_0053_llm_routing.py:185-192 | Kept entries stand in the order of their first occurrences |
| `Chains.DedupedBeforeMap` | backend/alembic/versions_tiqora/20260930_0053_llm_routing.py:305 | For every renaming `f`: dedupe(map f (dedupe xs)) = dedupe(map f xs), so deduplicating before canonicalising is harmless |
| `Chains.DedupedMapInjective` | backend/alembic/versions_tiqora/20260930_0053_llm_routing.py:305 | A renaming that is one-to-one on the chain commutes with deduplication |
| `RoutingOld.ParseFallback` | backend/alembic/versions_tiqora/20260930_0053_llm_routing.py:145-171 | The parser loop with its skips returns exactly the usable entries, in order; absent text, malformed text and non-lists give none |
| `RoutingOld.UnusableEntrySkipped` | backend/alembic/versions_tiqora/20260930_0053_llm_routing.py:145-171 | An unusable entry anywhere in the list is as good as absent: it is skipped, never fatal, and does not stop the rest |
| `RoutingOld.PolicyChains` | backend/alembic/versions_tiqora/20260930_0053_llm_routing.py:195-225 | The dict filled field by field holds exactly the tasks the old fields resolve, with their chains |
| `RoutingOld.OldChainShape` | backend/alembic/versions_tiqora/20260930_0053_llm_routing.py:195-225 | Every old chain is nonempty, free of repetitions, starts with its configured model and names existing providers only |
| `RoutingOld.TriageElsewhereUsesItsDefault` | backend/alembic/versions_tiqora/20260930_0053_llm_routing.py:22-25 | Triage at another provider with no model of its own starts with the default model there, not with the override meant for the agent |
| `RoutingFields.FinalAnswerFields` | backend/alembic/versions_tiqora/20260930_0053_llm_routing.py:205-207 | A final answer exists if and only if its provider does, and is one model: the final model's name at that provider, else that provider's default |
| `RoutingFields.FinalAnswerDepends` | backend/alembic/versions_tiqora/20260930_0053_llm_routing.py:205-207 | Queues equal in the two final fields have equal final chains, whatever their agent fields |
| `RoutingFields.VisionFields` | backend/alembic/versions_tiqora/20260930_0053_llm_routing.py:222-224 | A vision chain exists if and only if the vision provider does and can see, and is its default model |
| `RoutingFields.AgentFields` | backend/alembic/versions_tiqora/20260930_0053_llm_routing.py:201-203 | An agent chain exists if and only if its provider does; it is the override or the default there, then the fallbacks without repetitions |
| `RoutingFields.TriageFields` | backend/alembic/versions_tiqora/20260930_0053_llm_routing.py:209-220 | Triage exists if and only if it has a provider or a model of its own and its provider (its own unless missing or 0, else the agent's) exists; its head is its own model, else the agent's override at the agent's provider only, else the default; then the fallbacks |
| `RoutingFields.FallbackFields` | backend/alembic/versions_tiqora/20260930_0053_llm_routing.py:145-171 | The fallbacks are what the usable entries of a stored list stand for, in order and none left out; anything else has none |
| `RoutingFields.PlannedFinalAnswer` | backend/alembic/versions_tiqora/20260930_0053_llm_routing.py:292-347 | Through the plan a queue's final answer is one model, denoting what its final fields name, and absent if and only if their provider is |
| `RoutingFields.PlannedVision` | backend/alembic/versions_tiqora/20260930_0053_llm_routing.py:295-299 | Through the plan vision is the default model of the seeing vision provider, and absent if and only if there is none |
| `RoutingCatalog.RememberAllOk` | backend/alembic/versions_tiqora/20260930_0053_llm_routing.py:266-281 | Meeting any names keeps the catalog invariant, only adds spellings and rows, and knows every name met |
| `RoutingCatalog.ChainStable` | backend/alembic/versions_tiqora/20260930_0053_llm_routing.py:274-281 | A chain canonicalised early has the same canonical chain in every later catalog |
| `RoutingCatalog.CanonicalTwice` | backend/alembic/versions_tiqora/20260930_0053_llm_routing.py:274-281 | Canonicalising twice changes nothing |
| `RoutingCatalog.CanonicalSeparates` | backend/alembic/versions_tiqora/20260930_0053_llm_routing.py:266-281 | Two names share a catalog row if and only if they are equal after strip, blank-to-default and casefold |
| `RoutingCatalog.CanonicalDenotes` | backend/alembic/versions_tiqora/20260930_0053_llm_routing.py:274-281 | The row of a name denotes the same model as the name and is listed |
| `RoutingCatalog.RowsUnique` | backend/alembic/versions_tiqora/20260930_0053_llm_routing.py:266-281 | No two rows of a provider are equal up to case |
| `RoutingCatalog.ChainDenotes` | backend/alembic/versions_tiqora/20260930_0053_llm_routing.py:305 | A canonicalised chain denotes the raw chain with repetitions removed, whatever spellings came first |
| `RoutingCatalog.ChainOfDeduped` | backend/alembic/versions_tiqora/20260930_0053_llm_routing.py:305 | Canonicalising a deduplicated chain gives the canonical chain of the original |
| `RoutingNames.UniqueName` | backend/alembic/versions_tiqora/20260930_0053_llm_routing.py:236-244 | The retry loop terminates, returns the first free candidate, a name not taken before, and takes it |
| `RoutingNames.FirstFree` | backend/alembic/versions_tiqora/20260930_0053_llm_routing.py:236-244 | The first free number is at most the number of taken names + 2, so at most the number of taken names + 1 retries; all lower candidates are taken |
| `RoutingNames.CandidatesDiffer` | backend/alembic/versions_tiqora/20260930_0053_llm_routing.py:238-242 | Candidates with different suffixes differ even after the base is truncated |
| `RoutingNames.RefusedBound` | backend/alembic/versions_tiqora/20260930_0053_llm_routing.py:236-244 | Pigeonhole: no more candidates than the number of taken names (plus the bare base) can be refused |
| `RoutingNames.FreeNameFitsAlways` | backend/alembic/versions_tiqora/20260930_0053_llm_routing.py:237-241 | The name has at most 200 characters whenever fewer than 10^197 names are taken |
| `RoutingNames.SecondName` | backend/alembic/versions_tiqora/20260930_0053_llm_routing.py:236-244 | When the cut base is taken the name is the base cut to 196 characters and the number 2, if that is free |
| `RoutingVote.GlobalValueOptimal` | backend/alembic/versions_tiqora/20260930_0053_llm_routing.py:247-256 | For every list of votes no other default, none included, has more votes; ties go to none, then to the lowest index |
| `RoutingVote.GlobalValueVoted` | backend/alembic/versions_tiqora/20260930_0053_llm_routing.py:247-256 | A default that is a profile is one of the votes |
| `RoutingPlanner.PlanConversion` | backend/alembic/versions_tiqora/20260930_0053_llm_routing.py:263-347 | The whole imperative planner refines the functional `Conversion` that the theorems are about |
| `RoutingInvariants.StepOk` | backend/alembic/versions_tiqora/20260930_0053_llm_routing.py:292-314 | One task of one policy keeps the planner invariant: catalog, profiles, index, names, answers, tool keys |
| `RoutingInvariants.BuiltOk` | backend/alembic/versions_tiqora/20260930_0053_llm_routing.py:263-314 | The finished planner state satisfies the invariant for all inputs |
| `RoutingTheorems.ConversionPreservesMeaning` | backend/alembic/versions_tiqora/20260930_0053_llm_routing.py:20-25 | For every provider list, policies with distinct ids, policy and task: resolving through the plan gives nothing exactly when the old fields gave nothing, else the old chain deduplicated, names compared after strip, blank-to-default and casefold |
| `RoutingTheorems.PlanSatisfiesSchema` | backend/alembic/versions_tiqora/20260930_0053_llm_routing.py:390-451 | What always holds: catalog rows unique per provider as the index compares names (case and trailing spaces aside); profiles nonempty, duplicate-free, pairwise different in chain and exact name, made of existing rows, names within 200 characters; every index in range; at most one override per policy and task |
| `RoutingSchema.AcceptedExactly` | backend/alembic/versions_tiqora/20260930_0053_llm_routing.py:375-465 | Every unique key, reference and name length of the new tables is met if and only if no model name the old fields mention is over 200 characters and naming the profiles by the index's own comparison gives the names the planner gave |
| `RoutingSchema.RowsAreMentionedNames` | backend/alembic/versions_tiqora/20260930_0053_llm_routing.py:266-332 | The catalog has a row for a name if and only if some default model or some runtime chain mentions it, after strip, blank-to-default and casefold |
| `RoutingSchema.ModelNamesFitExactly` | backend/alembic/versions_tiqora/20260930_0053_llm_routing.py:380 | Every planned model name fits 200 characters if and only if every mentioned name does, once stripped and with the default for a blank one |
| `RoutingSchema.ConversionNaming` | backend/alembic/versions_tiqora/20260930_0053_llm_routing.py:309-313 | The profile names of a plan are a function of the base names of its chains alone |
| `RoutingSchema.NamingAcceptedExactly` | backend/alembic/versions_tiqora/20260930_0053_llm_routing.py:406 | For every list of base names: the case-blind unique index takes the names if and only if the planner's search would choose the same names when comparing like the index |
| `RoutingSchema.AcceptedNeedsCutsApart` | backend/alembic/versions_tiqora/20260930_0053_llm_routing.py:406 | If the index takes the names, no two base names, cut to 200 characters, differ only in case or trailing spaces |
| `RoutingSchema.PlainNamesAcceptedExactly` | backend/alembic/versions_tiqora/20260930_0053_llm_routing.py:406 | For base names short enough not to be cut and not ending in a closing parenthesis: the index takes the names if and only if no two base names differ only in case or trailing spaces |
| `RoutingExamples.NameClashExample` | backend/alembic/versions_tiqora/20260930_0053_llm_routing.py:236-244 | Two concrete queues whose profile names the unique index refuses |
| `RoutingExamples.LongNameExample` | backend/alembic/versions_tiqora/20260930_0053_llm_routing.py:380 | A concrete queue whose fallback model name becomes a row longer than its column |
| `RoutingTheorems.CapabilitiesSound` | backend/alembic/versions_tiqora/20260930_0053_llm_routing.py:321-327 | Every model of a profile assigned to agent, final answer or triage supports tools; of one assigned to vision, supports vision |
| `RoutingTheorems.CapabilitiesExact` | backend/alembic/versions_tiqora/20260930_0053_llm_routing.py:316-332 | A tools flag is the provider's, widened if and only if some policy's tools-task chain contains the model; all other settings are the provider's |
| `RoutingTheorems.ResolveAt` | backend/alembic/versions_tiqora/20260930_0053_llm_routing.py:334-347 | Defaults plus override rows give every policy exactly the profile the planner assigned |
| `RoutingTheorems.OrderDoesNotMatter` | backend/alembic/versions_tiqora/20260930_0053_llm_routing.py:284-292 | Any permutation of the providers and of the policies gives the identical plan, names and indices included |
| `RoutingTheorems.DefaultIsOptimal` | backend/alembic/versions_tiqora/20260930_0053_llm_routing.py:334-346 | For every task and every other default value (none included) that keeps each resolution, valid policies need at least as many rows; ties go to none, then to the lowest profile |
| `RoutingDefaults.ConversionDefaultsFirst` | backend/alembic/versions_tiqora/20260930_0053_llm_routing.py:283-285 | After the whole conversion the first rows are still the default models of the providers, in id order |
| `RoutingDefaults.DefaultSpellingWins` | backend/alembic/versions_tiqora/20260930_0053_llm_routing.py:283-285 | Any name that denotes a provider's default model gets the default's own spelling |
| `RoutingSurplus.NothingSuperfluous` | backend/alembic/versions_tiqora/20260930_0053_llm_routing.py:263-347 | No catalog row beyond the default models and models of profiles; no profile that no queue resolves for any task |
| `RoutingSurplus.ProfileNames` | backend/alembic/versions_tiqora/20260930_0053_llm_routing.py:228-244 | Every profile is named after its chain, with the lowest number that gives a name no earlier profile has |
| `RoutingDb.Database.WritePlan` | backend/alembic/versions_tiqora/20260930_0053_llm_routing.py:525-570 | Writing into empty tables leaves exactly the five tables of the plan |
| `RoutingDb.LoadChains` | backend/alembic/versions_tiqora/20260930_0053_llm_routing.py:648-660 | Grouping the joined rows gives each profile its rows in order, and only profiles with rows |
| `RoutingDb.WrittenRows` | backend/alembic/versions_tiqora/20260930_0053_llm_routing.py:525-570 | The written tables hold the rows of the plan in its order, under the inserted ids, with names, data and defaults |
| `RoutingDb.Downgrade` | backend/alembic/versions_tiqora/20260930_0053_llm_routing.py:712-788 | Every provider and every policy gets the old fields its stored rows stand for |
| `RoutingRoundTrip.StoredChainReadsBack` | backend/alembic/versions_tiqora/20260930_0053_llm_routing.py:544-559 | The chain read back for an inserted profile id is that profile's chain |
| `RoutingRoundTrip.StoredResolutionIsPlanned` | backend/alembic/versions_tiqora/20260930_0053_llm_routing.py:747-764 | Resolving through the stored rows equals resolving through the plan |
| `RoutingRoundTrip.FallbackReadsBack` | backend/alembic/versions_tiqora/20260930_0053_llm_routing.py:770-773 | The old fallback parser inverts the dumped tail of a chain |
| `RoutingRoundTrip.ProvidersComeBack` | backend/alembic/versions_tiqora/20260930_0053_llm_routing.py:712-742 | For ascending inserted ids every provider gets back its stripped default model, vision flag, rounds and prices, and no less tools support |
| `RoutingRoundTrip.DowngradeUndoesUpgrade` | backend/alembic/versions_tiqora/20260930_0053_llm_routing.py:663-788 | Upgrade then downgrade: the old fields give exactly the planned agent, final-answer and vision chains; triage gives nothing where nothing was planned, otherwise the planned head if and only if `TriageRestorable`, and the whole planned chain if and only if also `TailShared` |
| `RoutingTriage.TriageComesBackExactly` | backend/alembic/versions_tiqora/20260930_0053_llm_routing.py:768-779 | In terms of the old fields before the upgrade: the triage head comes back if and only if not (blank name without a default, beside a named agent model at the same provider); the whole triage chain comes back if and only if also the agent has the same head or is no fallback, or without an agent no fallback adds anything |
| `RoutingTriage.TailSharedExactly` | backend/alembic/versions_tiqora/20260930_0053_llm_routing.py:768-773 | The tail stored behind the agent serves triage if and only if `KeepsTriageTail` says so of the old fields |
| `RoutingTriage.RestorableExactly` | backend/alembic/versions_tiqora/20260930_0053_llm_routing.py:777-779 | Right after the upgrade the planned head is restorable if and only if not `LosesTriageHead`; in particular provider number 0 is never the reason |
| `RoutingExamples.TriageHeadLostExample` | backend/alembic/versions_tiqora/20260930_0053_llm_routing.py:777-779 | A concrete queue that starts triage with another model after upgrade and downgrade, for all inserted ids |
| `RoutingExamples.TriageTailLostExample` | backend/alembic/versions_tiqora/20260930_0053_llm_routing.py:768-773 | A concrete queue without an agent that keeps its triage head and loses the fallback |
| `RoutingExamples.ProviderZeroExample` | backend/alembic/versions_tiqora/20260930_0053_llm_routing.py:210 | A stored triage chain at provider 0 beside an agent elsewhere reads back at the provider of the agent |
| `RoutingRoundTrip.RoundTripKeepsMeaning` | backend/alembic/versions_tiqora/20260930_0053_llm_routing.py:663-788 | Agent, final-answer and vision chains mean after upgrade and downgrade what the old fields meant before |
| `ChangeInvariants.AppendKeeps` | frontend/e2e/fixtures/change-store.ts:173-183 | Appending an event keeps numbering, strictly increasing stamps, reasons and the connected phase path |
| `ChangeInvariants.CreatedOk` | frontend/e2e/fixtures/change-store.ts:390-469 | Every accepted create gives a sound draft whatever template and body |
| `ChangeInvariants.EditsKeep` | frontend/e2e/fixtures/change-store.ts:472-515 | An update, refused half-way or not, touches only its own fields, keeps the window in order, and in approval changes no plan, window or CAB |
| `ChangeInvariants.UpdateOk` | frontend/e2e/fixtures/change-store.ts:472-515 | An update keeps the record invariant |
| `ChangeInvariants.OverridesOk` | frontend/e2e/fixtures/change-store.ts:557-571 | Overrides and forces on the way are logged with nonblank reasons |
| `ChangeGuards.OfferedExactly` | frontend/e2e/fixtures/change-store.ts:311-318 | The targets a person may take, per type and phase, as an explicit table |
| `ChangeGuards.BlockCountExactly` | frontend/e2e/fixtures/change-store.ts:195-223 | Block conflicts are exactly the blocking freezes that touch a service of the change during its window and do not let it through |
| `ChangeGuards.FailuresExactly` | frontend/e2e/fixtures/change-store.ts:523-555 | The failures listed are exactly what is missing of window, override reason, plans, answers, impact, finished tasks, outcome, review notes and reason |
| `ChangeGuards.GrantedExactly` | frontend/e2e/fixtures/change-store.ts:557-561 | A transition is granted if and only if its target is offered and nothing it needs is missing, stated on record, body and settings |
| `ChangeGuards.ReachableReady` | frontend/e2e/fixtures/change-store.ts:538-542 | In every reachable store a change in approval has both plans, and a normal one all answers and a computed impact |
| `ChangeEffects.TransitionExactly` | frontend/e2e/fixtures/change-store.ts:557-598 | A granted transition sets exactly these fields, logs exactly these events in order and leaves every other field; a refused one changes nothing and lists what is missing |
| `ChangeEffects.DecideExactly` | frontend/e2e/fixtures/change-store.ts:145-154 | The CAB outcome sets status, phase and approval time and logs two events; outside approval it throws and changes nothing |
| `ChangeEffects.AnswersExactly` | frontend/e2e/fixtures/change-store.ts:677-684 | Answers are merged if and only if the change is not final and every question is known |
| `ChangeEffects.OverrideExactly` | frontend/e2e/fixtures/change-store.ts:689-697 | A risk override needs a manager and a reason; the reason is kept with a level only |
| `ChangeEffects.RecomputeExactly` | frontend/e2e/fixtures/change-store.ts:661-665 | Impact is requested once and computed every time |
| `ChangeEffects.AddTaskExactly` | frontend/e2e/fixtures/change-store.ts:713-738 | A task needs a title, comes last, unfinished, under the next ticket, and is logged |
| `ChangeEdits.UpdateExactly` | frontend/e2e/fixtures/change-store.ts:472-515 | An update is accepted if and only if the change is not final, its window is in order and approval locks nothing it changes; then every field is as asked and the changed names are logged once; refused, it keeps the reason and, outside approval, the plans |
| `ChangeEdits.CreatableExactly` | frontend/e2e/fixtures/change-store.ts:390-410 | A create is accepted if and only if the first valid template with the id asked for allows it and the window is in order; else the first failing reason is given |
| `ChangeEdits.CreatedExactly` | frontend/e2e/fixtures/change-store.ts:411-447 | A new change has what the body says, else what the template says, field by field, and two events |
| `ChangeEdits.CreatedFresh` | frontend/e2e/fixtures/change-store.ts:411-447 | Nothing else is set; its services are those named, each once |
| `ChangeEdits.CreatedTasks` | frontend/e2e/fixtures/change-store.ts:446-468 | Its tasks are those of the template, numbered by its id and their position |
| `ChangeTasks.OrderExactly` | frontend/e2e/fixtures/change-store.ts:704-711 | An order is accepted if and only if the change is not final, the lengths agree and every entry is the ticket of a task; only positions change |
| `ChangeRuns.StoreExactly` | frontend/e2e/fixtures/change-store.ts:627-672 | A request changes the record it names and the clock only, with the rights of who is signed in; a create takes the next id |
| `ChangeInvariants.PrepareOk` | frontend/e2e/fixtures/change-store.ts:573-581 | Entering approval opens the next round with its number, id and a pending status, and changes nothing else |
| `ChangeInvariants.SettleOk` | frontend/e2e/fixtures/change-store.ts:582-594 | Leaving a phase resets and records only approval, times and outcome; the outcome is set exactly when closing |
| `ChangeInvariants.TransitionOk` | frontend/e2e/fixtures/change-store.ts:557-598 | A transition, taken or refused, keeps the record invariant |
| `ChangeInvariants.DecideOk` | frontend/e2e/fixtures/change-store.ts:145-154 | The CAB outcome keeps the record invariant: system-only steps only right after a logged outcome |
| `ChangeInvariants.RiskOk` | frontend/e2e/fixtures/change-store.ts:674-699 | Every risk request keeps the record invariant |
| `ChangeInvariants.TasksOk` | frontend/e2e/fixtures/change-store.ts:701-740 | Every task request keeps the record invariant |
| `ChangeInvariants.ActionOk` | frontend/e2e/fixtures/change-store.ts:627-672 | Every request on a record keeps the record invariant |
| `ChangeRuns.RefusedTransitionUnchanged` | frontend/e2e/fixtures/change-store.ts:557-561 | A refused transition changes nothing; a granted one reaches its target by a pair a person may take |
| `ChangeRuns.ActionEvolves` | frontend/e2e/fixtures/change-store.ts:627-672 | Any request: the log only grows, approval freezes plans, window, CAB and approval id, entering approval adds one round, a final record stays as it is |
| `ChangeRuns.ReachableOk` | frontend/e2e/fixtures/change-store.ts:126-740 | In every reachable store every record satisfies the invariant |
| `ChangeRuns.RunLater` | frontend/e2e/fixtures/change-store.ts:126-740 | Between any two moments of any run the log of the earlier is a prefix of the later, and freeze and absorption hold |
| `ChangeRuns.ApprovalFreeze` | frontend/e2e/fixtures/change-store.ts:575-581 | Two moments of the same approval round agree on plans, window, CAB and approval id; a later round has a larger id; status is pending; round equals the number of approval requests |
| `ChangeRuns.FinalAbsorbs` | frontend/e2e/fixtures/change-store.ts:589-592 | After a final phase no request changes phase, outcome, plans, window, CAB, reason, risk answers, log or task list; an outcome is set exactly when closed |
| `ChangeRuns.EveryLogSound` | frontend/e2e/fixtures/change-store.ts:173-183 | Every reachable log: ids 1..n, strictly increasing stamps, nonblank reasons, phase events forming a path from draft to the current phase by table pairs, system-only pairs only right after the matching CAB outcome |
| `ChangeRuns.ApprovalWindow` | frontend/e2e/fixtures/change-store.ts:529-534 | In approval both window ends are set, and start lies before end if and only if the end is not the empty string |
| `ChangeRuns.EmptyEndReachesApproval` | frontend/e2e/fixtures/change-store.ts:407 | A concrete run in which a change is in approval with an empty end |
| `ChangeStages.ReachableStages` | frontend/e2e/fixtures/change-store.ts:572-598 | In every reachable store: an approval is pending exactly in approval; rejected changes were refused; only scheduled or later (or cancelled) changes are approved; standard and emergency changes are never scheduled unapproved; work has begun exactly from implementing on and ended exactly in closed |
| `ChangeStages.StageTaken` | frontend/e2e/fixtures/change-store.ts:557-598 | Every granted transition keeps approval status, approval time and actual times fitting the phase |
| `ChangeTasks.OrderTakesEffect` | frontend/e2e/fixtures/change-store.ts:705-711 | An accepted order gives each listed ticket its place if and only if it lists no ticket twice |
| `ChangeTasks.TwiceListedExample` | frontend/e2e/fixtures/change-store.ts:707-710 | A concrete accepted order after which two tasks share the second place |
| `ChangeTasks.LastMentionWins` | frontend/e2e/fixtures/change-store.ts:708-710 | A ticket listed more than once gets the place of its last mention |
| `ChangeStoreObject.ChangeStore.CreateChange` | frontend/e2e/fixtures/change-store.ts:390-469 | A create adds a fresh sound record under the next id and touches no other, or refuses and changes nothing |
| `ChangeStoreObject.ChangeStore.Handle` | frontend/e2e/fixtures/change-store.ts:627-672 | A request on one change is the step of the store: only that record and the clock change, and the invariant of all records holds again |
| `EventPaging.EventPage` | frontend/e2e/fixtures/change-store.ts:652-657 | Filter, reverse and slice answer the page for every number as bound and limit, negative and fractional ones included |
| `EventPaging.DefaultPage` | frontend/e2e/fixtures/change-store.ts:652-657 | Without bound and limit a page is the newest fifty events, newest first |
| `EventPaging.WalkFrom` | frontend/e2e/fixtures/change-store.ts:652-657 | Paging on from any bound gives the older events newest first when the limit is at least one, and otherwise the first page alone |
| `EventPaging.PagesCoverExactly` | frontend/e2e/fixtures/change-store.ts:652-657 | The pages concatenate to the reversed log, every event exactly once, if and only if the limit is missing or at least 1 or the log is empty |
| `RefreshScheduler.StepKeeps` | frontend/src/dashboard/data.tsx:195-249 | Every callback keeps: queued nonempty exactly when a timer is armed, held only while hidden, timer within ten seconds and past the spacing, batches spaced and nonempty |
| `RefreshScheduler.StepConserves` | frontend/src/dashboard/data.tsx:195-249 | Conservation: an id is owed or newly asked for if and only if afterwards it is still owed or in a batch this step sends |
| `RefreshScheduler.RunSafe` | frontend/src/dashboard/data.tsx:72-76 | In every interleaving event batches are at least ten seconds apart and no step that finds or leaves the page hidden sends one |
| `RefreshScheduler.ArmedExactly` | frontend/src/dashboard/data.tsx:220-230 | The timer armed for an event leaves two seconds, keeps ten from the last event batch, and no longer than the later of the two; an armed one stays |
| `RefreshScheduler.Coalesced` | frontend/src/dashboard/data.tsx:72-76 | In every run, from a moment without a timer no event batch goes out for two seconds |
| `RefreshScheduler.FiredExactly` | frontend/src/dashboard/data.tsx:208-218 | A due timer sends all that is queued as one batch, or holds it all on a hidden page |
| `RefreshScheduler.TickExactly` | frontend/src/dashboard/data.tsx:275-281 | The ids of a tick are requested at once and alone, or held on a hidden page |
| `RefreshScheduler.NeverDropped` | frontend/src/dashboard/data.tsx:195-249 | An owed id stays owed until a batch containing it is sent |
| `RefreshScheduler.WaitsForTimer` | frontend/src/dashboard/data.tsx:208-230 | While the page stays visible a queued id waits for the timer that was armed for it |
| `RefreshScheduler.SentInTime` | frontend/src/dashboard/data.tsx:72-76 | With punctual timers and a visible page a queued id is sent within ten seconds |
| `RefreshScheduler.Engine.FlushQueue` | frontend/src/dashboard/data.tsx:208-218 | The timer callback in place equals the flush step and keeps the invariant |
| `PendingPolls.StepKeeps` | frontend/src/dashboard/data.tsx:151-193 | Every step, manual fetches included, keeps: each poll is armed, held or awaiting its answer, each timeout belongs to the current poll of its widget, delay index in bounds, fetches per period at most six, a widget shown as refetching has a manual fetch on its way |
| `PendingPolls.RunKeeps` | frontend/src/dashboard/data.tsx:151-193 | In every interleaving a widget has at most one live timeout and no pending period makes more than six fetches |
| `PendingSync.SyncExactly` | frontend/src/dashboard/data.tsx:252-256 | After a sync exactly the given widgets are polled: one polled before keeps its poll and timeout, a new one waits two seconds at the first attempt, no timeout of another is left |
| `PendingSync.NewlyPendingIsFetched` | frontend/src/dashboard/data.tsx:176-182 | In every run, a widget a sync finds newly pending is fetched within the first pause, if timeouts are punctual, the page is visible and the widget stays pending |
| `PendingSync.WaitingIsFetched` | frontend/src/dashboard/data.tsx:176-182 | On a visible page a waiting poll keeps waiting for the same timeout until its fetch goes out |
| `PendingSync.DueExactly` | frontend/src/dashboard/data.tsx:176-182 | A due timeout sends the fetch of its widget, or holds the poll on a hidden page |
| `PendingSync.ShownFetchesHeld` | frontend/src/dashboard/data.tsx:238-245 | When the page is shown again the fetch of every held poll goes out |
| `PendingSync.AnswerShown` | frontend/src/dashboard/data.tsx:183-193 | A settling answer is shown as it is, the sixth pending one as an error, any other pending one changes nothing shown |
| `PendingSync.FreshResultsShown` | frontend/src/dashboard/data.tsx:151-154 | Fresh results replace those of their widgets in a loaded batch and no others |
| `PendingSync.HandFetchSent` | frontend/src/dashboard/data.tsx:257-265 | A fetch by hand of a widget in a loaded batch goes out at once, shows it as refetching and ends its poll |
| `PendingSync.Pauses` | frontend/src/dashboard/data.tsx:66-72 | Six pauses, doubling from two seconds up to thirty |
| `PendingPolls.LiveAnswer` | frontend/src/dashboard/data.tsx:176-193 | A live poll's answer either arms the next, listed pause in the same period or ends it with a result that is not pending; the sixth answer always ends it |
| `PendingPolls.HiddenFetches` | frontend/src/dashboard/data.tsx:176-181 | A step that leaves the page hidden starts no poll fetch; it starts a single-widget fetch if and only if it is a manual one with a batch in the cache, and asks for the whole dashboard if and only if it is a manual one without |
| `PendingPolls.MergeFrame` | frontend/src/dashboard/data.tsx:148-154 | No step but a loaded batch creates the cache entry, and each leaves all widgets but its own alone |
| `PendingPolls.Engine.SyncPending` | frontend/src/dashboard/data.tsx:252-256 | The two loops stop polls of widgets no longer pending and start missing ones, leaving running polls alone |
| `EditDataPlan.PlanEdit` | frontend/src/dashboard/data.tsx:403-428 | The two loops compute the edit plan |
| `EditDataPlan.PreviewsExactlyTheNew` | frontend/src/dashboard/data.tsx:403-428 | A widget is previewed if and only if it has data and no loaded twin of equal content in a reusable state; every other widget has a twin's state or none |
| `EditDataPlan.ReuseAgreesWithFetching` | frontend/src/dashboard/data.tsx:396-402 | If the finished states of the twins of a widget are what fetching its content answers, the widget is previewed, still loading or shows that answer |
| `EditDataPlan.RearrangingNeverFetches` | frontend/src/dashboard/data.tsx:396-402 | A layout of loaded contents, moved, resized or duplicated, needs no preview |
| `WidgetSettings.SettingsWithDefaults` | frontend/src/dashboard/definitions.ts:188-211 | The loop, in any property order, repairs exactly the declared keys that do not fit and leaves every other key |
| `WidgetPaths.FitsExactly` | frontend/src/dashboard/definitions.ts:145-180 | A value fits its schema if and only if no path through declared objects and arrays ends where type, enumeration, range or length is broken |
| `WidgetPaths.RepairExactly` | frontend/src/dashboard/definitions.ts:188-211 | Every key of the result: declared and failing nowhere, kept; declared otherwise, the default or absent; undeclared, as before. Older settings are migrated first; a migration that throws leaves nothing |
| `WidgetSettings.RepairedUnique` | frontend/src/dashboard/definitions.ts:188-211 | That description determines the result |
| `WidgetSettings.RepairIdempotent` | frontend/src/dashboard/definitions.ts:188-211 | Repairing repaired settings at the current version changes nothing, for every schema and value, migrated or not |
| `WidgetSettings.RepairFits` | frontend/src/dashboard/definitions.ts:145-211 | Every declared key of every repaired object fits if and only if every declared default does |
| `Certdata.ReadOctalLine` | scripts/update-smime-roots.py:53 | One octal line gives its bytes, or an error if any piece is not a byte |
| `Certdata.ReadBlock` | scripts/update-smime-roots.py:51-56 | The nested loop reads up to and including END, or reports the end of the lines or a bad octal |
| `Certdata.BlockReads` | scripts/update-smime-roots.py:51-56 | What the nested loop answers is what reading line by line in octal mode gives, errors included |
| `Certdata.ParseObjects` | scripts/update-smime-roots.py:32-61 | The index-driven parser computes the line-by-line reading for all inputs, errors included |
| `Certdata.ParseComposes` | scripts/update-smime-roots.py:32-61 | Parsing `a`, a blank line, then `b` equals parsing `a` followed by parsing `b` whenever `a` does not end inside an octal block; the first error wins |
| `CertdataText.WrittenReadsBack` | scripts/update-smime-roots.py:32-61 | Text written for any list of objects, with or without blank lines between them and with comments and valueless words anywhere, parses to exactly those objects: values, bytes of multi-line blocks, split at the class line |
| `Certdata.SelectRoots` | scripts/update-smime-roots.py:64-103 | The loops stop with an error if and only if a trusted certificate has a distrust date that is none; otherwise they select, in file order, exactly the named certificates with an e-mail delegator record of the same issuer and serial and no past distrust date |
| `Certdata.TakenExactly` | scripts/update-smime-roots.py:82-103 | What a selected object and its trust record must hold, attribute by attribute |
| `Certdata.SelectionForgetsOrder` | scripts/update-smime-roots.py:82-103 | Which roots are selected, and whether a date stops the run, does not depend on the order of the objects |

## Left out

Routing conversion:

- RoutingTheorems.PlanSatisfiesSchema: profile names are compared exactly here; how the unique index compares them is in RoutingSchema.
- RoutingSchema.AcceptedExactly: the index is taken to ignore ASCII case and trailing spaces; what else the collation of the database ignores (accents, other scripts) is not modelled.
- RoutingNames.FreeNameFitsAlways: the 200-character bound is shown for fewer than 10^197 taken names, because beyond that the numeral itself is longer than the column.
- RoutingRoundTrip.DowngradeUndoesUpgrade: summary and refine profiles are not restored by the downgrade, as its docstring says; the conversion makes none.
- Strip and casefold act on ASCII letters, the space and the characters 9 to 13; other white space (the separators 28 to 31 among it) and letters are left as they are.
- JSON text: the stored fallback is absent, malformed or a value tree; number syntax and `json.dumps` are not modelled. A JSON `NaN` or a number too large for a float is not a value of the model.
- Policy ids and provider ids are primary keys, so the theorems that speak of one policy assume distinct ids; with repeated ids the per-policy values are a list here and a dict there.
- The per-task dicts of values are one list of answers, policy by policy; `sorted` is a function; the `chains` dict kept for inspection is left out.
- SQL: tables are sequences and maps; inserted ids are parameters, assumed ascending where the smallest id matters; the joined, ordered query is a parameter described by `IsChainQuery`.
- Table creation, foreign-key inspection, column drops, usage and audit columns, create and change stamps, and `supports_streaming`.

Change management:

- ChangeInvariants.UpdateOk: a refused update may already have applied earlier fields; it is modelled so and atomicity is not claimed.
- Freezes, questions and templates are a parameter; risk points, conflict lists, the list route, GET renderings, warnings and job ids are left out.
- Stamps count minutes; their text form and the real clock are left out.
- Dates are compared as strings of characters, not as UTF-16 code units.
- Request bodies are typed: fields of the wrong JSON type and a `cab_id` that is present but undefined are not modelled.
- Admin writes, modes other than `tiqora`, and approval panels of other stores.

Dashboard:

- RefreshScheduler.SentInTime: assumes that no timer fires late, because the source cannot bound the event loop's delay.
- The refresh scheduler and the pending polls are two engines that share clock and visibility; a change of visibility and its event are one step, as is the end of a request and its callback.
- One lifetime of the effect: abort and cleanup are left out; answers of batches (they arrive as `Fresh`) and of the request for the whole dashboard (`BatchLoaded`) belong to the environment, as does which widgets are synced as pending.
- The order in which a JavaScript map lists polls is a parameter of the step, any order.
- React hooks, the query cache beyond one entry, which event type refreshes which widget, interval timers (ticks come at any time), the debounce of previews and the mapping to view states.
- The content key of a widget is the triple of type, version and settings value, not the concatenated text with its hash.

Settings and parser:

- Number edge cases (NaN, infinities), inherited properties, cloning and aliasing of defaults; a schema is given by its properties.
- WidgetSettings.SettingsWithDefaults: `migrate` is a pure function that returns or throws; it cannot keep or change the object it is given.
- Certdata.ReadOctalLine: `int(text, 8)` is a parameter, so signs, underscores and white space in octal pieces are whatever it accepts.
- Certdata.SelectRoots: how the bytes of a distrust date are read, and the clock, are a parameter, which may report that they are no date.
- Download, labels, base64 wrapping, header text and the output file.
