# Verification of the marketing platform's hard parts

A Dafny model of five components of the platform and proofs about them. `dafny verify dfyconfig.toml` checks
everything.

- **`import/`**: the Enterprise import of one account. A pipeline of steps pages through a source, upserts rows by
  natural key, records source-to-target ids and checkpoints after each page. The worker may die between any two
  durable writes; it then starts again from the checkpoint. `Upserts.dfy` is the theory (pages as upserts that absorb
  their own repetition), `Source.dfy` the source and its paging, `RowTables.dfy`, `LinkTables.dfy` and `IdMapper.dfy`
  the target's tables and the id mapper, `Target.dfy` and `Progress.dfy` the invariants, `Outcome.dfy` what a completed
  import leaves, and `Worker.dfy` the worker as a class whose methods may be cut short at every durable write.
  `StepDependencies.dfy`, `RowMapping.dfy` and `EmailTemplates.dfy` cover the selection of steps, the mapping of one
  record and the names of templates.
- **`messaging/`**: the AMQP consumer with in-process retries, dead letters and shutdown. `Protocol.dfy` is the step
  relation of consumer and broker, `Conservation.dfy` its invariants over all runs, `History.dfy` what dead letters tell
  about a run, `Consumer.dfy` the class whose callbacks are those steps.
- **`segments/`**: the compiler from segments to SQL. `Sql.dfy` gives the emitted SQL a grammar, a parser and a
  meaning, `Segments.dfy` says what a segment means, `Generator.dfy` is the compiler with its placeholder and its two
  loops, and `StepMeaning.dfy`, `Compilation.dfy` and `Correctness.dfy` prove that what is emitted parses to what is
  meant. `GeneratorV2.dfy` has the second generator's steps and state, `Backends.dfy` its loops, their correctness and
  where the two generators agree.
- **`campaigns/`**: page ranges, the arms of A/B tests, as meant and as queued, and the search for the next weekly
  date.
- **`automations/`**: the automation walk, the segment lock, the weekly date windows and the rewriting of time
  placeholders.
- **`common/`**: the option type and the days of the week.

## How to read the main results

*Import.* The account is seen as cells: a row is known by its entity and natural key, a join row by the two natural
keys it joins; database ids are forgotten. Every committed page is a finite set of upserts. `CrashResumeConverges`
says that committing pages again from any earlier page, any number of times, ends where one uninterrupted run ends.
The class `ImportJob` is proved to refine this: a schedule of deaths decides at every durable write whether the worker
lives to do the next one; whatever dies and wherever (before a commit, between a commit and a mapping, between a
mapping and the checkpoint, inside a rolled back transaction that has already consumed ids), once `Process` completes
the tables hold exactly `job.Expected()`, with no natural key and no pair stored twice and every join row between
existing rows. `Outcome.dfy` says what that is, column by column and without speaking of page writes
(`LastPageWins`, `OldColumnStays`, `NewColumn`). Mapping rows of entities always point to the row of their source row's
key, and cache and table never differ for them. Mapping rows of messages may dangle: when a page of messages rolls back,
a mapping row it recorded leads to a row exactly if the message was in the table before (`MessageMappingMayDangle`, and
for the worker as it dies `UpsertMessages`). The step is right because it always starts over and maps every message anew
before it links campaigns.

*Messaging.* For every message id, the places it can be in (queued, unacked, waiting in a timer, on its way back,
dead, handled, lost) add up to how often it was published plus how often it was duplicated. The losing steps are
exactly a retry timer dropped by shutdown and a republish that fails (`LossesIff`); the duplicating ones are exactly
the closing of the channel on a dead letter that is stored but not yet acked and the storing of a letter after the
channel is gone (`DuplicatesIff`). What a dead letter reports is what happened: its errors are those of the failed
handlings in the run, in their order (`DeadLetterHistory`).

*Segments.* `CompilerCorrect` goes through the token stream: the emitted tokens are parsed by a recursive-descent
parser in which AND binds tighter than OR and INTERSECT tighter than UNION and EXCEPT, and the tree's meaning is the
segment's. The first filter of a card may carry a connective. If that is OR, the filters become an alternative to the
restriction to active contacts of the account; `WhereCorrectIff` gives the exact condition and `OrLeaks` the contacts
that leak. The second generator is modelled on its own and proved to be the same compiler with its own steps
(`SecondIsV2`), hence correct (`SecondCorrect`); step by step and segment by segment the two agree exactly on the shared
step types (`StepsAgreeIff`, `BackendsAgreeIff`).

The tags of a card are built to be read from left to right, each entry keeping or removing contacts. INTERSECT binds
first, so a `not in` entry removes only contacts that also have the tags of the `in` entries right behind it; that is
the meaning stated (`HasLeading`, `Kept`). It is the left-to-right chain for all data if and only if every `in` entry
repeats a tag of the leading `in` entries, or some `not in` entry names a leading tag and is followed by `in` entries of
leading tags only, in which case nobody is left either way (`ChainIff`). For any other list the contact with exactly the
leading tags is kept although the chain drops it (`OutOfChainKeeps`): with `not in A, in B`, whoever has neither tag.
A list without an `in` behind a `not in` is always the chain (`ChainWhenInOrder`).

*Campaigns.* Pages partition the audience unless a TESTAB audience fits one page: the code then starts that page at
`testabLastId` itself and sends to this contact once more (`PagesPartition`, `OnePageTest`). For A/B tests this means
that the arms, which are even and disjoint as audiences (`ArmsSplitEvenly`), overlap as queued whenever a TESTAB arm
other than the last fits one page. `ArmsAsQueued` gives the exact condition; with 10 contacts, two messages and pages
of 100, contact 5 gets both messages. The rest of the campaign overlaps with the test in the same way if it fits one
page; `CampaignAsQueued` gives the exact condition for test and rest together.

*Automations.* A split whose values add up to less than the draw leaves the message at a bucket no handler knows
(`ShortSplitSticks`). A week start of Sunday gives windows of fourteen days (`WindowsAreWeeks`).

Where code and comments disagree, the model follows the code: the comment that acks on a dead channel do nothing
(`packages/messaging/src/consumer.ts:176`) is not relied upon, and the claim that every mapping is recorded after the
commit (`apps/enterprise-import/src/importers/base.importer.ts:166`) does not extend to messages.

## Model

| member | source | states |
|---|---|---|
| Upserts.CrashResumeConverges | apps/enterprise-import/src/enterprise-import.processor.ts:144-159 | any sequence of page commits and restarts at earlier pages that gets behind the last page leaves what one uninterrupted run leaves |
| Upserts.Absorb | apps/enterprise-import/src/importers/base.importer.ts:105-164 | reprocessing a page before a run over all pages changes nothing, provided the pages before it were committed at least once |
| Upserts.AdvancePosition | apps/enterprise-import/src/importers/base.importer.ts:79-178 | committing the page at a position moves it one page on and keeps every restart at or before it convergent |
| Upserts.CommitAllPresent | apps/enterprise-import/src/importers/base.importer.ts:131-147 | a row that was there keeps its columns, overlaid by every page that has its key, the last page winning |
| Upserts.CommitAllAbsent | apps/enterprise-import/src/importers/base.importer.ts:115-129 | a new row holds what the first page with its key inserted, overlaid by the pages after that one |
| Upserts.CommitAllUntouched | apps/enterprise-import/src/importers/base.importer.ts:105-164 | a row no page mentions stays as it was |
| ImportSource.PagesRead | apps/enterprise-import/src/importers/base.importer.ts:79-178 | an importer reads up to the first empty page or the first page shorter than its batch |
| ImportSource.FullLinkPages | apps/enterprise-import/src/importers/messages.importer.ts:121-155 | of the pages of links that are read, all but the last hold a batch, which is 500 for campaigns; the last holds less or nothing follows it |
| ImportSource.OpAt | apps/enterprise-import/src/enterprise-import.processor.ts:154-158 | page i of step k sits behind all pages of the selected steps before it |
| RowTables.CollectCandidates | apps/enterprise-import/src/importers/base.importer.ts:85-94 | candidates are the first rows of the page with their natural keys, in order, each key once, without empty keys unless those are kept |
| RowTables.ImportPage | apps/enterprise-import/src/importers/base.importer.ts:105-164 | the transaction keeps ids and keys. A row whose key is on the page takes the page's value in every column the page has but its two times, and keeps the rest; an unknown key is inserted once with a fresh id, the page's values and the defaults of the columns the page left out. Keys held by soft-deleted rows are left alone, and the id of every key present is returned |
| RowTables.PageShows | apps/enterprise-import/src/importers/base.importer.ts:105-164 | up to ids, the transaction of a page is the commit of that page's upserts |
| RowMapping.BuildRow | apps/enterprise-import/src/importers/base.importer.ts:213-251 | whatever the order of the record's keys, a column takes the record's value under its property name, failing that the one under its database name, unless that is another column's property name; nulls are dropped, the primary key is left out and the account is forced |
| IdMapping.IdMapper.LoadFromDb | apps/enterprise-import/src/id-mapper.service.ts:20-27 | afterwards the cache is the mapping table |
| IdMapping.IdMapper.Record | apps/enterprise-import/src/id-mapper.service.ts:29-36 | the cache takes the new value, the table keeps its first one |
| LinkTables.LookupIsKeyOf | apps/enterprise-import/src/id-mapper.service.ts:38-43 | with the entity complete in the id map, a lookup succeeds exactly for a source id the step imports, and leads to the row with its natural key |
| ImportTarget.RecordKeeps | apps/enterprise-import/src/importers/base.importer.ts:166-170 | recording an entity row keeps every mapping sound and cache and table in agreement |
| ImportTarget.ParentResolved | apps/enterprise-import/src/pipeline.ts:37-38 | when a step starts, the cache maps exactly the importable rows of every selected entity before it, each to its row |
| ImportTarget.SameRowsUpToIds | apps/enterprise-import/src/importers/base.importer.ts:105-164 | two accounts that show the same cells hold the same rows up to ids |
| ImportTarget.Job.Advance | apps/enterprise-import/src/importers/base.importer.ts:105-178 | committing page i of step k advances the whole run by one page |
| ImportTarget.Job.Finished | apps/enterprise-import/src/enterprise-import.processor.ts:62-70 | with every page behind the worker the account shows what one uninterrupted run leaves |
| ImportOutcome.LastPageWins | apps/enterprise-import/src/importers/base.importer.ts:131-147 | in what an uninterrupted run leaves, a column of an entity's row has the value of the last page that gives it one, whatever was there before; only the two times are exempt |
| ImportOutcome.OldColumnStays | apps/enterprise-import/src/importers/base.importer.ts:141-145 | a row that was there keeps its times and every column no page gives a value for; a message keeps all its columns |
| ImportOutcome.NewColumn | apps/enterprise-import/src/importers/base.importer.ts:112-129 | a new row takes its creation time, and a message every column, from the first page that has its key; a column no page gives a value for takes its default, if it has one |
| ImportOutcome.LinkJoined | apps/enterprise-import/src/importers/contact-tags.importer.ts:49-80 | a link on a page of a chosen step, both sides of which are imported, joins their rows |
| ImportOutcome.NotChosenUntouched | apps/enterprise-import/src/enterprise-import.processor.ts:150-157 | a step that was not chosen leaves its rows and its links as they were |
| ImportOutcome.NoMessagesUntouched | apps/enterprise-import/src/importers/messages.importer.ts:110-113 | a source without messages leaves messages and their links to campaigns as they were |
| ImportTarget.CommitKeeps | apps/enterprise-import/src/importers/base.importer.ts:105-164 | the commit of any page keeps rows, links, mappings, checkpoint and position consistent |
| ImportTarget.CheckpointKeeps | apps/enterprise-import/src/importers/base.importer.ts:173 | moving the checkpoint to the page just done keeps every restart safe, since what precedes it is mapped in the table |
| ImportTarget.BurnKeeps | apps/enterprise-import/src/importers/base.importer.ts:105-130 | a rolled back transaction only costs ids |
| ImportProgress.ParentsReady | apps/enterprise-import/src/importers/contact-tags.importer.ts:49-64 | while a link step runs, both parents are complete in the id map, their tables have one row per key, and each mapping leads to the row of its key |
| ImportProgress.FreshResolves | apps/enterprise-import/src/importers/messages.importer.ts:92-115 | after the last page of messages every message mapping in the cache points to the row of its name, whatever dangled before |
| ImportProgress.MessageMappingMayDangle | apps/enterprise-import/src/importers/messages.importer.ts:92-103 | a message of the page without a mapping row, recorded before its transaction rolls back, leaves a mapping row that points nowhere exactly if its name was not in the table; the state is otherwise sound |
| ImportWorker.ImportJob.UpsertMessages | apps/enterprise-import/src/importers/messages.importer.ts:50-103 | a page transaction that survives maps its messages to committed rows; one that is cut short leaves new mapping rows that dangle exactly for messages the table does not have |
| ImportProgress.Restarted | apps/enterprise-import/src/enterprise-import.processor.ts:88-94 | a new process that loads the mappings and goes back to the checkpoint finds everything it relies on |
| LinkTables.CollectPairs | apps/enterprise-import/src/importers/contact-tags.importer.ts:49-64 | the pairs are exactly the pairs of ids the page's links resolve to, each once with the columns of its first link, and so mirror the page's pairs of natural keys |
| LinkTables.StorePage | apps/enterprise-import/src/importers/contact-custom-fields.importer.ts:64-80 | without a unique constraint no pair is stored twice; a stored pair takes the page's columns if the step refreshes and is otherwise untouched, unknown pairs are appended |
| LinkTables.StoreMirrors | apps/enterprise-import/src/importers/contact-tags.importer.ts:66-80 | up to ids, storing a page merges its natural-key pairs, so every stored pair joins existing rows |
| LinkTables.SameLinksUpToIds | apps/enterprise-import/src/importers/contact-tags.importer.ts:66-80 | two join tables that mirror the same cells join the same keys with the same columns |
| ImportWorker.ImportJob.ImportEntityPage | apps/enterprise-import/src/importers/base.importer.ts:79-178 | a page that survives is committed, fully mapped and, if it has rows with keys, checkpointed as the page done last; one that dies leaves a state from which a restart converges |
| ImportWorker.ImportJob.RunEntity | apps/enterprise-import/src/importers/base.importer.ts:75-178 | reads exactly the pages there are, from the resumed page on, and hands over to the next step |
| ImportWorker.ImportJob.ImportLinkPage | apps/enterprise-import/src/importers/contact-tags.importer.ts:37-92 | a page of links that survives is stored and checkpointed as the page done last |
| ImportWorker.ImportJob.RunLinks | apps/enterprise-import/src/importers/contact-custom-fields.importer.ts:31-94 | the same for the pages of a join table |
| ImportWorker.ImportJob.RunMessages | apps/enterprise-import/src/importers/messages.importer.ts:35-156 | starts over at page 1, maps messages inside the transaction, then links campaigns; without messages it links nothing |
| ImportWorker.ImportJob.RunPipeline | apps/enterprise-import/src/enterprise-import.processor.ts:144-159 | skips to the checkpointed step and runs every selected step from there |
| ImportWorker.ImportJob.Process | apps/enterprise-import/src/enterprise-import.processor.ts:42-94 | a process takes up the work at the page checkpointed last, or at the first page of messages; it completes unless it is killed, and then leaves exactly the expected rows and links; one that is killed leaves a state the next can resume |
| ImportWorker.ImportJob.Run | apps/enterprise-import/src/enterprise-import.processor.ts:62-85 | over any number of deaths at any durable write, a completed job holds exactly what one uninterrupted run leaves, and it completes within one attempt more than there are deaths |
| ImportWorker.ImportJob.RecordPage | apps/enterprise-import/src/importers/base.importer.ts:166-170 | afterwards every importable row of the page has its mapping, in cache and table alike; killed in between, the mappings made so far are sound |
| ImportWorker.ImportJob.RecordMessages | apps/enterprise-import/src/importers/messages.importer.ts:92-103 | inside the transaction every message of the page is mapped anew to the row the transaction is about to commit |
| StepDependencies.Expansion.Add | apps/enterprise-import/src/step-dependencies.ts:19-23 | terminates on every graph, adds the step and only steps it needs, each with its parents |
| StepDependencies.ExpandSelectedSteps | apps/enterprise-import/src/step-dependencies.ts:16-26 | the least set closed under parents that holds the selection; no selection means every step |
| StepDependencies.PipelineWellFormed | apps/enterprise-import/src/pipeline.ts:37 | the pipeline order is topological and every selection, once expanded, has its parents selected and in front |
| EmailTemplates.TemplateRow.Customize | apps/enterprise-import/src/importers/email-templates.importer.ts:23-34 | a record without id stays; otherwise source name and mapped name both become the source name or, failing that, the mapped one: unchanged if it ends with a blank, a hash sign and the id, else cut to leave room for these within 255 characters and followed by them |
| EmailTemplates.StableNameIdempotent | apps/enterprise-import/src/importers/email-templates.importer.ts:28-29 | importing a template again does not change its name |
| EmailTemplates.StableNameFits | apps/enterprise-import/src/importers/email-templates.importer.ts:28-29 | the name fits 255 characters exactly when the original did or was cut |
| EmailTemplates.StableNamesDistinct | apps/enterprise-import/src/importers/email-templates.importer.ts:26-32 | different ids give different names, whatever the originals |
| Backoff.BackoffIsCappedDoubling | packages/messaging/src/retry.ts:1-13 | the guards against overflow are invisible: the delay is the capped power of two |
| Backoff.BackoffMonotone | packages/messaging/src/retry.ts:1-13 | delays never shrink from one attempt to a later one |
| Backoff.BackoffCapped | packages/messaging/src/retry.ts:1-13 | the cap holds exactly unless the base is not positive and the cap negative |
| Lineage.RetriedCirculates | packages/messaging/src/consumer.ts:284-308 | a retried copy counts one more attempt, keeps the first error, notes the last one and its delay, and may be handled again |
| Lineage.ExhaustedIsDead | packages/messaging/src/consumer.ts:288-291 | the copy that is dead-lettered was handled exactly as often as allowed |
| Conservation.ReachableDelaysRise | packages/messaging/src/consumer.ts:294-308 | in every reachable state the delays behind each message, wherever it is, never shrink and stay within the cap |
| Conservation.StepConserves | packages/messaging/src/consumer.ts:207-337 | every step keeps, for each message, places equal to published plus duplicated |
| Conservation.StepKeepsChannels | packages/messaging/src/consumer.ts:63-66 | a channel implies a publish channel, through start and every stage of shutdown |
| Conservation.RunKeepsInvariant | packages/messaging/src/consumer.ts:94-337 | in every reachable state channels, letters, books and headers are in order |
| Conservation.ExactlyOnePlace | packages/messaging/src/consumer.ts:207-337 | a message published once and never duplicated is in exactly one place |
| Conservation.LossesIff | packages/messaging/src/consumer.ts:301-336 | a step loses a message exactly if it is a retry timer dropped by shutdown or a republish that fails |
| Conservation.ChannelAlwaysThere | packages/messaging/src/consumer.ts:316-345 | the guards against a missing publish channel never drop a message |
| Conservation.DuplicatesIff | packages/messaging/src/consumer.ts:107-122 | a step makes a second copy exactly if it closes the channel on a stored letter not yet acked, or stores a letter after the channel is gone |
| Conservation.AckedOnlyWhenSafe | packages/messaging/src/consumer.ts:245-292 | an exhausted message is acked only once its letter is in the dead-letter queue |
| Conservation.DeadLettersTell | packages/messaging/src/consumer.ts:339-374 | a dead letter never parsed, or was handled as often as allowed, which is once and as often again as its attempt number at publication, 1 if it had none, is below the maximum; it carries its first error |
| Conservation.HandledAtMost | packages/messaging/src/consumer.ts:267-292 | a message at its handler has failed fewer times than it may be handled, and its attempt number counts those failures |
| History.FailureTold | packages/messaging/src/consumer.ts:245-337 | the same of the step itself |
| History.DeadLetterHistory | packages/messaging/src/consumer.ts:279-374 | over every run, a dead letter of a message published once and never duplicated lists the errors of that message's failed handlings in the order in which they happened; its headers carry the first, unless it was published with one, and the last |
| Consumer.AmqpConsumer.HandleMessage | packages/messaging/src/consumer.ts:207-228 | is the protocol's receive step: the message is handed to the handler, or starts a dead-letter publish with its parse error added and nothing else |
| Consumer.AmqpConsumer.HandlerEnded | packages/messaging/src/consumer.ts:237-260 | is the protocol's step for each outcome. A thrown error, or the text for a nack, becomes the last error of the copy that waits for its retry or goes to the dead-letter queue, and the first one if there was none; the attempt goes up only for a retry. Other outcomes settle the delivery |
| Consumer.AmqpConsumer.TimerFired | packages/messaging/src/consumer.ts:301-306 | republishes, or drops the retry during shutdown |
| Consumer.AmqpConsumer.DrainTimedOut | packages/messaging/src/consumer.ts:139-144 | drops exactly the pending retries |
| Consumer.AmqpConsumer.ChannelClosed | packages/messaging/src/consumer.ts:107-114 | gives every unacked message back to the queue |
| Sql.CondRoundTrip | packages/segment-query-builder/src/generator-v1.ts:31-72 | every condition can be read back with AND tighter than OR |
| Sql.QueryRoundTrip | packages/segment-query-builder/src/generator-v1.ts:316-338 | every query can be read back with INTERSECT tighter than UNION and EXCEPT |
| Sql.StatementRoundTrip | packages/segment-query-builder/src/generator-v1.ts:334-344 | every statement, with its limit and drops, has exactly one reading |
| StepMeaning.StepRenders | packages/segment-query-builder/src/generator-v1.ts:73-314 | a step emits a conjunction, even where it emits no brackets |
| StepMeaning.StepHolds | packages/segment-query-builder/src/generator-v1.ts:73-314 | that conjunction holds of a contact and device exactly when the step means them |
| Compilation.BodyRenders | packages/segment-query-builder/src/generator-v1.ts:66-71 | the bracket of a card holds the OR of the ANDs of its filters, split at OR |
| Compilation.BodyHolds | packages/segment-query-builder/src/generator-v1.ts:66-71 | and means one of the alternatives, all of whose filters hold |
| Correctness.WhereMeans | packages/segment-query-builder/src/generator-v1.ts:55-69 | a card's WHERE clause restricts the active contacts of the account by the filters, or widens them if the first filter carries OR |
| Correctness.WhereCorrectIff | packages/segment-query-builder/src/generator-v1.ts:66-68 | it is right for all data exactly when the first filter does not carry OR |
| Correctness.OrLeaks | packages/segment-query-builder/src/generator-v1.ts:66-68 | a card whose first filter carries OR returns every contact of any account that passes its filters |
| Correctness.TagsRender | packages/segment-query-builder/src/generator-v1.ts:322-329 | the select and the tags are one query in which INTERSECT binds first |
| Correctness.TailOfHolds | packages/segment-query-builder/src/generator-v1.ts:322-329 | a `not in` tag removes the contacts that also have the `in` tags right behind it |
| Correctness.ChainIff | packages/segment-query-builder/src/generator-v1.ts:322-329 | the tags mean the left-to-right chain for all data exactly if every `in` entry repeats a leading tag or the leading tags already contradict a `not in` entry |
| Correctness.OutOfChainKeeps | packages/segment-query-builder/src/generator-v1.ts:322-329 | for every other list the contact with exactly the leading tags is kept although the chain drops it |
| Correctness.ChainWhenInOrder | packages/segment-query-builder/src/generator-v1.ts:322-329 | without an `in` behind a `not in` the tags mean the left-to-right chain |
| Correctness.BlankAnd | packages/segment-query-builder/src/generator-v1.ts:186-190 | a user field that was never completed, joined by AND, filters nothing |
| Correctness.BlankOr | packages/segment-query-builder/src/generator-v1.ts:186-190 | as an alternative of its own it lets every contact pass the card's filters |
| Correctness.EmittedParses | packages/segment-query-builder/src/generator-v1.ts:30-344 | the tokens of a well-formed segment parse, to one statement |
| Correctness.CompilerCorrect | packages/segment-query-builder/src/generator-v1.ts:25-345 | the parsed statement inserts exactly the contacts the segment means, limited as asked |
| Generator.Generate | packages/segment-query-builder/src/generator-v1.ts:25-345 | the loops emit the statement and the external steps of the specification |
| Generator.EmitSteps | packages/segment-query-builder/src/generator-v1.ts:36-315 | what the inner loop appends, counts and remembers, with the placeholder replaced once a step asks for the join |
| Generator.ReplaceHole | packages/segment-query-builder/src/generator-v1.ts:78 | replacing the first placeholder touches nothing else |
| Generator.CardsHaveNoHole | packages/segment-query-builder/src/generator-v1.ts:316 | no placeholder is left in the query |
| Structure.OnePlaceholder | packages/segment-query-builder/src/generator-v1.ts:51-60 | while a card is written there is one placeholder until the join is asked for, and never more |
| Structure.JoinOnceIffAsked | packages/segment-query-builder/src/generator-v1.ts:73-82 | a card gets the devices join exactly once if one of its steps asks for it, else never |
| Structure.JoinForDevices | packages/segment-query-builder/src/generator-v1.ts:73-142 | a card whose tokens read the devices has their join exactly once; a card has the join only if it reads the devices or filters by web push |
| Structure.TablesInOrder | packages/segment-query-builder/src/generator-v1.ts:95-101 | external tables are pairwise distinct and each is looked into exactly once, in order |
| Structure.EventTables | packages/segment-query-builder/src/generator-v1.ts:108-160 | an event of messages needs no table in the first generator if any message will do and once is enough, and otherwise one: of views for once, of counts, dropped in the end, for more often |
| Brackets.BracketsBalance | packages/segment-query-builder/src/generator-v1.ts:316-338 | brackets balance for every segment of non-empty cards, well-formed or not |
| Backends.GenerateV2 | packages/segment-query-builder/src/generator-v2.ts:23-325 | the second generator's loops emit the compiler's statement and external steps, and for a well-formed segment whose cards do not start with OR a statement that inserts exactly the contacts it means |
| Backends.SecondIsV2 | packages/segment-query-builder/src/generator-v2.ts:36-324 | for every segment that text is what the compiler emits with the second file's steps |
| Backends.SecondCorrect | packages/segment-query-builder/src/generator-v2.ts:23-325 | so the second generator's statement parses to what the segment means over its own tables |
| Backends.StepsAgreeIff | packages/segment-query-builder/src/generator-v2.ts:78-294 | a step has the same predicate and external step in both generators exactly if it is no event of single messages and no automation state of yesterday |
| Backends.BackendsAgreeIff | packages/segment-query-builder/src/generator-v2.ts:56-324 | both generators emit the same statement and the same external steps exactly for segments of such steps |
| Paging.Campaign.CreateBatches | apps/campaign-packer/src/campaign/campaign.service.ts:65-171 | queues the pages of the boundaries, in both modes, with the ranges the code computes; nothing on a duplicate or an empty audience |
| Paging.QueueRest | apps/campaign-packer/src/campaign/campaign.service.ts:115-157 | the loop and the page behind it queue every further boundary once, each page starting where the next lower one ends |
| Paging.PagesPartition | apps/campaign-packer/src/campaign/campaign.service.ts:88-157 | the pages hold every selected contact exactly once and nobody else, at most `limit` each, numbered from 1, exactly unless it is a one-page TESTAB whose `testabLastId` is a contact |
| Paging.PagesFull | apps/campaign-packer/src/campaign/campaign.service.ts:88-157 | there are as few pages as the page size allows, and all but the first, which holds the last contacts, are full |
| Paging.OnePageTest | apps/campaign-packer/src/campaign/campaign.service.ts:110-112 | such a page holds that contact once more, in front of the audience |
| Paging.GetLimit | apps/campaign-packer/src/msgops/msgops.service.ts:122-131 | a page is the smallest that sends the audience within the spread, one a minute, if that is less than a batch, and a batch otherwise |
| Audience.PickedSpaced | apps/campaign-packer/src/msgops/msgops.service.ts:99-115 | the boundary query returns the last row first and no two boundaries further apart than a page |
| Audience.PickedExactly | apps/campaign-packer/src/msgops/msgops.service.ts:99-115 | the boundaries are the last row and, below it, every multiple of a page |
| TestArms.TestIsPrefix | apps/campaign-packer/src/msgops/msgops.service.ts:203-221 | the test takes the first rows of the audience, at least one |
| TestArms.TestTakes | apps/campaign-packer/src/msgops/msgops.service.ts:203-221 | the test takes the first contact and the given percentage of the others, rounded down |
| TestArms.ArmsExactly | apps/campaign-packer/src/msgops/msgops.service.ts:225-228 | there are as many arms as messages exactly when `(k-1)q < c`; they then end at c, (k-1)q, ..., q |
| TestArms.EnoughForAllArms | apps/campaign-packer/src/msgops/msgops.service.ts:225-228 | more than k(k-1)/2 contacts are enough for that |
| TestArms.ArmsSplitEvenly | apps/campaign-packer/src/campaign/campaign.service.ts:288-299 | the audiences meant for the arms cover the test, each contact in one of them, all but one of size q and that one between k/2 below and less than k/2 above it |
| QueuedArms.ArmAsQueued | apps/campaign-packer/src/campaign/campaign.service.ts:104-114 | an arm's queued pages partition its audience, unless it is a TESTAB arm that fits one page and is not the last: then it sends to the last contact of the arm below as well, and to nobody else |
| QueuedArms.ArmsAsQueued | apps/campaign-packer/src/campaign/campaign.service.ts:288-299 | the arms as queued reach each contact of the test exactly once if and only if the campaign is SPLIT or every arm but the last has more contacts than a page holds |
| QueuedArms.EvenArmsAsQueued | apps/campaign-packer/src/campaign/campaign.service.ts:288-299 | with an arm for every message that is: SPLIT, one message, or a first arm and (from three messages on) a rounded arm size above the page size |
| QueuedArms.SmallTestOverlaps | apps/campaign-packer/src/campaign/campaign.service.ts:110-112 | a TESTAB test of several messages that fits one page always sends to some contact twice |
| QueuedArms.CampaignAsQueued | apps/campaign-packer/src/campaign/campaign.service.ts:288-299 | test and rest together reach each contact exactly once if and only if the campaign is SPLIT, or every arm but the last and the rest, unless it is empty, have more contacts than their pages hold |
| QueuedArms.TestThenRest | apps/campaign-packer/src/campaign/campaign.service.ts:268-303 | the rest, batched from where the test says to resume, completes the test under exactly that condition |
| TestArms.CreateTest | apps/campaign-packer/src/campaign/campaign.service.ts:288-299 | each arm is batched between its own boundaries, and the campaign resumes behind the last contact of the test, which is the first contact and the given percentage of the others; there is no test without contacts or if the arms round to nobody |
| Recurrence.NextOccurrence | apps/campaign-events-tracker/src/msgops/msgops.service.ts:147-188 | terminates and returns the earliest day after the current one that is legal |
| Recurrence.LegalAhead | apps/campaign-events-tracker/src/msgops/msgops.service.ts:163-187 | there is a legal day ahead for every non-empty choice of weekdays |
| Recurrence.WeeksGrow | apps/campaign-events-tracker/src/msgops/msgops.service.ts:147-188 | weeks are counted from Sunday to Saturday: a day is no week away from itself, and every Sunday is one more |
| Walk.DefinedStep | apps/message-trigger/src/app.service.ts:463-494 | the step's children become the branch taken: the bucket at which the running total first reaches the draw, the first branch for the outcome of the condition or nothing, the picked message in front of what follows a test |
| Walk.ProcessMessage | apps/message-trigger/src/app.service.ts:159-310 | what is published is, for each type of step, a send, a delay of the step's minutes, or a trigger, with a tag in front or a request behind, and carries the branch taken, or END where nothing follows; handling throws exactly without steps, on a failing call or on an invalid wait; END publishes nothing and an unknown type is ignored |
| Walk.OneContinuation | apps/message-trigger/src/handlers/activesteps.handler.ts:6-33 | a handled message hands on exactly one continuation, the branch taken or END |
| Walk.SplitAlwaysPicks | apps/message-trigger/src/app.service.ts:471-482 | every draw takes a branch exactly when there is one and the values add up to 100 at least |
| Walk.ShortSplitSticks | apps/message-trigger/src/app.service.ts:475-481 | a draw no branch takes leaves the contact stuck |
| Walk.ReachesEnd | apps/message-trigger/src/app.service.ts:159-310 | every choice of draws, conditions and variants walks a good tree to END within its height, tests counted twice |
| Walk.DoneAtEnd | apps/message-trigger/src/app.service.ts:159-310 | a walk that is done has gone from step to branch taken, or to END where nothing follows, until it came to an END |
| SegmentLock.OneWorkerWithinTtl | apps/tag-process/src/app.service.ts:212-227 | in every interleaving at most one running worker is within its time to live |
| SegmentLock.ReleaseSparesOthers | apps/tag-process/src/app.service.ts:392-410 | a release never deletes another worker's key |
| SegmentLock.KeyExpires | apps/tag-process/src/app.service.ts:217-220 | a key left behind expires after the time to live |
| SegmentLock.Redis.Leave | apps/tag-process/src/app.service.ts:396-409 | a release that finds its key gone means the run outlasted its time to live |
| Weeks.ProcessSegmentBetweenDate | apps/tag-process/src/app.service.ts:429-457 | computes the window of the specification for every week start and day |
| Weeks.WindowsAreWeeks | apps/tag-process/src/app.service.ts:429-457 | the current week is the seven days around today and the last week the seven before, exactly for week starts other than Sunday |
| Placeholders.FormattedTimeQuery | apps/tag-process/src/app.service.ts:413-427 | both loops end, leave no placeholder and change no other character |
| Placeholders.MatchIff | apps/tag-process/src/app.service.ts:413-422 | what is matched is exactly a hash sign, a name, a group of allowed characters, a suffix and a hash sign, and the group is what is captured |
| Placeholders.TimeMatches | apps/tag-process/src/app.service.ts:414 | for time placeholders the group is one digit or more |
| Placeholders.BetweenMatches | apps/tag-process/src/app.service.ts:415 | for week placeholders it is letters, digits, underscores and commas |
| Placeholders.ExpandFirst | apps/tag-process/src/app.service.ts:417-424 | up to the first placeholder nothing changes, in its place stands the date of its group |
| Placeholders.DatesHarmless | apps/tag-process/src/app.service.ts:417-424 | the dates the two loops put in, in quotes and without a hash sign, meet what the rewriting needs |
| Placeholders.FewerHashes | apps/tag-process/src/app.service.ts:417-424 | every replacement takes hash signs away |
| Placeholders.ExpandStep | apps/tag-process/src/app.service.ts:417-424 | replacing the leftmost placeholder again and again is one pass from left to right |
| Placeholders.ReplaceCreatesNone | apps/tag-process/src/app.service.ts:417-424 | a replacement creates no placeholder of either kind |

## Left out

- Instance-scope import, raw inserts that keep primary keys, sequence advancing and orphan clean-up: a restarted
  instance job is rejected by its emptiness check.
- The target account starts with at most one row per natural key, in every table an importer fills; contacts and email
  templates have no constraint that enforces it.
- More than one import job per process: the id mapper clears the cache of all jobs. The source does not change during
  a job, and target rows are not deleted while it runs.
- Foreign-key remapping, `preflight` and importers without id mappings: no importer of the pipeline overrides them.
- `updatedAt`, progress counters and the terminal states shown to the user.
- RowMapping.BuildRow: values are text; how a value is converted for its column is the database's business.
- Paging.Campaign.CreateBatches: delays between pages, the Redis key's time to live and the choice of the winning
  message are not modelled; the pages are listed in the order of their numbers.
- Order numbers of a campaign are taken to be positive and pairwise distinct; a campaign whose contacts are added in
  several runs may break this.
- Start-up of the consumer is one step, so a shutdown that begins while the channels are still being created
  (`packages/messaging/src/consumer.ts:63-66`) is not modelled.
- A dead-letter publish that fails leaves its message unacked and the process alive; that the rejection is handled by
  nobody (`packages/messaging/src/consumer.ts:74`), which may end the process, is not modelled.
- AMQP reconnects and re-established channels: a delivery is assumed to be settled on the channel it came on.
- Several queues bound to one routing key: a republish reaches every bound queue, the model has one.
- Backoff.BackoffIsCappedDoubling: base and cap are integers; fractional milliseconds are not modelled.
- Lineage.RetriedCirculates: attempt headers are integers, so a fractional header value is not modelled.
- SQL text of predicates, quoting, the ClickHouse subqueries and placeholder-like text inside user values: predicates
  other than TRUE and external queries are opaque. A user field whose date does not parse, and a custom field without a
  value, make the code throw; the model has no such values.
- Correctness.CompilerCorrect: the result is stated as a set of contacts; which contacts a LIMIT keeps is open.
- Generator.Generate: carries a backend parameter, which the meaning of a step shares; the second generator is
  modelled on its own in `GeneratorV2` and proved to be the compiler with that parameter.
- TestArms.TestIsPrefix: the percentage is an integer, so the rounding of its binary quotient is not modelled.
- Recurrence.NextOccurrence: days are numbers; time zones and daylight saving are not modelled, and the present is a
  day before which nothing may be sent.
- Walk.ReachesEnd: the stop flags in Redis, which end a contact's walk before its END, are not modelled; conditions
  are given booleans and a conditional on time hands on at once; what a failing call has already published is not
  modelled.
- Walk.PickSplit: an entry below a split that is no bucket has no value; it counts as zero here, while in the code every
  later comparison fails.
- SegmentLock.OneWorkerWithinTtl: tokens are assumed to be unique, as random UUIDs are.
- HTTP, REST clients, database drivers, analytics, frontend and module wiring.
