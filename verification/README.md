# meow-rs verification model

A Dafny model of the parts of meow-rs whose correctness spans several
functions or several tasks, with proofs over every input and every run.
`dafny verify dfyconfig.toml` checks the whole project.

The centre is the **configuration-commit protocol**. `CommitState.dfy` is a
transition system over the committed document, the route table's registry
generation and the two provider registries, the three resolver consumers, the
TUN listeners with the handle slot and the boot listener, the installed
outbound-interface bindings, and the lane holder with its local copies. A step
is one action between two points where another task may run: one publication
inside the synchronous part of a commit, or the stretch between two awaits.
`rebuild_from_raw_runtime`, `parse_dns_from_raw`, `parse_tun_config`, the
section edits and the fake-IP inputs of a dns section are functions of an
environment `Env`; binds, spawns, rebuilds and listener exits succeed or fail
in every possible way; a handler may be dropped at every await.

- `CommitResolvers.dfy`: registry generations, the resolver against the
  committed document, the price of forcing, the rule for skipping a DNS
  rebuild, geodata refreshes.
- `CommitTun.dfy`: what the document says about TUN against what runs.
- `CommitCuts.dfy`: which handlers can be dropped at an await and leave that
  true, at once and for good.
- `CommitLog.dfy`: serialisability, subscription content, due times.
- `CommitRejections.dfy`: rejected mutations, bindings left behind, and geodata
  ticks whose parse fails.
- `CommitOutcomes.dfy`: one mutation from entering the lane to leaving it: which
  failures reject it, and everything a completed one has published.
- `CommitRestarts.dfy`: when a commit restarts the TUN listener, exactly.
- `CommitStrays.dfy`: listeners nobody could stop any more, exactly.
- `CommitBindings.dfy`: the outbound-interface binding of a mutation from its
  first dial to the end of the spawn.
- `CommitCandidates.dfy`: what each mutation changes in the document, entry by
  entry and section by section, and that every run follows it.
- `CommitExceptions.dfy`: runs showing that the hypotheses are needed.
- `DnsInputs.dfy`, `PublishDns.dfy`, `ProviderCommit.dfy`,
  `OutboundBinding.dfy`, `Contributions.dfy`: parts of the protocol at the
  level of the code that updates them.

The **domain set** of an MRS file is modelled from the entries through the
succinct trie, the byte form and the reader to the text lines: `Ordering.dfy`,
`Bitmaps.dfy`, `DomainSet.dfy`, `DomainSetWriter.dfy`, `DomainSetReader.dfy`,
`WireFormat.dfy`, `DomainSetBody.dfy`, `DomainText.dfy`, `DomainRunes.dfy` (the
characters of a stored key), `DomainLines.dfy`, `DomainSetRoundTrip.dfy`. What
an entry means is the rule matcher's label trie: `DomainPatterns.dfy` for
patterns, `DomainTrie.dfy` for insertion and the walk of a search,
`DomainCoverage.dfy` for what compaction does to the names matched.

Smaller protocols: `SamplerFeed.dfy` (shared sampler), `PacketIds.dfy`
(compare-and-exchange allocator), `ServiceLifecycle.dfy` (Windows service),
`ExecStart.dfy` (path settings of the systemd unit). `Sequences.dfy` and
`Wrappers.dfy` are shared.

## Properties that fail as stated, and exactly when they hold

- The comment on `publish_tun_if_committed` says that a stored boot listener
  cannot hold other fake-IP inputs than the resolver's. A listener reads them
  before it waits for the previous network core, so it can. A geodata tick or a
  background refresh after a forced commit, and a handler dropped after it
  changed them, can leave a running listener behind, too.
  `CommitTun.FakeIpExactFromBoot` is exact over all runs;
  `CommitExceptions.StaleBootListener` and `CommitExceptions.ForcedBreaksFakeIp`
  are runs.
- A handler dropped between the write of the document and the end of the TUN
  reconcile can leave an enabled section with nothing stored, or a listener the
  document no longer asks for, at once or when startup later refuses its own
  listener. `CommitCuts.CutExact` says exactly which handlers of which runs,
  over everything that can run after them, and `CommitCuts.CutInputsExact` the
  same of the fake-IP inputs. `CommitExceptions.CutBreaksTun`,
  `CommitExceptions.CutBreaksLater` and `CommitExceptions.CutInputsBreakLater`
  are runs. Resolver and generation claims survive every cut, since the
  synchronous part has no await.
- A handler dropped while it waits for its listener leaves the listener running
  with nobody to stop it, and nothing else does: `CommitStrays.StraysExact`.
- A forced document can leave the resolver behind:
  `CommitResolvers.ForcedRebuildExact` and `CommitResolvers.ForcedParseExact` say
  exactly when, `CommitExceptions.ForcedBreaksResolver` is a run.
- The failure stamps of the refresh loop look an entry up by name alone, so a
  re-pointed entry can be stamped for its old url: `CommitLog.StampExact`,
  `CommitLog.StampHitsRepointed`.
- Compaction promises equal coverage. It loses names when the bare twin starts
  with `+.` or `*.`, or with any blank of Unicode and is accepted, and gains one when
  the bare twin is just `+.` or `*.`, which the trie rejects.
  `DomainCoverage.MergeExact` is exact for one pair,
  `DomainCoverage.CoverageExact` for a whole list, on the counts of its entries;
  `PlusLost`, `StarLost`, `BlankLost` and `BareGained` are the families.
- The writer's body for the single empty entry is refused by the reader:
  `DomainSetRoundTrip.BodyReadsBack`.
- StartPending is not told only while the Windows service is starting: the main
  thread tells it after a stop that came before its first report, and only
  then: `ServiceLifecycle.LateReportExact`.

## Model

| member | source | states |
|---|---|---|
| `CommitState.FindNamed` | crates/meow-api/src/routes.rs:2353-2358 | the first entry of a name, or none exists |
| `CommitState.FindSource` | crates/meow-app/src/subscription_refresh.rs:196-204 | the first entry of that name fed from that url, or none exists |
| `CommitResolvers.GenerationLiveness` | crates/meow-api/src/routes.rs:1514-1538 | at every step of every unforced run, cut or not, a resolver with runtime references held by tunnel, host hook or DNS server belongs to a generation owned by the route table or the commit in flight |
| `CommitResolvers.ResolverMatchesCommitted` | crates/meow-api/src/routes.rs:1954-1998 | whenever the lane is free, all consumers serve one resolver, built from the committed dns section and, if that has references, from the objects they name, and bound to the live generation then; the host hook holds it exactly if DNS is enabled |
| `CommitResolvers.SkipIsExact` | crates/meow-api/src/routes.rs:1902-1952 | at the point of decision, the rebuild is skipped if and only if rebuilding would give the same resolver |
| `CommitResolvers.GeodataPaired` | crates/meow-app/src/geodata_fetch.rs:58-106 | cut anywhere, a geodata refresh reached rules and resolver or neither, or its parse failed and only the rules changed |
| `CommitRejections.FailedTickKeepsResolver` | crates/meow-app/src/geodata_fetch.rs:58-106 | a tick whose parse fails leaves tunnel, hook, DNS server, routes, registries, document and slot as they were, whatever listeners do meanwhile |
| `CommitResolvers.RunKeepsResolvers` | crates/meow-api/src/routes.rs:3840-3853 | the switch-all-consumers-then-swap order keeps the resolver invariant over every run |
| `CommitResolvers.RegistriesFollowRoutes` | crates/meow-api/src/routes.rs:1538-1556 | at every point of every run, forced and cut ones too, both provider registries belong to the live routes |
| `CommitResolvers.ForcedRebuildExact` | crates/meow-api/src/routes.rs:3692-3722 | at every reachable point, a forced document of which nothing builds matches the resolver once written if and only if it has the old dns inputs |
| `CommitResolvers.ForcedParseExact` | crates/meow-api/src/routes.rs:3790-3832 | a forced document whose dns section does not parse never matches a kept resolver, kept because it has no references or because the stripped parse failed too, and matches the stripped one if and only if stripping changes no input |
| `CommitTun.TunTruthfulness` | crates/meow-api/src/routes.rs:3136-3379 | at every lane-free point of every run whose dropped handlers could be dropped, forced or not: a running stored listener is enabled and built from the parse of the committed section, and an enabled section has a handle once startup is over; without a forced commit its fake-IP inputs are the resolver's unless a dropped handler had changed them or the boot listener was overtaken |
| `CommitCuts.CutExact` | crates/meow-api/src/routes.rs:3201-3379 | for every handler of every run dropped at any await: the section tells the truth at once if and only if the handler owed the listener nothing, and at every later lane-free point of every continuation if and only if also a boot listener about to fill the slot is the one it asks for; else listeners and startup alone break it |
| `CommitCuts.CutInputsExact` | crates/meow-app/src/main.rs:2036-2087 | the same of the fake-IP inputs: at once exactly if they did not change under a running listener, and left alone for good exactly if also a boot listener about to be stored captured no others |
| `CommitCuts.UnowedIsSafe` | crates/meow-api/src/routes.rs:3201-3379 | runs in which no handler that owed a reconcile is dropped meet the hypotheses of `TunTruthfulness` |
| `CommitTun.FakeIpExactFromBoot` | crates/meow-app/src/main.rs:2036-2087 | over every run, forced and cut ones too: the fake-IP inputs are right at every lane-free point if and only if no boot listener with outdated inputs is stored and no lane holder leaves a running listener alone over a change of them |
| `CommitTun.NothingOwed` | crates/meow-api/src/routes.rs:3164-3193 | a listener that is left alone is the one the new document and resolver ask for; `CommitRestarts.RestartExact` says when it is |
| `CommitRestarts.RestartExact` | crates/meow-api/src/routes.rs:3164-3379 | every mutation that reconciles, from any free lane and whatever others do meanwhile, starts a listener if and only if the new section is on and the old one was off, or the resolvers' gateway or network differ, or section, connection limit or fake-IP range changed and so did what they parse to, or one does not parse; then, or when the section goes off, the stored listener is stopped and replaced, otherwise the lane touches neither slot nor listeners |
| `CommitRestarts.OthersLeaveTun` | crates/meow-api/src/routes.rs:1583-1598 | a geodata tick, a background refresh, and every mutation rejected or dropped before the write never touch slot or listeners |
| `CommitStrays.StraysExact` | crates/meow-api/src/routes.rs:3281-3341 | over every run, forced or not: each listener that runs is the stored one, the awaited one or the undecided boot listener, if and only if no handler was dropped while the listener it waited for ran |
| `CommitStrays.OnlyOnStarts` | crates/meow-api/src/routes.rs:3010-3022 | over every run no listener is started from a section that parses but is off |
| `CommitRestarts.BootOutcome` | crates/meow-app/src/main.rs:2050-2087 | whatever others do meanwhile, startup stores its listener if and only if the section is on, parses to what the listener was built from and the listener still runs; one not asked for is stopped and the document left alone, one that is gone switches the section off unless another runs |
| `CommitRestarts.FailedBootOutcome` | crates/meow-app/src/main.rs:2016-2034 | a startup whose listener failed switches the section off unless another runs, and nothing else |
| `CommitExceptions.StaleBootListener` | crates/meow-listener/src/tun/mod.rs:442-445 | a run that stores a boot listener with outdated fake-IP inputs |
| `CommitExceptions.CutBreaksTun` | crates/meow-api/src/routes.rs:3333-3341 | a run cut after the document was written that leaves `enable` without a handle |
| `CommitExceptions.CutBreaksLater` | crates/meow-app/src/main.rs:2056-2075 | a patch dropped during bring-up leaves the section true until startup refuses its listener |
| `CommitExceptions.CutInputsBreakLater` | crates/meow-app/src/main.rs:2056-2075 | a `PUT` dropped before it spawns leaves the fake-IP inputs true until startup stores a listener with the old ones |
| `CommitExceptions.ForcedBreaksResolver` | crates/meow-api/src/routes.rs:3692-3722 | a forced commit of which nothing builds leaves the resolver behind the document |
| `CommitExceptions.ForcedBreaksFakeIp` | crates/meow-app/src/geodata_fetch.rs:58-106 | a geodata tick after such a commit leaves the running listener with outdated fake-IP inputs |
| `CommitLog.Serialisability` | crates/meow-api/src/routes.rs:132 | whenever the lane is free, the document is the finished mutations run one at a time, whatever was interleaved, cut or forced; `CommitCandidates.DocumentFollowsLaw` says what each of them is |
| `CommitLog.LogFollowsLane` | crates/meow-api/src/routes.rs:940-1007 | the log followed by the lane holder lists the mutations and the startup task's own lane entries in the order they entered, each once |
| `CommitCandidates.CandidateLaw` | crates/meow-api/src/routes.rs:2182-2390 | add, delete, refresh, edit, patch, rewrite and stamp: turned away at once exactly if the name is taken, unknown, re-pointed or doubled or the section does not parse, and otherwise the live document with exactly its own change, entry by entry and section by section |
| `CommitCandidates.DocumentFollowsLaw` | crates/meow-api/src/routes.rs:1574-1600 | every mutation from any free lane, whatever others do and however it ends, logs one entry and leaves a document that follows its law: in full, but for the switch if its listener failed, or not at all if it was rejected or dropped before the write |
| `CommitOutcomes.CommitPublishes` | crates/meow-api/src/routes.rs:1500-1562 | a completed rebuild leaves the candidate as the document, the routes and registries of its own rebuild, and, if the resolver was due, the one built from the candidate in tunnel, hook and DNS server; otherwise all three as they were |
| `CommitOutcomes.FailedBuildRejects` | crates/meow-api/src/routes.rs:3640-3832 | every unforced mutation whose rebuild fails, whose rewritten section does not parse, or whose resolver was due and does not parse, ends rejected at that step |
| `CommitOutcomes.CompletedWasBuilt` | crates/meow-api/src/routes.rs:3640-3832 | a completed unforced mutation had its rebuild succeed, no build fail and, for a rewrite, a section that parses |
| `CommitRejections.RejectionChangesNothing` | crates/meow-api/src/routes.rs:3506-3832 | in every run, a mutation that ends rejected, at once or after any steps of its own and others, leaves document, routes, all consumers, both provider registries and the slot as they were, and exactly the bindings that were there plus those listeners installed meanwhile; the background refresh leaves only its stamp; `CommitOutcomes.FailedBuildRejects` says which failures reject |
| `CommitRejections.NoLateRejection` | crates/meow-api/src/routes.rs:1500-1538 | nothing is rejected once the first consumer was switched |
| `CommitRejections.GuardsDropped` | crates/meow-api/src/lib.rs:141-145 | over every run, cut, forced or rolled back, a free lane holds no binding |
| `CommitRejections.RejectionRestoresBinding` | crates/meow-api/src/lib.rs:141-145 | in every run, a mutation that ends rejected gives the interface in effect back unless a listener went away or installed its own meanwhile |
| `CommitBindings.BindingInEffect` | crates/meow-api/src/routes.rs:3281-3311 | in every run, for every mutation and every point up to its end at which listeners installed nothing themselves: the interface it installed is in effect until the spawn and then as long as the new listener lives; one that starts no listener leaves the bindings it found, one that does adds exactly its own |
| `CommitBindings.BindsExactly` | crates/meow-api/src/lib.rs:156-174 | a mutation may enter the lane with a binding exactly if its candidate asks for a global route; a patch only if it changes the section, a tick, a background refresh or a stamp never |
| `CommitBindings.EffectiveExact` | crates/meow-common/src/outbound_iface.rs:50-57 | the newest binding whose holder is there is in effect, and none is exactly if no holder is |
| `CommitBindings.NobodyHoldsTwo` | crates/meow-api/src/routes.rs:3281-3311 | over every run no holder has two bindings, so a listener that was handed one installs none of its own |
| `CommitLog.ContentMatchesUrl` | crates/meow-api/src/routes.rs:2346-2383 | at every point of every run, no entry carries content fetched from another url |
| `CommitLog.NeverResurrected` | crates/meow-app/src/subscription_refresh.rs:183-220 | a removed subscription stays absent until a full rewrite or an add of its name enters the lane |
| `CommitLog.DeleteRemoves` | crates/meow-api/src/routes.rs:2272-2304 | a delete leaves exactly the entries under other names, in their order |
| `CommitLog.DueExact` | crates/meow-app/src/subscription_refresh.rs:89-99 | an entry is due exactly if it was never stamped, or has an interval that, capped at ten years, has passed since |
| `CommitLog.StampExact` | crates/meow-app/src/subscription_refresh.rs:163-172 | a stamp for a fetch leaves entries with another url alone if and only if the entry found by name still has that url or already carries that time |
| `CommitLog.StampHitsRepointed` | crates/meow-app/src/subscription_refresh.rs:481-499 | a re-pointed entry without interval that is stamped for its old url is never due again |
| `DnsInputs.InputsEqualExact` | crates/meow-api/src/routes.rs:1815-1866 | the comparison is equality of everything the resolver is built from, document order of hosts and policy included |
| `DnsInputs.ReorderIsSeen` | crates/meow-api/src/routes.rs:1836-1851 | every swap of two hosts reads as a change although the map comparison alone does not see it |
| `PublishDns.DnsRuntime.Install` | crates/meow-api/src/routes.rs:1969-1998 | every consumer serves the new resolver; the slot and all other tasks stay |
| `PublishDns.DnsRuntime.Publish` | crates/meow-api/src/routes.rs:2006-2108 | full outcome by case; cut at any await, a wanted listener that was live is still live on the new resolver and every running task is the one in the slot |
| `ProviderCommit.Registry.Commit` | crates/meow-api/src/routes.rs:1696-1758 | the registry becomes the candidate; one fetch per new object, one refresh per reused deferred object with its flag cleared; the strict flag is set on the candidate's objects and on no other; shared names are present after every update, in any iteration order |
| `ProviderCommit.OrderIrrelevant` | crates/meow-api/src/routes.rs:1707-1751 | the whole outcome is the same for every iteration order |
| `OutboundBinding.Registry.Install` | crates/meow-common/src/outbound_iface.rs:269-291 | a new owner supersedes the current one without discarding it |
| `OutboundBinding.Registry.Release` | crates/meow-common/src/outbound_iface.rs:142-163 | exactly this owner goes, the others keep their order, and the logbook follows a committed newest owner |
| `OutboundBinding.Registry.Commit` | crates/meow-common/src/outbound_iface.rs:130-139 | only this owner's flag changes, never the interface in effect; a newest owner that commits is recorded |
| `OutboundBinding.WithoutOlder` | crates/meow-common/src/outbound_iface.rs:55-57 | dropping a superseded owner changes nothing in effect |
| `OutboundBinding.OwnersConserved` | crates/meow-api/src/lib.rs:78-174 | over every run and every exit of a mutation, with others installing and leaving, owners and guard holders correspond one to one |
| `OutboundBinding.DiscardRestores` | crates/meow-api/src/routes.rs:1583-1585 | a mutation that is rejected or keeps its listener leaves the owners as if it had never installed, even if listeners left meanwhile |
| `OutboundBinding.RejectionRestores` | crates/meow-api/src/routes.rs:3508-3511 | the pre-installed interface is in effect until the rejection restores the prior one |
| `OutboundBinding.NoGapInRestart` | crates/meow-api/src/routes.rs:3281-3311 | from the pre-install to the end of the spawn every state has an interface bound, in whichever order others go away and whatever they install, and the new one if they install nothing |
| `Contributions.SubtractRules` | crates/meow-config/src/subscription.rs:27-42 | removes one first copy per claim |
| `Contributions.SubtractCounts` | crates/meow-config/src/subscription.rs:25-42 | what is left is the multiset difference |
| `Contributions.Document.Apply` | crates/meow-config/src/subscription.rs:62-177 | the new document and the reported counts in terms of the old, or no change for an unknown name; `ApplyShips` and the lemmas below say what the new document is |
| `Contributions.ApplyShips` | crates/meow-config/src/subscription.rs:62-177 | after an apply either section ends with exactly the payload's nodes in order and no other node has one of their names or one claimed before, the payload's rules come first, the entry claims exactly the payload, siblings lose only the names it took |
| `Contributions.ClaimsStayTrue` | crates/meow-config/src/subscription.rs:44-61 | over any sequence of refreshes and removals every claimed name keeps a node and no name gets two claims |
| `Contributions.Document.RemoveContribution` | crates/meow-config/src/subscription.rs:184-218 | the new document in terms of the old |
| `Contributions.Document.ReconcileClaims` | crates/meow-config/src/subscription.rs:227-264 | the clamped claims in terms of the old document |
| `Contributions.ReconcileExact` | crates/meow-config/src/subscription.rs:220-264 | after any edit every claim is backed, rules by a copy and names by a node; each entry keeps exactly the names that have a node and the rules earlier entries leave copies of; claims stay untouched exactly if they were backed |
| `Contributions.LocalRulesConserved` | crates/meow-config/src/subscription.rs:44-61 | over any sequence of refreshes and removals the unclaimed rules stay the same multiset |
| `Contributions.ApplyKeepsLocalNodes` | crates/meow-config/src/subscription.rs:120-153 | in either section exactly the unclaimed nodes the payload shadows by name are lost, the rest keeps its order |
| `Contributions.LocalNodesSurvive` | crates/meow-config/src/subscription.rs:44-61 | over any sequence a local node survives unless a payload ships its name |
| `Contributions.SiblingSurvives` | crates/meow-config/src/subscription.rs:94-110 | a sibling's node survives, still claimed, unless its name is taken over |
| `Contributions.ApplyKeepsDisjoint` | crates/meow-config/src/subscription.rs:94-110 | no two subscriptions come to claim the same name |
| `Contributions.RemoveUndoesApply` | crates/meow-config/src/subscription.rs:179-218 | removing right after the first apply restores the rules, and a section exactly if the payload shadowed nothing in it |
| `SamplerFeed.FeedSafety` | crates/meow-api/src/routes.rs:1035-1078 | in every interleaving a channel with a receiver is the one in the slot with a sampler running or being spawned, there is at most one sampler, and no subscriber joins a channel whose sampler exited |
| `SamplerFeed.SubscribersConserved` | crates/meow-api/src/routes.rs:1035-1078 | in every interleaving those listening are the subscriptions less the disconnects, whatever samplers come and go |
| `SamplerFeed.StopsWithTheLast` | crates/meow-api/src/routes.rs:1058-1071 | a running sampler leaves and frees the slot by its two looks if nobody listens, and goes on if somebody does or joins between them |
| `SamplerFeed.HastyExitStrands` | crates/meow-api/src/routes.rs:4191-4200 | without the second look under the lock a subscriber can be stranded |
| `PacketIds.IdsAreTheInterval` | crates/meow-common/src/atomic.rs:48-64 | with any number of threads, late loads and spurious failures, the returned IDs are exactly the interval above the first value, in order, never the maximum, and a call loses at most as often as others won |
| `PacketIds.ExhaustionIsPermanent` | crates/meow-common/src/atomic.rs:34-46 | after one refusal no ID is issued and the counter stays |
| `PacketIds.CheckedIncrement` | crates/meow-common/src/atomic.rs:48-64 | against any interference the loop takes the one ID after all those others took meanwhile, and refuses exactly when none is left |
| `ServiceLifecycle.LifecycleSafety` | crates/meow-app/src/windows_service.rs:299-396 | the phase never returns to Starting and every change of it is told, Running at most once and only from Starting, the reporter tells StartPending only while Starting and with a growing checkpoint until it saturates, shutdown is sent once if a stop came and never otherwise |
| `ServiceLifecycle.LateReportExact` | crates/meow-app/src/windows_service.rs:334-340 | in every interleaving the main thread tells StartPending outside Starting if and only if a stop came before its first report |
| `ExecStart.QuoteExecArg` | crates/meow-app/src/lib.rs:172-205 | refuses with the right reason or returns the quoted word |
| `ExecStart.QuotePathList` | crates/meow-app/src/lib.rs:207-228 | refuses with the right reason or returns the quoted entry |
| `ExecStart.GenerateUnit` | crates/meow-app/src/lib.rs:265-290 | the three path settings, produced exactly for accepted paths, working directory included |
| `ExecStart.AcceptedExact` | crates/meow-app/src/lib.rs:131-245 | exactly which pairs of paths get a unit, character by character and component by component |
| `ExecStart.UnitRoundTrip` | crates/meow-app/src/lib.rs:248-258 | every setting of an accepted unit is read back, each by its own grammar, as the paths it was written for |
| `ExecStart.ParentExact` | crates/meow-app/src/lib.rs:268-276 | the working directory is the path without its last component, cut off the text with the slashes and `.` components around it; the root's is the root |
| `ExecStart.ExecStartRoundTrip` | crates/meow-app/src/lib.rs:159-171 | splitting, unquoting, unescaping and collapsing the marks gives back program, `-f` and configuration path |
| `ExecStart.ProgramChecksExact` | crates/meow-app/src/lib.rs:172-187 | the checks refuse an absolute program exactly when a reader with its own set of safe characters would not run the line |
| `ExecStart.OneLine` | crates/meow-app/src/lib.rs:135-146 | an accepted line holds no control character |
| `Bitmaps.SetBit` | crates/meow-app/src/main.rs:2104-2110 | exactly this bit is added |
| `Bitmaps.BuildRanks` | crates/meow-rules/src/mrs_parser.rs:744-753 | the directory holds the rank at every word |
| `Bitmaps.CountZeros` | crates/meow-rules/src/mrs_parser.rs:755-768 | zeros up to the clamped position |
| `Bitmaps.ClearLowest` | crates/meow-rules/src/mrs_parser.rs:778-781 | `x & (x - 1)` clears exactly the lowest set bit |
| `Bitmaps.SelectOne` | crates/meow-rules/src/mrs_parser.rs:771-783 | the position of the nth set bit, and none exactly if there are too few |
| `DomainSetWriter.StoredKeysOk` | crates/meow-app/src/main.rs:2124-2125 | distinct entries give strictly ascending keys |
| `DomainSetWriter.EndOfRun` | crates/meow-app/src/main.rs:2138-2141 | the end of the run of keys with the same byte |
| `DomainSetWriter.WriteDomainSet` | crates/meow-app/src/main.rs:2123-2149 | the vectors encode a trie of the keys whose nodes, the whole queue, number at most total key length plus one, so the loop ends |
| `DomainSetReader.NextEdge` | crates/meow-rules/src/mrs_parser.rs:687-703 | the edge found by rank and select is the one the bit vectors define |
| `DomainSetReader.TraverseBounded` | crates/meow-rules/src/mrs_parser.rs:669-733 | the explicit-stack loop computes the walk for any vectors, what it handed over before a stop included, and ends |
| `DomainSetReader.WalkCapped` | crates/meow-rules/src/mrs_parser.rs:630-641 | whatever the vectors, a finished walk is within the caps |
| `DomainSetReader.WalkYieldsKeys` | crates/meow-rules/src/mrs_parser.rs:669-733 | on an encoded trie the walk yields exactly the keys in order, and stops early exactly if they break a cap, having handed over the first of them |
| `DomainSetBody.DomainSetBody` | crates/meow-app/src/main.rs:2123-2162 | the bytes serialise vectors that encode the entries |
| `DomainSetBody.ByteReader.Read` | crates/meow-rules/src/mrs_parser.rs:965-985 | the cursor moves only past bytes that were there |
| `DomainSetBody.ByteReader.ReadWords` | crates/meow-rules/src/mrs_parser.rs:603-621 | the declared words, or the right error |
| `DomainSetBody.ParseBody` | crates/meow-rules/src/mrs_parser.rs:521-549 | the header checks, error by error |
| `WireFormat.WordRoundTrip` | crates/meow-rules/src/mrs_parser.rs:987-1001 | a word survives its big-endian bytes |
| `WireFormat.WordBytesUnique` | crates/meow-app/src/main.rs:2100-2102 | eight bytes survive being read as a word |
| `WireFormat.BigEndianLawful` | crates/meow-rules/src/mrs_parser.rs:987-1017 | lengths below 2^63 and all words are read back as written, and whatever is read is written back as it was |
| `WireFormat.WordIsNumber` | crates/meow-app/src/main.rs:2096-2110 | the bytes of a word are the big-endian form of the number whose binary digits are its bits, bit 0 the lowest |
| `WireFormat.FirstWeighsMost` | crates/meow-rules/src/mrs_parser.rs:987-1017 | the first byte of a length or word weighs most |
| `DomainSetBody.ParseSerialized` | crates/meow-rules/src/mrs_parser.rs:517-549 | reading a serialisation gives the vectors back unless one is empty or terminators outnumber nodes |
| `DomainSetBody.ParsedIsSerialized` | crates/meow-rules/src/mrs_parser.rs:517-549 | accepted bytes start with the serialisation of what was read |
| `DomainText.EntryDecodes` | crates/meow-rules/src/mrs_parser.rs:560-592 | a written entry reads back without a leading `+` exactly if it is ASCII |
| `DomainText.DecodeKeys` | crates/meow-rules/src/mrs_parser.rs:559-593 | the decoded domains in order, and how many keys were skipped; `DomainRunes` says what a decoded key is |
| `DomainRunes.ReadsTextBackwards` | crates/meow-rules/src/mrs_parser.rs:575-588 | a key is skipped exactly if it is not the UTF-8 encoding of some sequence of Unicode scalar values, and read as the encoding of that sequence reversed |
| `DomainRunes.ReversedConcat` | crates/meow-rules/src/mrs_parser.rs:575-588 | text after text reads back as the second reversed before the first |
| `DomainRunes.ReversedTwice` | crates/meow-rules/src/mrs_parser.rs:575-588 | reading backwards twice gives the text back |
| `DomainRunes.RuneKeyDecodes` | crates/meow-rules/src/mrs_parser.rs:561-588 | a key stored by reversing characters reads back as its entry less a leading `+`, whatever its characters |
| `DomainText.StoredKeysDecode` | crates/meow-app/src/main.rs:2121-2125 | decoding the stored keys gives the ASCII entries back with multiplicity |
| `DomainSetRoundTrip.TerminatorsAreNodes` | crates/meow-rules/src/mrs_parser.rs:536-549 | a written bitmap has one terminator per node |
| `DomainSetRoundTrip.LastNodeIsLeaf` | crates/meow-app/src/main.rs:2130-2149 | the last node written is a key, so the leaf vector is never empty |
| `DomainSetRoundTrip.WalkUpstreamDomainSet` | crates/meow-rules/src/mrs_parser.rs:517-594 | for any bytes: the domains handed over, with the header error, the walk's stop or the number of skipped keys |
| `DomainSetRoundTrip.ConvertDomainSet` | crates/meow-app/src/main.rs:988-1003 | decoding followed by compaction |
| `DomainSetRoundTrip.BodyReadsBack` | crates/meow-rules/src/mrs_parser.rs:517-594 | a written body is accepted exactly within the caps and yields exactly the ASCII entries, else the domains of the first keys; the single empty entry is refused |
| `DomainLines.MergeLoop` | crates/meow-app/src/main.rs:1040-1053 | the loop with its in-place takes computes the merge of adjacent twins |
| `DomainLines.DumpDomainLines` | crates/meow-app/src/main.rs:1032-1056 | the method computes the compaction |
| `DomainLines.LineIsTotalOrder` | crates/meow-app/src/main.rs:1033-1038 | the comparator is a total order |
| `DomainLines.DumpDeterministic` | crates/meow-app/src/main.rs:1024-1038 | the lines depend only on the multiset of keys |
| `DomainLines.DumpCounts` | crates/meow-app/src/main.rs:1024-1056 | the output is sorted, and `+.x` is added once exactly when both twins occur |
| `DomainLines.ExpandRecovers` | crates/meow-app/src/main.rs:1024-1056 | expanding every `+.x` recovers the entries exactly if each entry that already looks merged was itself merged |
| `DomainPatterns.SubsumedExact` | crates/meow-trie/src/trie.rs:686-744 | for every pattern and finite pattern set, all names the pattern matches are caught if and only if a finite test on the bases succeeds |
| `DomainPatterns.CoveredExact` | crates/meow-trie/src/trie.rs:497-607 | one entry list matches no more names than another if and only if each of its patterns passes that test |
| `DomainPatterns.CaseIgnored` | crates/meow-trie/src/trie.rs:497-607 | entries and names that differ only in the case of ASCII letters have the same patterns and are found alike |
| `DomainPatterns.FoldExact` | crates/meow-trie/src/trie.rs:497-507 | folding identifies the two cases of an ASCII letter and nothing else |
| `DomainCoverage.PlainMeaning` | crates/meow-trie/src/trie.rs:497-554 | a plain name matches exactly itself |
| `DomainCoverage.PlusMeaning` | crates/meow-trie/src/trie.rs:516-529 | `+.y` matches `y` and everything below it |
| `DomainCoverage.StarMeaning` | crates/meow-trie/src/trie.rs:531-539 | `*.y` matches exactly what is one label below `y` |
| `DomainCoverage.DotMeaning` | crates/meow-trie/src/trie.rs:541-549 | `.y` matches exactly what is below `y` |
| `DomainTrie.CatchesByLabels` | crates/meow-trie/src/trie.rs:686-744 | some pattern hits a name if and only if the walk over its labels meets a slot |
| `DomainTrie.Trie.InsertIntoTree` | crates/meow-trie/src/trie.rs:556-580 | the slot is filled and every node on its path exists |
| `DomainTrie.Trie.Insert` | crates/meow-trie/src/trie.rs:497-554 | the slots are those of all entries inserted, and an entry is rejected exactly if it has no pattern |
| `DomainTrie.Trie.Search` | crates/meow-trie/src/trie.rs:592-607 | finds something if and only if some inserted entry matches the name |
| `DomainTrie.Trie.Walk` | crates/meow-trie/src/trie.rs:686-716 | stopping at the first missing node loses no match |
| `DomainCoverage.CoverageExact` | crates/meow-app/src/main.rs:1024-1056 | the lines match exactly the names the entries match if and only if two tests on the counts of the entries succeed |
| `DomainCoverage.LossExact` | crates/meow-app/src/main.rs:1024-1056 | no name is lost if and only if the lines that remain match every pattern of a consumed entry in full |
| `DomainCoverage.GainExact` | crates/meow-app/src/main.rs:1028-1031 | no name is gained if and only if each root a merge adds was matched already |
| `DomainCoverage.MergeExact` | crates/meow-app/src/main.rs:1042-1048 | pair by pair, the merge keeps what is matched if and only if the bare entry starts with neither `+.` nor `*.` and, should it start with a blank of Unicode, is rejected |
| `DomainCoverage.CoverageKept` | crates/meow-app/src/main.rs:1024-1031 | a list all of whose twin pairs are of that kind keeps its coverage |
| `DomainCoverage.PlusLost` | crates/meow-trie/src/trie.rs:520-529 | `+.y` next to its twin merges into a line that no longer matches `y` |
| `DomainCoverage.StarLost` | crates/meow-trie/src/trie.rs:531-539 | `*.y` next to its twin merges into a line that no longer matches `c.y` |
| `DomainCoverage.BlankLost` | crates/meow-trie/src/trie.rs:497-507 | an entry behind any blank character next to its twin merges into a line that no longer matches it |
| `DomainCoverage.WideBlankLost` | crates/meow-trie/src/trie.rs:497-507 | so for U+3000 |
| `DomainCoverage.BareGained` | crates/meow-trie/src/trie.rs:520-524 | the rejected `+.` or `*.` next to its twin merges into a line that matches `+` or `*` |

## Left out

- CommitTun.TunTruthfulness: says nothing of the section after a handler was dropped that could not be; CommitCuts.CutExact gives a run that breaks it for each of these.
- CommitOutcomes.CommitPublishes: leaves out forced documents, for which ForcedRebuildExact and ForcedParseExact of CommitResolvers stand, and ticks whose parse fails, for which CommitRejections.FailedTickKeepsResolver stands.
- CommitBindings.BindingInEffect: for stretches in which no listener installs a binding of its own; OutboundBinding.NoGapInRestart admits those.
- CommitState.InheritAll: the clamp of inherited claims is a function of the environment here; Contributions models it.
- CommitState.Published: the route table and the two provider registries are one publication; no modelled task reads a registry in between.
- DomainSetBody.ParseSerialized: for vectors of at most `isize::MAX` bytes, which is all a process can hold; BodyReadsBack asks the same of the body.
- DomainPatterns.Normal: folds ASCII letters; other letters stay as they are, on both sides of a merge alike.
- DomainTrie.Trie.Search: says whether a name is found, as a domain rule set asks; which of several values wins is left out, and so is the sealed layout of the same trie.
- Forced documents are modelled as far as the arms that keep, strip or keep after a failed strip; which single defects `force` tolerates is left out.
- YAML parsing, rebuild, DNS parse and TUN parse are functions of the environment; their own correctness is left out.
- Which handler a job comes from, HTTP status codes, log book, health checks, log-level reload, traffic ledger and file saving have no state here.
- In `publish_dns` the order of two tasks on one socket address is left to the outcome of the bind.
- Lines are handed to the matcher one by one: the comments and line breaks of a text rule file are left out.
- MRS header, zstd framing, IP-CIDR sets and file-system guards of `convert_ruleset`.
- systemd's numeric C escapes, command prefixes and `;` separators cannot occur in the emitted line and are not in the modelled reader.
- The launchd plist and the command-line client: the same shape as the systemd unit but easier.
- Windows: the join of the reporter thread and the exit code.
