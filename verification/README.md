# NuggetVPN, modelled and proved in Dafny

NuggetVPN is a desktop and mobile VPN client written in Go. This project models
the parts of it whose behaviour is hard to see from one function at a time, and
proves what those parts promise. `dafny verify dfyconfig.toml` checks all of it.

## What is here

**The routing compiler** (`internal/sbconfig`, `internal/models`). The routing
canvas is an ordered list of rules, each matching on any of some values, inverted
or not, alone or combined, and sending what it matches to a server, straight out,
or nowhere. It is compiled to the first-match rule list of a sing-box document
(`RouteSpec`, `RouteCompiler`). `RouteMeaning` gives both sides a meaning over
connections: the canvas by its usable rules, the list by the "Route Rule" page of
the sing-box documentation (fields of one group are alternatives, groups are all
asked for, the first final rule decides, `sniff` and `resolve` go on).
`CompileTheorem` and `RouteTheorem` prove that the two agree on every connection,
`CompileExactly` exactly when they do.
`ConfigSpec` and `ConfigBuilder` are the whole document; `ConfigClosed`,
`ConfigStartup` and `ConfigBootstrap` prove that it names nothing it does not
declare, when it can come up without waiting for itself, and that servers' names
never need the tunnel while, in a full tunnel, other names never leave outside it.
`Migration` proves that settings older than the canvas keep routing what they
routed.

**The control protocol and the tunnel's life** (`internal/core`,
`internal/app`). Goroutines are modelled as agents interleaving
lock-held regions; theorems hold of every sequence of steps. `ControlShared` and
`ControlMachine` are the demultiplexer with its waiter channels, `ControlService`
the other end with its token gate, `CoreOwner` what is started and closed,
`Lifecycle` connects, disconnects, reconnects, drops, restarts on new routing, the
kill switch and the state shown, and `LifecycleIdle` exactly when a disconnected
tunnel stays down.

**Readers and writers** (`internal/link`, `internal/geodat`). `GroupSpec` and
`GroupResolver` are the search through possibly cyclic selector groups, `LinkSpec`,
`LinkRoundTrip` and `ShareLink` the link writer and parser with the exact set of
servers that survive a round trip, `WireFormat` and `MessageWalk` the walk over the
Protocol Buffers wire format, `GeoSpec` and `GeoData` the look-ups made in it, and
`GeoFile` and `GeoUnknown` what they find in written and in extended files.

**Accounting** (`internal/stats`, `internal/app`). `HealthSpec` and `HealthStore`
keep bounded histories, `TrafficSpec` and `TrafficCalls` account for every byte counted, `UsageSpec`
bytes per connection and program, `HitSpec` and `RuleOwners` connections per rule.

**Choosing a server and keeping settings.** `RankSpec` and `PlanSpec` order and
try servers, `ProbePool` measures them side by side, `SubscriptionSpec` refreshes
lists without losing identities, `SetupSpec` switches routing setups by hand and on
a schedule.

Each module has a file of its own name (`Text.dfy` holds three small ones).

Code that updates state in place is a class or a method with loops, proved
against a function of the same inputs; the theorems are about those functions, so
they hold of the methods too. What the app asks the platform, the network, Go's
parsers and the cores is a parameter (`Env`, `Oracle`, `World`, `Luck`, and plain
functions): theorems hold whatever it answers.

## What the proofs found

Each of these is a lemma, with the condition under which the code does meet
the promise.

- An inverted condition on a list that could not be loaded matches more than it
  says (`CompileTheorem.WideningWitness`); without inversion a missing list never
  widens a rule. An inverted condition whose entries name nothing, such as a domain
  `.`, is usable, holds for everything and compiles to nothing
  (`CompileExactly.InvertedDotIsLost`); `CompileExactly.ConditionExactly` has both
  exceptions as one if-and-only-if, `CompileExactly.LogicalExactly` what they do to
  an AND/OR rule.
- The start-up order is well founded exactly when the configured resolver is an
  IP literal (`ConfigStartup.StartsExactlyWithAnIpResolver`); nothing in the
  builder demands one.
- `internal/app/connection.go:182-185` says that any disconnect ends a
  reconnect. A drop handler that read what to go back to before the disconnect,
  and the generation after it, is not ended (`LifecycleIdle.StaleDropHappens`). Nor
  is a reader that saw a server connecting: it can show that server as connected
  afterwards, and the next change of routing starts it
  (`internal/app/connection.go:79-100`, `internal/app/routing.go:45-77`,
  `LifecycleIdle.StaleLookHappens`). `LifecycleIdle.StaysDownExactly` says what else
  has to hold for a tunnel to stay down, and that nothing less will do.
- `internal/app/connection.go:449` says a hop of the chain cannot also be the
  exit. It can, when no other server of the source runs
  (`PlanSpec.ExitIsNoHop`, and `PlanSpec.HopBecomesExit` for an input).
- `internal/app/insights.go:86` counts what was added since the last look.
  Switching the statistics off and on counts open connections again
  (`UsageSpec.SwitchingCountsTwice`); `UsageSpec.CountedOnce` says exactly when a
  connection is counted once.
- A round of probes returns a result for every target exactly when no two targets
  share an id (`ProbePool.ResultsAreComplete`).
- Counted bytes are saved for the profile then shown. After a change of routing
  that fails before it touches the core, the tunnel can be shown as connected to no
  profile (`LifecycleIdle.NobodyShownHappens`), and then every save throws away what
  is pending (`TrafficCalls.NobodyShownLosesBytes`); a save that read the profile
  before a connect to another credits the wrong one
  (`TrafficCalls.StaleSaveMisleads`). `TrafficSpec.BytesAreConserved` says exactly
  when nothing is lost. A connect while connected resets the counters with bytes
  still pending (`internal/app/connection.go:275-276`), which
  `TrafficSpec.EveryByteGoesSomewhere` counts among what is thrown away.
- A server's address typed with capitals is listed as typed, so the rules that keep
  it outside the tunnel do not match the lower-case name
  (`ConfigBootstrap.ServersAreReachedOutside`, `ConfigBootstrap.OnlyListedNames`).
- The counter base that `internal/app/traffic.go` subtracts is always zero
  (`TrafficSpec.AnchorIsZero`).
- A useless `server_port` hides a good `port` when an outbound is cleaned
  (`GroupSpec.SanitizedPort`).
- A setup's saved graph can change when it is opened, and a setup's name cut to
  60 characters can end in a space (`SetupSpec.OpeningCanChange`,
  `SetupSpec.NameTwice`).

## Model

| member | source | states |
|---|---|---|
| `RouteTheorem.CompilationPreservesMeaning` | internal/sbconfig/route.go:97-177 | for every graph whose rules compile exactly and every connection, first match over the emitted list with `route.final` gives the app's own decision where it has one, else the destination of the topmost usable rule that holds, else Winbox and literal IPv6 as stated and the default |
| `RouteTheorem.CanvasDecides` | internal/sbconfig/route.go:86-177 | outside the app's own classes the core does what the canvas says |
| `RouteTheorem.FirstHoldingIsFirst` | internal/sbconfig/route.go:86-91 | the graph's meaning picks the rule at the least index that is usable and holds, and none exactly when none does |
| `RouteTheorem.ResolvedIsExact` | internal/sbconfig/route.go:207-237 | a rule of any kind compiles exactly when every list in it resolves and nothing in it inverts entries that name nothing (`CompileExactly` has both directions) |
| `CompileExactly.LogicalExactly` | internal/sbconfig/route.go:207-237 | an AND/OR rule whose lists resolve agrees with the canvas, of a connection in a world, if and only if no part that names nothing falters: none in an all-of rule that would hold, none inverted in an any-of rule where no other part holds |
| `CompileExactly.ConditionExactly` | internal/sbconfig/route.go:240-336 | a condition's compiled form says what the condition says in every world if and only if its lists resolve and it does not invert entries of which none names anything |
| `CompileExactly.PlainRuleExactly` | internal/sbconfig/route.go:207-237 | and so, with both directions, for every rule that is not an AND/OR of conditions |
| `CompileExactly.NarrowingWitness` | internal/sbconfig/route.go:303-336 | where the guard against matching less fails, a world is given in which the condition holds and its compiled form does not |
| `CompileExactly.InvertedDotIsLost` | internal/sbconfig/route.go:373-413 | a usable rule for everything but `.` holds for every connection on the canvas and compiles to nothing |
| `RouteTheorem.UninvertedIsNarrow` | internal/sbconfig/route.go:207-237 | a rule with no inversion never matches more than it says, whatever lists are missing |
| `RouteTheorem.ProtocolSniffed` | internal/sbconfig/route.go:179-202 | every protocol a usable rule names is one the core is told to sniff for |
| `CompileTheorem.MatcherMeans` | internal/sbconfig/route.go:240-336 | a condition's emitted fields hold exactly when the condition does, as far as its lists resolved |
| `CompileTheorem.ConditionStrays` | internal/sbconfig/route.go:303-336 | with the guard on inversion and missing lists, an emitted condition holds no more (no less) than its source |
| `CompileTheorem.WideningWitness` | internal/sbconfig/route.go:303-335 | where that guard fails, an inverted condition with a missing list does match more: a world is given |
| `CompileTheorem.RuleStrays` | internal/sbconfig/route.go:207-237 | the guards lift to AND/OR rules with inversion: narrow rules never match more, wide ones never less |
| `DomainLabels.SuffixIsBelow` | internal/sbconfig/route.go:373-413 | a suffix with its leading dot matches exactly the names strictly below it in the domain tree |
| `DomainLabels.BareSuffixCutsLabels` | internal/sbconfig/route.go:373-378 | without the dot a suffix would cut a label: notexample.com for example.com |
| `RouteMeaning.DomainValueMeans` | internal/sbconfig/route.go:379-413 | an entry's exact name and suffix together match the name and what is under it, per spelling of the entry |
| `RouteMeaning.PortListsMean` | internal/sbconfig/route.go:609-624 | single ports and ranges together match exactly the ports the entries describe |
| `RouteMeaning.ProcessListsMean` | internal/sbconfig/route.go:249-271 | process names and paths together match exactly what the app entries expand to, one entry at a time |
| `RouteCompiler.RoutePlan.Declare` | internal/sbconfig/route.go:77-84 | declaring appends a rule-set unless its tag is declared already |
| `RouteCompiler.RoutePlan.BuildMatcher` | internal/sbconfig/route.go:240-336 | the built match and the declared sets are those of the specification |
| `RouteCompiler.RoutePlan.BuildParts` | internal/sbconfig/route.go:213-228 | a part that cannot be built is skipped, or gives up an all-of rule, with the sets declared up to there |
| `RouteCompiler.RoutePlan.BuildRouteRules` | internal/sbconfig/route.go:97-177 | the rule list with its owners in step, and every set the rules name declared on the way |
| `RouteCompiler.RoutePlan.BuildDomainMatcher` | internal/sbconfig/route.go:422-468 | what a DNS rule can use of a rule: its domain conditions, lists in their domains-only form |
| `Models.CleanValues` | internal/models/routing.go:271-293 | tidied values, in order, first of each kept, what cannot match dropped |
| `Models.CleanedMembers` | internal/models/routing.go:269-293 | a cleaned list holds each acceptable entry's tidied form once, and nothing else |
| `Models.UsableRulesMembers` | internal/models/routing.go:542-551 | usable rules are exactly the rules of the list that are usable |
| `Normalize.NormalGraphTwice` | internal/models/routing.go:381-466 | validating a graph is idempotent, whatever the legacy fields say |
| `Migration.MigrationKeepsRouting` | internal/models/routing.go:468-507 | the migrated graph decides every connection as the old mode did |
| `Migration.UpgradeKeepsTraffic` | internal/models/routing.go:468-507 | and so does the core on the rules that graph is compiled to |
| `ConfigBuilder.Build` | internal/sbconfig/build.go:123-267 | the document built, when the profile and every hop can be dialed; verbatim exactly for a complete profile |
| `ConfigBuilder.AppendChain` | internal/sbconfig/build.go:305-351 | the hops placed in dial order, each through the one before, or a refusal when one cannot be dialed |
| `ConfigBuilder.AddExits` | internal/sbconfig/build.go:159-210 | the exit, or a group of the connected server and every alternative that can be used |
| `ConfigBuilder.AppendRuleServers` | internal/sbconfig/build.go:583-643 | one outbound per server the graph names, and the exit's tag for those that cannot be used |
| `ConfigBuilder.BuildDns` | internal/sbconfig/build.go:431-542 | the DNS section, and the domain-only sets declared as it goes |
| `ConfigBuilder.Invert` | internal/sbconfig/build.go:272-281 | each tag back to the profile it was made for, the exit to the connected one |
| `ConfigClosed.BuiltConfigIsClosed` | internal/sbconfig/build.go:123-267 | every outbound, detour, group member, DNS server and rule-set tag named anywhere is declared; tags are distinct in their kind |
| `ConfigClosed.SetsDeclaredOnce` | internal/sbconfig/route.go:76-84 | routes and DNS both declare as they go, and each set they name ends up declared once, under its own tag |
| `DnsSection.DnsClosed` | internal/sbconfig/build.go:431-542 | resolver tags never repeat and every resolver named in the section is declared |
| `CoreConfig.OutTextInjective` | internal/sbconfig/build.go:583-643 | distinct outbounds have distinct tag texts |
| `CoreConfig.DnsTextInjective` | internal/sbconfig/build.go:431-573 | distinct resolvers have distinct tag texts |
| `ConfigStartup.StartsExactlyWithAnIpResolver` | internal/sbconfig/build.go:431-573 | what needs what to come up is acyclic exactly when the resolver's address is an IP literal |
| `ConfigStartup.NeedsComeFirst` | internal/sbconfig/build.go:146-237 | a rank under which whatever something needs comes up before it |
| `ConfigStartup.DetoursWalkTheChain` | internal/sbconfig/build.go:305-351 | following detours from any server traffic leaves by visits every hop once, last first, and stops |
| `ConfigBootstrap.ServersAreReachedOutside` | internal/sbconfig/build.go:435-463 | the address of any outbound's server is listed; when its lower-case name is, as it is of an address in lower case, that name is answered ahead of every user rule by a resolver that needs no server, and traffic to it goes directly |
| `ConfigBootstrap.OnlyListedNames` | internal/sbconfig/build.go:435-542 | in a full tunnel whose rules leave the system's resolver alone, a non-local name is answered without a server if and only if it is listed |
| `ConfigBootstrap.ServerNameResolves` | internal/sbconfig/build.go:446-463 | the resolver asked for a server's name has no detour |
| `ConfigBootstrap.FullTunnelNeverLeaks` | internal/sbconfig/build.go:474-542 | in a full tunnel every other non-local name is put to a resolver by the default's server, or by that of a rule the name matches, unless that very rule asks for `local` |
| `ConfigBootstrap.BuiltTunnelNeverLeaks` | internal/sbconfig/build.go:431-542 | the same of the whole built document |
| `ConfigBootstrap.BuiltConfigRoutes` | internal/sbconfig/build.go:123-267 | the compilation theorem for the built document with its own sets, servers and default |
| `ControlMachine.EveryInterleavingIsSafe` | internal/core/client.go:242-441 | in every interleaving of the lock-held regions sends never block, no channel is closed twice, replies reach only their own request, and nothing waits without a connection |
| `ControlMachine.OutcomesStand` | internal/core/client.go:406-441 | a request has at most one outcome |
| `ControlMachine.NobodyIsForgotten` | internal/core/client.go:262-277 | once a disconnect has settled, every request still waiting has its reply or its close at hand |
| `ControlShared.Client.Register` | internal/core/client.go:407-417 | a request is refused when nothing is connected, else listed under the next id, counted in 64 bits |
| `ControlShared.Client.Take` | internal/core/client.go:314-317 | a reply takes its waiter off the list |
| `ControlShared.Client.TakeAll` | internal/core/client.go:262-277 | a disconnect takes the connection and everyone waiting at once |
| `ControlService.OneReplyEach` | internal/core/service.go:222-282 | what is sent is, line by line, one reply to each request read, in order and under its own id, one complaint for each line that is no request, and nothing else; a closed connection has read nothing after the request it closed on |
| `ControlService.OnlyBehindTheToken` | internal/core/service.go:240-278 | nothing is performed before a first request with the session's token; behind it every request is, in order |
| `ControlService.Connection.Serve` | internal/core/service.go:222-282 | the serve loop, line by line, is the specified session |
| `CoreOwner.NothingLeaks` | internal/core/instance.go:197-326 | over every run with arbitrary failures: at most one core held, an engine only with the built-in one, everything started still held or closed exactly once |
| `CoreOwner.LastCallDecides` | internal/core/instance.go:209-253 | a failed start leaves nothing running; a successful one just the core asked for |
| `CoreOwner.EngineOutlivesCore` | internal/core/instance.go:299-326 | the built-in core is closed before the engine it sends through |
| `CoreOwner.Instance.StartCore` | internal/core/instance.go:209-253 | the new state and answer, for each core and every way of failing |
| `Lifecycle.DisconnectSupersedes` | internal/app/connection.go:331-359 | once a disconnect has its lock, no connect or reconnect of an older generation starts a server again |
| `Lifecycle.StepOrderly` | internal/app/connection.go:258-329 | a server is started only by a connect or by a restart on new routing, each holding the lock; every other step starts at most the kill switch's config |
| `LifecycleIdle.StaysDown` | internal/app/connection.go:79-262 | from a quiet state (nothing to go back to, no profile shown, nobody in flight about to start a server or to show a profile) no server is started without a new connect |
| `LifecycleIdle.StaysDownExactly` | internal/app/connection.go:79-262 | and from any other state with the lock free and nothing to go back to, some run without a connect does start one |
| `LifecycleIdle.DisconnectEnds` | internal/app/connection.go:331-359 | a disconnect that runs to its end leaves such a state, so it keeps the tunnel down exactly when that state is quiet |
| `LifecycleIdle.StaleLookHappens` | internal/app/connection.go:79-100 | a reader that looked while a server was connecting can write it back as connected after a disconnect, and a change of routing then starts the server |
| `LifecycleIdle.NobodyShownHappens` | internal/app/routing.go:45-77 | a change of routing that fails before it touches the core, and then a look: a server runs, shown as connected to no profile |
| `LifecycleIdle.StaleDropRevives` | internal/app/connection.go:142-158 | a drop handler that still remembers brings a server up again |
| `LifecycleIdle.StaleDropHappens` | internal/app/connection.go:142-158 | such a handler is reachable: the drop read what to go back to before the disconnect, and the generation after it |
| `GroupSpec.ResolveIsComplete` | internal/link/singbox.go:127-161 | the search ends on cyclic groups, and finds something exactly when a leaf can be reached, and then a reachable leaf |
| `GroupSpec.SelectFailsOnlyOnNothing` | internal/link/singbox.go:75-125 | selection fails exactly when no outbound in the list is dialable |
| `GroupSpec.FinalDecides` | internal/link/singbox.go:88-102 | the document's own final outbound has the first say |
| `GroupResolver.ResolveLeafByTag` | internal/link/singbox.go:127-161 | the recursive search with its shared visited set |
| `GroupResolver.SelectOutbound` | internal/link/singbox.go:75-125 | the method picks what the specification does, and fails only when nothing can be dialed |
| `LinkRoundTrip.VlessRoundTrip` | internal/link/share.go:332-347 | writing a VLESS server and reading the link gives the same server exactly when it is canonical |
| `LinkRoundTrip.TrojanRoundTrip` | internal/link/parse.go:254-281 | and a Trojan server |
| `LinkRoundTrip.TlsRoundTrip` | internal/link/parse.go:660-702 | a TLS block survives exactly when it is canonical |
| `LinkRoundTrip.TransportRoundTrip` | internal/link/parse.go:729-830 | a transport, with early data or XHTTP settings, survives exactly when it is canonical |
| `LinkRoundTrip.RestSurvives` | internal/link/xhttp.go:69-99 | XHTTP settings survive exactly when each is one the merge knows |
| `LinkRoundTrip.AppReads` | internal/link/parse.go:707-727 | the tables the reader has meet what the round trips ask of them |
| `LinkRoundTrip.AppRoundTrips` | internal/link/parse.go:707-727 | so both round trips hold, with their exact conditions, of the app's own reader |
| `LinkText.ListRoundTrip` | internal/link/parse.go:909-921 | a joined list splits back exactly when its items are trimmed, non-empty and without commas |
| `ShareLink.Params.WriteTls` | internal/link/share.go:459-490 | the parameters set for a TLS block |
| `ShareLink.Params.WriteTransport` | internal/link/share.go:493-552 | the parameters set for a transport |
| `ShareLink.Settings.Merge` | internal/link/xhttp.go:69-99 | merging settings, in whatever order a map gives them, comes to one result |
| `WireFormat.WalkSerialized` | internal/geodat/geodat.go:114-145 | walking a written message gives back exactly its fields |
| `WireFormat.CutIsRefused` | internal/geodat/geodat.go:114-145 | a message cut inside a field is refused |
| `GeoUnknown.UnknownIgnored` | internal/geodat/geodat.go:81-145 | a field the schema has no use for changes no site lookup, wherever it stands: in the list, an entry, a domain or an attribute |
| `GeoUnknown.UnknownIgnoredByIps` | internal/geodat/geodat.go:214-253 | nor any IP lookup, in the list, an entry or a CIDR |
| `GeoSpec.OnePassIsEach` | internal/geodat/geodat.go:258-321 | one pass that fills a result for every wanted query at once finds for each query what a search for it alone finds, the last entry with its code deciding; the whole pass fails exactly on a file not of this format |
| `GeoSpec.OneIpPassIsEach` | internal/geodat/geodat.go:214-253 | the same for IP lists by code |
| `GeoSpec.MaskedBits` | internal/geodat/geodat.go:238-247 | a masked prefix has the address's bits up to its length and zeros after |
| `GeoSpec.AttributeFilters` | internal/geodat/geodat.go:258-321 | `code@attr` is the order-preserving sublist of `code` |
| `GeoFile.FileRoundTrip` | internal/geodat/geodat.go:258-321 | a written site file is read back, query by query, attributes included, by the reader the app uses |
| `GeoFile.IpFileRoundTrip` | internal/geodat/geodat.go:214-253 | a written IP file is read back code by code: its valid CIDRs, masked, in order |
| `GeoData.Fields` | internal/geodat/geodat.go:114-145 | the loop over the data slice reads what the specification walks |
| `GeoData.Put` | internal/geodat/geodat.go:296-313 | one domain put in place into the result of every query that wants it |
| `GeoData.Fill` | internal/geodat/geodat.go:274-315 | one walk over an entry fills an array with what each wanted query finds in it |
| `GeoData.LookupAllSites` | internal/geodat/geodat.go:258-321 | the index by code, the walk over the entries and the map of answers, together each query's own answer |
| `GeoData.LookupAllIps` | internal/geodat/geodat.go:214-253 | the loops over entries, CIDR fields and prefixes are the specified pass |
| `HealthSpec.HistoryIsNewest` | internal/stats/stats.go:237-257 | after any observations in any order a history is the newest 600 in time order, ties by arrival |
| `HealthSpec.ByTimeSortsStably` | internal/stats/stats.go:244-252 | time order is a stable sort of the arrivals |
| `HealthSpec.PruningIsUnseen` | internal/stats/stats.go:126-149 | pruning changes nothing a summary shows, now or later, except that a failing mark goes exactly when fewer than three samples remain |
| `HealthSpec.HistoriesPrune` | internal/stats/stats.go:126-149 | so of every history the store can come to hold |
| `HealthStore.Store.Record` | internal/stats/stats.go:237-257 | one observation inserted in place, and every other server's history as it was |
| `HealthStore.Store.Prune` | internal/stats/stats.go:126-149 | every history pruned by binary search, empty ones dropped |
| `TrafficSpec.BytesAreAccountedFor` | internal/app/traffic.go:24-125 | over any samples, saves, landings and restarts of a session: shown total = starting total + positive increments, and total + what was on its way = stored + on its way + pending + what was saved under other names |
| `TrafficSpec.BytesAreConserved` | internal/app/traffic.go:24-125 | so no byte of the session is lost to its profile if and only if every save that finds pending bytes is for the session's own profile |
| `TrafficSpec.EachIsPaid` | internal/app/traffic.go:102-172 | over any run at all, a profile is credited with exactly what the saves in its name took |
| `TrafficSpec.EveryByteGoesSomewhere` | internal/app/traffic.go:24-115 | over any run at all, every byte counted is pending, was saved under some name, or was pending when a save with no name, a new session or a reset threw it away |
| `TrafficCalls.EveryInterleavingCounts` | internal/app/traffic.go:49-125 | the if-and-only-if holds of every interleaving of the locked regions, where a save is for the profile read regions before |
| `TrafficCalls.SteadySessionCounts` | internal/app/traffic.go:49-125 | no byte is lost while the session's own profile is shown and nobody at work had read another when it began |
| `TrafficCalls.NobodyShownLosesBytes` | internal/app/traffic.go:102-113 | a run in which no profile is shown: what is counted is shown and never stored |
| `TrafficCalls.StaleSaveMisleads` | internal/app/traffic.go:55-90 | a run in which a save that read one profile gives it what the next one's session counted |
| `TrafficSpec.SettledTotals` | internal/app/traffic.go:96-172 | once everything has landed the profile holds exactly what is shown, under the same condition and only then |
| `TrafficSpec.AnchorIsZero` | internal/app/traffic.go:24-41 | the counter base is (0,0) in every reachable state |
| `Traffic.Meter.HandleCoreStats` | internal/app/traffic.go:49-91 | undisturbed: nothing unless connected and the counters are real; else one sample, then, when due, a save for the profile shown, so that nothing stays pending past the interval |
| `Traffic.Meter.PersistUsage` | internal/app/traffic.go:104-115 | what is pending is taken, to be credited to the profile named, or thrown away when none is |
| `HitSpec.AttributionConserves` | internal/app/routing.go:84-127 | regrouping slots by owner gives each owner the open connections attributed to it |
| `HitSpec.CountByRule` | internal/app/routing.go:84-127 | from open connections to counts by graph rule |
| `HitSpec.RuleHits` | internal/core/instance.go:88-113 | the slots the core fills, one per rule and one for no rule |
| `RuleOwners.HitsNameTheDecider` | internal/sbconfig/route.go:93-96 | the owner counted is the graph rule that decided the connection, or the default, and none for the app's own |
| `UsageSpec.CreditsAreFinals` | internal/app/insights.go:87-114 | what a connection is credited with is the final count of each unbroken stretch it was seen for |
| `UsageSpec.CountedOnce` | internal/app/insights.go:86-114 | it is counted exactly once if and only if no earlier stretch ended with bytes on it |
| `UsageSpec.SwitchingCountsTwice` | internal/app/insights.go:92-97 | switching the statistics off and on counts an open connection twice |
| `UsageSpec.LedgerHoldsCredits` | internal/stats/stats.go:156-176 | a day's counters hold, together, what that day's looks credited |
| `Usage.Counter.CountUsage` | internal/app/insights.go:87-114 | one look: what is added to the ledger, and what is kept for the next |
| `Usage.Totals` | internal/stats/stats.go:194-230 | the totals by program and by day come to the same bytes, each program's summed over the days, each day's over the programs |
| `RankSpec.RankingIsFair` | internal/app/connection.go:505-583 | the automatic order is a permutation of the candidates, failing ones last, each part sorted by tier and time |
| `RankSpec.EqualsKeepTheirOrder` | internal/app/insights.go:226-245 | servers that did equally well keep the candidates' order |
| `RankSpec.ResultsAlwaysFit` | internal/app/connection.go:522-530 | the ranking's two probes together have fewer results than its channel holds |
| `RankSpec.OneReportEach` | internal/probe/probe.go:41-130 | a probe reports each profile in scope once |
| `ProbePool.EachReportedOnce` | internal/probe/probe.go:85-130 | in every interleaving of the worker pool each target is reported at most once, after it was measured, and exactly once by the time the workers have left |
| `ProbePool.ResultsAreComplete` | internal/probe/probe.go:97-129 | every result is in its target's place exactly when no two targets share an id |
| `ProbePool.NeverStuck` | internal/probe/probe.go:107-127 | until all have left, every worker still there can go on |
| `ProbePool.ChannelNeverFills` | internal/probe/probe.go:257-297 | at any point of both probes' pools, what has been sent is less than the ranking's channel holds |
| `Ranking.SelectTargets` | internal/probe/probe.go:41-83 | the profiles in scope, split into those to measure and those that fail at once |
| `RankSpec.TriesInOrder` | internal/app/connection.go:258-329 | the connect loop ends on the first server that starts, unless a local failure or a plan that does not fall back ends it earlier |
| `RankSpec.AlternativesAreTheBest` | internal/app/connection.go:679-696 | the alternatives are the best-ranked known servers in plan order, never just one, and as many as fit |
| `Ranking.RankByLatency` | internal/app/connection.go:505-583 | collecting, sorting and demoting, put together |
| `Ranking.DemoteFailing` | internal/app/insights.go:226-245 | two lists filled in one pass are a stable partition |
| `Ranking.Connect` | internal/app/connection.go:278-329 | the loop tries known servers only, and stops at the one it connects to |
| `PlanSpec.PlanReaches` | internal/app/connection.go:413-489 | a plan exists exactly when the source has servers; one that falls back reaches every candidate, any other is one server; a pinned server comes first |
| `PlanSpec.NobodyTwice` | internal/app/connection.go:413-489 | no server is planned twice |
| `PlanSpec.ExitIsNoHop` | internal/app/connection.go:425-461 | a hop of the chain is planned as the exit only when nothing else of the source runs; a plan over all candidates then has one exactly when the source has a hop |
| `PlanSpec.HopBecomesExit` | internal/app/connection.go:425-461 | and it happens: a source whose only server is the chain's hop is planned as its own exit |
| `PlanSpec.FallbackFindsOne` | internal/app/connection.go:258-329 | a connect that may fall back connects whenever any candidate would start, unless something local is wrong |
| `PlanSpec.NoSilentSubstitute` | internal/app/connection.go:402-411 | without a fallback nothing but the planned server is ever started |
| `Planning.PlanConnection` | internal/app/connection.go:413-489 | the planning loops and branches give the specified plan |
| `SubscriptionSpec.IdentitiesStayDistinct` | internal/remote/subscription.go:278-316 | no id is given twice: each refreshed profile has its own new id or one old id nobody else was given |
| `SubscriptionSpec.UnchangedKeepsIdentity` | internal/remote/subscription.go:269-316 | an unchanged list with distinct links keeps every id, total and star |
| `SubscriptionSpec.SourcesAreIndependent` | internal/remote/subscription.go:143-201 | in any source order each source ends as if refreshed alone, and refreshed + failed + skipped is the number of sources |
| `SubscriptionSpec.OthersKeepTheirPlaces` | internal/remote/subscription.go:188-200 | profiles of no refreshed source keep content and relative order |
| `SubscriptionSpec.RefreshKeepsIdsApart` | internal/remote/subscription.go:143-207 | over a whole refresh no two profiles come to share an id |
| `Subscriptions.KeepIdentities` | internal/remote/subscription.go:278-316 | the loop over indexes and a taken map is the specified matching |
| `Subscriptions.Refresh` | internal/remote/subscription.go:143-201 | the pass over all sources |
| `Subscriptions.RefreshOnly` | internal/remote/subscription.go:110-207 | one source alone: all of it or nothing |
| `Subscriptions.CollectSources` | internal/remote/subscription.go:345-377 | each source's address: the first saved one, else the first web link |
| `SetupSpec.NormalIsSound` | internal/models/setups.go:84-128 | after every normalisation there is a setup, ids are unique, the active one exists and mirrors the live graph, and the schedule names existing setups |
| `SetupSpec.SwitchMoves` | internal/models/setups.go:60-82 | a switch opens the setup named and stores nothing new for the others |
| `SetupSpec.SwitchBackRestores` | internal/models/setups.go:60-82 | switching away and back restores the live graph, and leaves every setup's graph as it was exactly when the other's opens unchanged |
| `SetupSpec.NameTwice` | internal/models/setups.go:86-128 | a name is settled by one pass exactly when cutting it leaves no space at its end |
| `SetupSpec.CoversIsWindow` | internal/models/schedule.go:33-55 | a slot is on exactly while one of its days' windows is open, past midnight and past Saturday included |
| `SetupSpec.ScheduleIsSafe` | internal/models/schedule.go:60-107 | what the schedule wants after a normalisation exists, and switching to it leaves sound settings |
| `Setups.Settings.Normalize` | internal/models/setups.go:86-128 | the normalising methods leave sound settings in the specified state |
| `Setups.Settings.SwitchSetup` | internal/models/setups.go:63-82 | the switch, or nothing for an unknown id |

## Left out

Of the modelled files:

- Warning texts, the count of matched values, log, inbound and experimental sections of the document, and JSON text: the model is the routing, DNS, outbound and rule-set content.
- How an app entry expands to process names and paths (`internal/sbconfig/process.go`), and validity of regular expressions, prefixes, list addresses and DNS addresses: parameters of the model.
- RouteCompiler.RoutePlan.DeclareSets: the address a built-in set is downloaded from is a name, not URL text, and a list's hashed tag is treated as injective.
- DNS choice is not claimed to mirror the deciding route rule: the builder skips rules whose resolver is already the final one.
- ConfigBootstrap.DialedNameListed: of outbounds only; WireGuard endpoints lose their address before names are collected.
- Text.ToLower: lower-cases ASCII letters only; a capital outside ASCII typed into a domain entry stays as it is.
- Text.Atoi: without the 64-bit range, which no port in range reaches.
- ControlShared.Client: the event callbacks, the launch of an elevated service, the handshake and the shutdown request are not modelled; a failed send and a timeout are steps.
- ControlService.Connection: what a request does to the core is a parameter; broadcasts to several clients, the statistics pusher and the parent watch are not modelled.
- CoreOwner.Instance: a core is an identity that starts or does not; the retry of the first start on a slow network adapter is part of starting.
- Lifecycle: delays have no length, messages and the core kind are not in the state shown, which server is tried is any, and the last look of a superseded connect is a reader of its own.
- LifecycleIdle.StaysDownExactly: asks that nothing is left to go back to, as every disconnect sees to (`LifecycleIdle.DisconnectEnds`).
- RouteTheorem.ResolvedIsExact: one direction only; both are in `CompileExactly`, where that of AND/OR rules is per connection and world, since their parts can make up for each other.
- LinkRoundTrip.VlessRoundTrip: works on decoded parameters; percent-encoding and URL text are below it, and the link's name is not part of the server.
- LinkRoundTrip.RestSurvives: `downloadSettings` and a nested `extra`, which the writer does not carry, are not among the settings known.
- VMess, Shadowsocks, Hysteria, TUIC, SOCKS, HTTP, SSH and WireGuard links: the writer leaves fields out on purpose, so there is no exact round trip to prove.
- GroupSpec.Sanitized: the loop that copies a map is a map comprehension, and decoded values that are neither text, number nor list are opaque but for how they print.
- WireFormat.Walk: groups (wire types 3 and 4) are refused; the schema has none.
- GeoData.LookupAllSites: the callbacks a walk makes are a walk of the fields read so far; `ParseQuery`, `Codes` and `DetectKind` would add only easy members.
- HealthStore.Store: a saved file's histories are taken to be in time order, as they were written; speed tests and file writing are not modelled.
- HealthSpec.HealthOf: uptime is an exact ratio; its rounding to a 64-bit float is not modelled.
- Traffic.Meter: 64-bit overflow of totals is not modelled, starting a session is one step, the event sent to the interface is left out, and profiles do not come or go while their bytes are on the way.
- UsageSpec.CreditsAreFinals: asks that a look lists a connection once, which the core's identifiers give, and that counters are never negative; days are names, and old days dropped by pruning and the sorting of programs by size are left out.
- HitSpec.RuleHits: the counts another core reports by rule text are left out.
- Ranking.RankByLatency: when a probe answers is whether it is in the list received; the sort itself is a stable insertion.
- ProbePool.NeverStuck: that a measurement comes back at all is left to its timeout.
- Planning.PlanConnection: whether the chosen core can run a profile is a parameter.
- Subscriptions.Refresh: a source's answer is a parameter, from URL checks to parsed profiles; the order a map gives sources in is a parameter too.
- Setups.Settings: clock text is read by a parameter; Wi-Fi rules, and fields of the settings that routing does not use, are left out.
- SetupSpec.SwitchMoves: full normalisation is not idempotent on every setup name; the exact condition is proved instead.

Of the repository: the user interface, tray and notifications, platform calls,
the cores themselves, fetching and files.
