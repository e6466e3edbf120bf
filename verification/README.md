# Verification of the cnspec policy engine

This project models, in Dafny, the engine that turns a policy bundle into a scored graph of reporting
jobs, and proves what that engine is relied upon for. Run `dafny verify dfyconfig.toml` to check it.

A bundle holds policies, queries (checks and data queries, with variants), risk factors, controls and
frameworks. Resolving it for an asset takes these steps, each of them a module or a small group of
modules here.

* **Gathering.** `QueryTypes` finds out what every query is used for; `ImpactOverrides` gathers the
  worst impact of every check, over impact objects that are shared and changed in place;
  `IgnoredChecks` says which checks end up ignored by that.
* **Building.** `JobGraph` is the graph of nodes and of edges in both directions. `VariantSelection`
  says which code runs for a query, `GraphRules` and `PolicyRules` what each part of a bundle adds to
  the graph, and `GraphBuilder` is the builder that does it, map update by map update. `GraphParts`,
  `PolicyParts` and `FrameworkParts` characterize what each step brings, whatever graph it starts
  from; `GraphSources`, `GraphContents` and `PolicyCoverage` describe the whole graph by the bundle
  alone: exactly which nodes there are and what reports to what. `PolicyImpacts`, `FrameworkImpacts`,
  `ControlImpacts` and `GraphImpacts` add with exactly which impact, and `CollectedTypes` that query
  nodes carry the types that were collected. `PlainTerms`, `PlainImpacts`, `NodeContents` and
  `GatheredSeverity` say the same once more over nothing but the fields of the records, so that no
  rule that the builder and its specification share goes unstated.
* **Walking.** `GraphWalk` walks from the non-prunable nodes and builds what it reaches into jobs;
  `CollectedJobs` says what that is, independently of the order, and `Survivors` which nodes those are
  and when a bundle cannot be resolved.
* **Wiring.** `ReportingJobs`, `JobWiring` and `JobConnector` connect the job objects along the edges;
  `JobValidation` is the consistency check, `JobChecksums` says what the checksum of a job is worth;
  `ResolverRun` puts everything together and `ResolverGuarantees` states what holds of every result;
  `BundleGuarantees` says which jobs there are, what they look like and what their children are in
  terms of the bundle alone.

Every loop over a Go map is a loop that picks any remaining key, so what is proved holds for every
iteration order. The uuid of a job is an arbitrary injective function of its key, ids of different
kinds are different values, and a framework shares the node of a policy exactly when it has the MRN of
one. Code ids, MRNs, the gathered overrides and which code compiles are inputs; nothing is assumed
about them. References between policies resolve, and references between policies, variants and
frameworks are not circular: ranks that descend along them are what recursion terminates by. Such
ranks come from the orders that the cycle detection and the sorting of policies produce, and there
are none for queries in which a cycle is detected: `BundleRanks`.

Around the resolver there are:

* `VariantGraph`, `PolicyOrder`, `FrameworkGraph`: the depth-first sorts and the cycle detection, over
  the walks and finishing orders of `Digraph`;
* `RiskMerge`, `RiskFactors`, `RiskLaws`, `RiskSplits`: the k-way merge, the clamped arithmetic it
  feeds and its laws, and when the way factors come in lists matters;
* `Scores`, `ScoreCalculators`, `BandedScoring`, `DecayedScoring`: the five score calculators;
  `ScoreLaws`, `BandedLaws`, `DecayedLaws`: what their results are over the fields of contributions;
* `PolicyWindow`, `PolicyChecksums`, `ChecksumContents`: when a policy has to be looked at again, the
  full and the incremental computation of its checksums (a checksum is the term of what was added to
  it), and exactly what these cover;
* `Migrations`: the lint rules for migration stages and what they are for.

Some things one might expect are false, and this is stated as precisely:

* A new failing check never raises a banded score, except a high one when only medium (or lower)
  checks failed before and a medium one when only low ones did: `BandedScoring.OneMoreFailure`.
  30 becomes 34, 60 becomes 66.
* `bandedScoreCalculator.Init` keeps the band counters, so a calculator is reusable after it only if
  they were zero.
* The optimized checksum update ignores the dates of children found in the bundle; its recalculation
  time is the full one exactly if the date of each such child is matched by the policy's own or that
  of a child from elsewhere: `PolicyChecksums.FastWindowIsFullIff`.
* A relative risk magnitude outside of [-1, 1] leaves the score range, and exactly when:
  `RiskFactors.StepRangeIsExact`.
* The score never depends on how risk factors are split into lists: `RiskSplits.ScoreIgnoresSplit`. The
  order of the notes does, exactly if two entries of the same risk-raising factor (not toxic, of
  magnitude at least 0) disagree about whether it was detected; other ties are harmless:
  `RiskSplits.SplitMattersIff`.
* A risk factor that fails to be added leaves the graph as it was exactly if the code it had taken up
  by then, and the edges of its checks, were there before: `GraphParts.FailedRiskIsUndoneIff`.
* The checksum of a job determines its children, their impacts and the jobs it notifies exactly if the
  last child has an impact or comes after some notified job (in the order of uuids), and the first
  notified job does not come after the last child. Among jobs that notify no job twice, which is all
  that the resolver produces, the last child may also be the first notified job itself:
  `JobChecksums.ChecksumDeterminesIff`.
* A policy that lists a query both as a check and as a data query hears of its severity exactly if its
  matching groups list it as a check first: `PolicyCoverage.SeverityReachesPolicy`.
* A check that some group ignores need not end up ignored: a higher impact that is given to it later
  takes the place of the marked one. It does exactly if nothing higher comes later, or if it shares what
  it holds in the end with a check that was ignored holding it: `IgnoredChecks.EndsIgnoredIff`.
* A validity that ends with the Unix epoch does not count as a date. That makes the recalculation time
  unsafe exactly if the clock is not past the epoch, the window reaches past it, and a group that
  applies ends then: `PolicyWindow.WindowIsSafeIff`.

`DecayedScoring.WithoutFloorLossExceedsLimit` remarks what the score floor is for: a contribution of
the kind that the callers never pass on without it.

## Model

| member | source | states |
|---|---|---|
| `JobGraph.AddEdgeMirrored` | `policy/resolved_policy_builder.go:525-542` | Adding an edge keeps reportsToEdges and reportsFromEdges exact converses, both without duplicates |
| `JobGraph.FirstImpactWins` | `policy/resolved_policy_builder.go:529-541` | An edge that is there keeps the impact it was first added with |
| `GraphBuilder.ResolvedPolicyBuilder.AddEdge` | `policy/resolved_policy_builder.go:525-542` | The map updates amount to adding the edge in both directions unless it exists, and nothing else |
| `GraphBuilder.ResolvedPolicyBuilder.AddQuery` | `policy/resolved_policy_builder.go:934-1003` | Returns the selected code; a failed call leaves the graph as it was, a successful one adds exactly the chain of selected variants and keeps the graph sound |
| `GraphBuilder.ResolvedPolicyBuilder.AddFirstVariant` | `policy/resolved_policy_builder.go:952-974` | Takes the first variant, in order, for which there is code; those tried before leave no trace |
| `VariantSelection.SelectsLeastPath` | `policy/resolved_policy_builder.go:939-1001` | The selected code is the one at the end of the lexicographically least path of variant numbers that ends in something that runs, and there is none if no path does |
| `VariantSelection.RankDoesNotMatter` | `policy/resolved_policy_builder.go:934-1003` | The selection does not depend on the ranks used to show that it terminates |
| `VariantSelection.FrontDecides` | `policy/resolved_policy_builder.go:958-970` | Variants after the first match have no influence |
| `GraphRules.WithQueryKeepsSound` | `policy/resolved_policy_builder.go:979-999` | Adding a query with its feeding edge, even again, leaves every query node with exactly one incoming edge, from a node that is there, and with its selected code in the graph |
| `GraphRules.AddNodeKeepsSound` | `policy/resolved_policy_builder.go:544-546` | Other nodes can be added without disturbing any of this |
| `GraphRules.AddEdgeKeepsSound` | `policy/resolved_policy_builder.go:525-542` | So can edges to anything but a query, if they join the right kinds of nodes and carry the right impact; no node or edge is lost, and edges keep their impacts |
| `GraphRules.CodeReachesQuery` | `policy/resolved_policy_builder.go:964-1001` | In every sound graph a path of edges leads from the selected code to the query |
| `GraphRules.WithSelected` | `policy/resolved_policy_builder.go:934-1003` | Afterwards the graph is sound, keeps all its nodes, and has the query and its code |
| `GraphRules.WithRisk` | `policy/resolved_policy_builder.go:1006-1076` | The graph stays sound whether the risk factor is added, passed over or fails; if it is added its node is there |
| `GraphBuilder.ResolvedPolicyBuilder.AddRiskFactor` | `policy/resolved_policy_builder.go:1006-1076` | The loops add exactly the accepted checks and queries up to the first one with variants |
| `GraphParts.RiskOutcome` | `policy/resolved_policy_builder.go:1006-1076` | Adding a risk factor fails exactly if it runs and a check, or else a data query, has variants; it is added exactly if it runs, none has and one of them is accepted |
| `GraphParts.RiskParts` | `policy/resolved_policy_builder.go:1006-1076` | A risk factor adds exactly the code of the checks and queries accepted before the first with variants, the edges of these checks, and its node if it is added |
| `GraphParts.FailedRiskIsUndoneIff` | `policy/resolved_policy_builder.go:1017-1060` | A failing risk factor leaves the graph as it was exactly if all the code it took up, with the edges of its checks, was there before |
| `GraphParts.FailedRiskLeavesCode` | `policy/resolved_policy_builder.go:1017-1032` | It does not for an accepted check followed by one with variants, if the code of the former is new |
| `GraphParts.SelectedParts` | `policy/resolved_policy_builder.go:934-1003` | A query adds exactly its code and the queries on the chain of selected variants, each with the edge from what feeds it |
| `GraphBuilder.ResolvedPolicyBuilder.AddPolicy` | `policy/resolved_policy_builder.go:807-931` | Adds the policy, its references, checks, data queries and risk factors with their edges and impacts, and tells whether a group or risk factor matched |
| `PolicyRules.WithPolicy` | `policy/resolved_policy_builder.go:807-931` | The graph stays sound and keeps its nodes, and a policy that counts as added has a node |
| `PolicyCoverage.QueryReportsIff` | `policy/resolved_policy_builder.go:807-913` | A query reports to a policy exactly if the policy is reached from the root through policies that run, a matching group lists the query without overriding it, and code is selected for it |
| `PolicyParts.PolicyBringsReached` | `policy/resolved_policy_builder.go:807-931` | Adding a policy to any graph adds exactly what the policies bring that it reaches through ones that run, and it counts as added exactly if it runs and has a matching group or an added risk factor |
| `PolicyCoverage.PolicyReportsIff` | `policy/resolved_policy_builder.go:826-850` | A policy reports to another exactly if that is active, one of its matching groups refers to the first, and the first counts as added; or as a framework it depends on |
| `PolicyCoverage.RiskReportsIff` | `policy/resolved_policy_builder.go:914-928` | A risk factor reports to a policy, and has a node, exactly if the policy is active and has it, with checks, and it is added |
| `PolicyCoverage.PolicyNodesAreActive` | `policy/resolved_policy_builder.go:807-826` | Policy nodes are policies that run and are reached through ones that do, and all of these have nodes |
| `PolicyCoverage.SeverityReachesPolicy` | `policy/resolved_policy_builder.go:872-889` | A query passes on to a policy exactly the value of its impact if the groups of the policy list it as a check no later than as a data query and it is not ignored, and is ignored in scoring otherwise |
| `PolicyCoverage.ControlsHearNoSeverity` | `policy/resolved_policy_builder.go:355-358` | Nothing that feeds a control is a query or carries a severity, so controls are not influenced by impacts |
| `PlainTerms.MatchesIff` | `policy/resolved_policy_builder.go:767-804` | A group applies exactly if it is not rejected, neither its validity nor its end date is over, and it has no filters or the asset has one of them |
| `PlainTerms.ActiveIff` | `policy/resolved_policy_builder.go:807-850` | A policy is active exactly if a chain of policies leads to it from that of the bundle, each neither deactivated nor out of scope and meant for the asset, each referring to the next in a group that applies |
| `PlainTerms.QueryReportsPlainly` | `policy/resolved_policy_builder.go:807-913` | A query reports to a policy exactly if such a chain leads there, a group that applies lists it without any action and is not one that disables, ignores or takes out of scope, and some path of variants leads to code that can run |
| `PlainTerms.PolicyReportsPlainly` | `policy/resolved_policy_builder.go:826-850` | A policy reports to another exactly if such a chain leads to that, it refers to the first, and this runs and has a group that applies or a risk factor that counts; or as a framework that it depends on |
| `PlainTerms.RiskReportsPlainly` | `policy/resolved_policy_builder.go:1006-1076` | A risk factor reports to a policy exactly if such a chain leads there and it has the risk factor with checks, to be run on the asset, none of its checks and queries having variants and one of them being meant for the asset |
| `PlainTerms.CodeReportsToRiskPlainly` | `policy/resolved_policy_builder.go:1017-1032` | Code reports to a risk factor exactly if a policy on a chain has one that takes up a check with it before any check with variants |
| `PlainTerms.QueryIsFedPlainly` | `policy/resolved_policy_builder.go:934-1003` | What feeds a query is the disabled code if it is stopped, else the first of its variants that leads to code, or its own code without variants, and nothing else |
| `PlainTerms.FrameworkHearsPlainly` | `policy/resolved_policy_builder.go:1084-1123` | What reports to a framework, filed under the policy with its MRN if there is one, are exactly the controls mapped to it, unless stopped, and the frameworks that it depends on as one on a chain |
| `PlainImpacts.CheckTellsValue` | `policy/resolved_policy_builder.go:863-884` | A check that is not to be ignored tells a policy exactly the value of its impact, with scoring unspecified, weight 0 and no action, and nothing exactly if it has no value; one that is to be ignored, or listed as a data query first, has scoring and action ignore |
| `PlainImpacts.QueryCarriesOverride` | `policy/resolved_policy_builder.go:976-1001` | What feeds a query carries the whole impact of the query, and disables scoring for one that is stopped |
| `PlainImpacts.RisksAreIgnored` | `policy/resolved_policy_builder.go:914-928` | Risk factors, and the code that reports to them, are ignored in scoring |
| `PlainImpacts.ReferenceCarriesOverride` | `policy/resolved_policy_builder.go:826-850` | A policy carries its whole impact to one on a chain that refers to it, unless it is to be ignored; what comes by way of frameworks is ignored there and says nothing elsewhere |
| `PlainImpacts.FrameworksSayNothing` | `policy/resolved_policy_builder.go:1084-1123` | Frameworks say nothing to the frameworks that depend on them, except that they are ignored where a policy on a chain has that MRN |
| `PlainImpacts.ControlsSayIgnored` | `policy/resolved_policy_builder.go:1164-1180` | Controls, and policies to controls, say exactly whether they are to be ignored |
| `PlainImpacts.CodeSaysIgnored` | `policy/resolved_policy_builder.go:1134-1162` | Code tells a control that it is ignored exactly if the first of the listed queries that lead to it is a data query or to be ignored |
| `GatheredSeverity.HighestReachesPolicy` | `policy/resolved_policy_builder.go:682-884` | With gathered impacts, what a policy is told by a check that is not to be ignored is the highest value that any matching group of a reached policy, or the query, gives to it |
| `GraphBuilder.ResolvedPolicyBuilder.AddControl` | `policy/resolved_policy_builder.go:1126-1186` | Connects a control to the code of its queries, to its policies and controls; it gets a node exactly if something feeds it |
| `FrameworkParts.ControlParts` | `policy/resolved_policy_builder.go:1126-1186` | A control adds exactly the edges from the code of its queries that are in the graph, from its policies with a node and from its controls, and its node if there is any such edge |
| `PolicyCoverage.CodeFeedsControlIff` | `policy/resolved_policy_builder.go:1134-1162` | Code reports to a control exactly if a control that an active framework maps lists a query that is in use and selects it |
| `PolicyCoverage.ControlFeedsControlIff` | `policy/resolved_policy_builder.go:1172-1180` | A control reports to another exactly if that is mapped and lists it |
| `PolicyCoverage.PolicyFeedsControlIff` | `policy/resolved_policy_builder.go:1164-1170` | A policy reports to a control exactly if a mapped control lists it and it is active, or got a node as a framework by then |
| `PolicyCoverage.ControlIsFed` | `policy/resolved_policy_builder.go:1182-1185` | A control has a node exactly if something reports to it |
| `GraphBuilder.ResolvedPolicyBuilder.AddFramework` | `policy/resolved_policy_builder.go:1084-1123` | Adds a framework, its controls and dependencies; the node of a policy with its MRN is used again |
| `FrameworkParts.FrameworkBrings` | `policy/resolved_policy_builder.go:1084-1123` | A framework adds exactly what the visits of it and its dependencies bring, each going by the policies that have nodes by then |
| `GraphSources.VisitedIff` | `policy/resolved_policy_builder.go:1084-1123` | Exactly the frameworks are visited that can run and are reached through others that can |
| `PolicyCoverage.ReportsToFrameworkIff` | `policy/resolved_policy_builder.go:1106-1120` | What reports to a framework are exactly the controls that run and are mapped to it by an active framework, and its dependencies that can run |
| `PolicyRules.WithFramework` | `policy/resolved_policy_builder.go:1084-1123` | The graph stays sound, and a framework that can run has a node afterwards |
| `GraphBuilder.ResolvedPolicyBuilder.Build` | `policy/resolved_policy_builder.go:63-67` | Builds the graph of the bundle, which is sound |
| `PolicyRules.WholeGraph` | `policy/resolved_policy_builder.go:63-67` | The graph of every well-formed bundle is sound, for any overrides |
| `GraphContents.GraphIsExact` | `policy/resolved_policy_builder.go:63-67` | The graph consists of exactly what active policies bring and what the frameworks bring as they are visited |
| `GraphContents.EdgesIff` | `policy/resolved_policy_builder.go:63-67` | Exactly which node reports to which, by kind, in terms of the bundle alone |
| `GraphContents.NodesIff` | `policy/resolved_policy_builder.go:63-67` | Exactly which nodes there are, by kind, in terms of the bundle alone |
| `PolicyImpacts.PolicyImpactIsExact` | `policy/resolved_policy_builder.go:826-928` | What a policy is told by each query it lists, risk factor it has and policy it refers to: where it lists a query more than once the first listing decides, checks before data queries in a group, earlier groups before later ones |
| `FrameworkImpacts.DependencyImpactIsExact` | `policy/resolved_policy_builder.go:1084-1123` | Edges from the dependencies of a framework are ignored if an active policy has its MRN and say nothing otherwise, however often and in whatever order it is visited |
| `ControlImpacts.CodeImpactIsExact` | `policy/resolved_policy_builder.go:1102-1162` | Where several queries of a control run the same code, the first one listed, over all visits of frameworks, decides what the control is told by that code |
| `ControlImpacts.FirstSaysIff` | `policy/resolved_policy_builder.go:529-541` | The listing that decides is the first in use with that code, and there is one unless none is |
| `GraphImpacts.ImpactsIff` | `policy/resolved_policy_builder.go:63-67` | Exactly which node reports to which with which impact, for every kind of edge, in terms of the bundle alone |
| `CollectedTypes.NodesHaveCollectedTypes` | `policy/resolved_policy_builder.go:934-938` | With the types collected from the policy that is resolved, every query in the graph was collected, so the default of the map is never taken, and its node says exactly whether it is used as a check, as a data query or as both |
| `NodeContents.NodesAreFilled` | `policy/resolved_policy_builder.go:807-928` | The node of a policy on a chain holds its graph checksum and scoring system and whether it is that of the bundle; the node of a risk factor holds the code of the checks, in order, meant for the asset, of one that counts |
| `QueryTypes.QueryTypeCollector.CollectQueryTypes` | `policy/resolved_policy_builder.go:559-615` | Adds exactly the uses by reached policies, through matching groups, risk factors and variants, to those known before |
| `QueryTypes.QueryTypeCollector.Accumulate` | `policy/resolved_policy_builder.go:565-587` | Adds one use to a query and to everything under it |
| `QueryTypes.UsedByUnfolds` | `policy/resolved_policy_builder.go:589-614` | What a policy uses, defined by reachability, is what its groups, its references and its risk factors use |
| `QueryTypes.UnderUnfolds` | `policy/resolved_policy_builder.go:578-586` | The queries under a query, defined by reachability, are itself and those under its variants |
| `QueryTypes.CollectedTypeIsExact` | `policy/resolved_policy_builder.go:555-615` | A query is of type both exactly if it is reached as a check and as a data query, and of one type or none exactly otherwise |
| `QueryTypes.ListsIff` | `policy/resolved_policy_builder.go:589-614` | A policy uses a query as a check exactly if a matching group or a risk factor lists one above it among its checks, and as a data query likewise among its queries |
| `ImpactOverrides.ImpactGatherer.Gather` | `policy/resolved_policy_builder.go:648-744` | The impact of every check is the maximum over all its occurrences in reached matching groups and that of its query, although impacts are changed in place; which impacts end up marked as ignored is what the occurrences, in order, and the sharing of impacts say |
| `ImpactOverrides.MarkedIff` | `policy/resolved_policy_builder.go:697-723` | An impact ends up marked exactly if it was marked from the start or some occurrence that is ignored found it to be the worst so far for its check |
| `ImpactOverrides.ImpactGatherer.AddCheck` | `policy/resolved_policy_builder.go:697-723` | One more occurrence keeps that so, and the impact of an ignored check is marked as ignored |
| `ImpactOverrides.OneMoreOccurrence` | `policy/resolved_policy_builder.go:683-704` | Choosing the worse of old, own and query impact keeps the maximum |
| `ImpactOverrides.Snooze` | `policy/resolved_policy_builder.go:706-718` | An ignored check gets its impact marked in place, or an empty one; the values of impacts never change |
| `ImpactOverrides.ImpactIsHighest` | `policy/resolved_policy_builder.go:682-723` | With values that are not negative, a check that has an impact anywhere ends up with the highest |
| `ImpactOverrides.ImpactIffGivenOrIgnored` | `policy/resolved_policy_builder.go:697-723` | A check has an impact exactly if one is given somewhere or it is ignored somewhere |
| `IgnoredChecks.IgnoresIff` | `policy/resolved_policy_builder.go:1265-1279` | Listed in a group for ignored entries a check is ignored whatever its action, in groups that disable entries or take them out of scope never, and elsewhere exactly by its action or because its impact is marked already |
| `IgnoredChecks.WhatIsHeld` | `policy/resolved_policy_builder.go:697-723` | At any moment a check holds the highest impact given to it so far, an empty one if it has only been ignored, or none |
| `IgnoredChecks.MarkedByListing` | `policy/resolved_policy_builder.go:706-718` | An impact ends up marked exactly if it was from the start, or a listing ignored a check that held it then |
| `IgnoredChecks.EndsIgnoredIff` | `policy/resolved_policy_builder.go:697-723` | A check ends up ignored exactly if some listing ignores it and nothing higher is given to it later, or it shares what it holds in the end with another one that was ignored holding it, or that was marked from the start |
| `IgnoredChecks.LaterImpactIsNotIgnored` | `policy/resolved_policy_builder.go:697-723` | The least case of an ignored check that does not end up ignored: a higher impact is given to it later |
| `IgnoredChecks.IgnoredCheckIsMarked` | `policy/resolved_policy_builder.go:706-722` | After gathering, a check that some listing ignores has an impact whose scoring and action say so, unless something higher is given to it later |
| `IgnoredChecks.OnlyIgnoredChecksAreMarked` | `policy/resolved_policy_builder.go:706-722` | And no other has, unless it shares the impact |
| `IgnoredChecks.IgnoredByReachedGroup` | `policy/resolved_policy_builder.go:648-733` | Whatever the order, a check that a matching group of a reached policy ignores ends up with scoring and action ignore, if that listing gives it as much as any other |
| `GraphWalk.ResolvedPolicy.WalkAll` | `policy/resolved_policy_builder.go:102-141` | The walk terminates on every graph, builds each reached node once and no other, and fails exactly if reached code does not compile |
| `GraphWalk.ResolvedPolicy.Walk` | `policy/resolved_policy_builder.go:112-135` | One walk adds only what is reached from its start, and misses successors only of nodes that are still pending |
| `GraphWalk.AllIsReached` | `policy/resolved_policy_builder.go:102-141` | When nothing is pending, what was visited is exactly what is reached from non-prunable nodes |
| `Survivors.KeptIff` | `policy/resolved_policy_builder.go:319-417` | What is never pruned is exactly code, the policy of the bundle, and the policies on chains whose MRNs start with that of the spaces |
| `Survivors.SurvivesIff` | `policy/resolved_policy_builder.go:102-141` | A node survives exactly if one of these leads to it along edges |
| `Survivors.CodeInGraphIff` | `policy/resolved_policy_builder.go:934-1076` | Code is in the graph exactly if a policy on a chain offers a query that leads to it or has a risk factor that runs it |
| `Survivors.RootSurvivesIff` | `policy/resolved_policy_builder.go:319-328` | The policy of the bundle survives exactly if it runs, whether or not anything is listed, and without it nothing does |
| `GraphWalk.ResolvedPolicy.Build` | `policy/resolved_policy_builder.go:330-346` | A node adds its job, and what its kind adds to queries, reporting queries and risk factors; only code that does not compile fails |
| `GraphWalk.ResolvedPolicy.AddReportingJob` | `policy/resolved_policy_builder.go:1199-1213` | The job with a uuid is used again if there is one and created otherwise |
| `CollectedJobs.HeadsAreThoseOfNodes` | `policy/resolved_policy_builder.go:1199-1213` | There is exactly one job for each node built, with the uuid, type, MRNs and scoring system of the node |
| `CollectedJobs.QueriesAreTheCode` | `policy/resolved_policy_builder.go:419-431` | Exactly the code that was built is executed |
| `CollectedJobs.ReportingQueriesAreSingle` | `policy/resolved_policy_builder.go:369-398` | A code has reporting queries exactly if a check selects it, and these are the job of the code alone |
| `CollectedJobs.RiskMrnsAreSelections` | `policy/resolved_policy_builder.go:497-523` | Under the job of a code each risk factor is listed as often as it selects the code |
| `CollectedJobs.RiskMrnsKeys` | `policy/resolved_policy_builder.go:512-520` | The jobs with risk factors are those of the code that built risk factors select |
| `CollectedJobs.BuildOrderDoesNotMatter` | `policy/resolved_policy_builder.go:102-141` | Building the same nodes in another order collects the same jobs, queries, reporting queries, risk factors and selections |
| `JobConnector.ByQrId` | `policy/resolved_policy_builder.go:165-176` | Fails exactly if two jobs have the same qr id, and otherwise files every job under its own |
| `ResolverRun.QrIdsDiffer` | `policy/resolved_policy_builder.go:165-176` | The jobs of a walk never have the same qr id, so the error cannot occur |
| `ReportingJobs.ReportingJob.Connect` | `policy/resolved_policy_builder.go:1253-1261` | Links child and parent in both directions and tells whether they were linked before |
| `JobConnector.ConnectJobs` | `policy/resolved_policy_builder.go:192-195` | No two jobs are ever connected twice |
| `JobConnector.ConnectAll` | `policy/resolved_policy_builder.go:178-197` | In any order of parents, all edges between nodes that have jobs are connected, and nothing else |
| `JobWiring.LinkKeepsWired` | `policy/resolved_policy_builder.go:178-197` | Each further connection keeps children, impacts and notifications those of the edges connected so far |
| `JobWiring.NotifyMirrorsChildren` | `policy/resolved_policy_builder.go:178-197` | A job notifies another exactly if it is among its children, exactly if the graph has the edge, with the impact of that edge |
| `JobWiring.WiringIsUnique` | `policy/resolved_policy_builder.go:178-197` | Two wirings of a graph have the same children with the same impacts and notify the same jobs, each once |
| `ReportingJobs.ReportingJob.RefreshChecksum` | `policy/reportingjob.go:14-42` | The checksum is the fold over the sorted children and the sorted notified jobs |
| `ReportingJobs.SortedKeysOf` | `policy/reportingjob.go:21-22` | However the keys of a map are listed, sorting them gives the same list |
| `ReportingJobs.ChecksumForgetsOrder` | `policy/reportingjob.go:32-39` | The checksum does not depend on the order of notified jobs |
| `JobChecksums.ChecksumDeterminesIff` | `policy/reportingjob.go:14-42` | The checksum determines children, impacts and notified jobs up to order exactly if neither the last child can be taken for a notified job nor the first notified job for a child; among all lists of notified jobs, and among those without duplicates |
| `JobChecksums.ChecksumKnowsJob` | `policy/reportingjob.go:14-42` | Equal checksums have the same uuid, the same qr id and the same entries |
| `JobChecksums.ChildrenAndNotifiesMix` | `policy/reportingjob.go:20-39` | A single child without impact and a single job to notify leave the same trace |
| `JobValidation.Validate` | `policy/collectorjob.go:47-73` | Returns nil exactly if all children and notified jobs exist, and otherwise exactly the missing references |
| `ResolverRun.WireJobs` | `policy/resolved_policy_builder.go:165-210` | Surviving nodes end up with jobs that are wired along the edges, with fresh checksums and the root renamed; it fails only if the root has no job |
| `ResolverRun.BuildResolvedPolicy` | `policy/resolved_policy_builder.go:20-213` | Resolving succeeds exactly if the policy of the bundle is neither stopped nor meant for other assets and all code that is to be run compiles; without the former the error is that no policy matches, whatever the groups list. Exactly the surviving nodes have jobs, wired along the edges |
| `ResolverRun.ErrorIff` | `policy/resolved_policy_builder.go:199-202` | Which error there is, in terms of the bundle alone |
| `ResolverGuarantees.JobsDoNotDependOnOrder` | `policy/resolved_policy_builder.go:104-210` | Any two successful builds of a graph give each job the same children and impacts, the same notified jobs, each once, and the same checksum |
| `ResolverGuarantees.NotifyIffChild` | `policy/resolved_policy_builder.go:178-197` | p is notified by c exactly if c is a child of p |
| `ResolverGuarantees.ResolvedIsWellWired` | `policy/collectorjob.go:47-73` | Every result passes CollectorJob.Validate |
| `ResolverGuarantees.SurvivorsLeadToNonPrunable` | `policy/resolved_policy_builder.go:102-141` | From every surviving job, children of children lead to the job of a non-prunable node |
| `ResolverGuarantees.ReportingQueriesAreExecuted` | `policy/resolved_policy_builder.go:369-398` | Every key of ReportingQueries is executed, and what is listed is the job of that code, which exists |
| `ResolverGuarantees.RiskMrnsAreJobs` | `policy/resolved_policy_builder.go:497-523` | Every key of RiskMrns is the uuid of a job |
| `BundleGuarantees.ChildrenAreExact` | `policy/resolved_policy_builder.go:20-213` | In every result, the job of one surviving node is a child of that of another exactly if the bundle says that it reports to it, with exactly the impact that follows from the bundle |
| `BundleGuarantees.SurvivorHasJob` | `policy/resolved_policy_builder.go:319-546` | Every node that survives has its job: with its uuid (by graph checksum for the policy of the bundle), qr id, type, MRNs and scoring system spelled out by kind of node |
| `BundleGuarantees.JobsAreOfSurvivors` | `policy/resolved_policy_builder.go:102-141` | There is no other job |
| `BundleGuarantees.KeptHaveJobs` | `policy/resolved_policy_builder.go:319-417` | Every result has the job of the policy of the bundle, of every space on a chain and of all code that is to be run |
| `BundleGuarantees.JobsLeadToKept` | `policy/resolved_policy_builder.go:102-197` | From every job, children of children lead to one of these |
| `BundleGuarantees.ChildrenAreEdges` | `policy/resolved_policy_builder.go:178-197` | Between surviving nodes, being a child is exactly having an edge, with its impact |
| `BundleGuarantees.QueryChildrenArePlain` | `policy/resolved_policy_builder.go:852-913` | In every result, the job of a policy has that of a query for a child exactly if a chain leads to the policy, it offers the query and there is code for that, with exactly the value of the impact of a check that is not to be ignored, and as ignored otherwise |
| `BundleGuarantees.QueriesAreRun` | `policy/resolved_policy_builder.go:419-431` | Exactly the code that is to be run is executed |
| `BundleGuarantees.ReportingQueriesArePlain` | `policy/resolved_policy_builder.go:369-398` | There are reporting queries exactly for the code that a surviving query leads to which is not collected as a data query alone, namely the job of that code |
| `BundleGuarantees.RiskFactorsArePlain` | `policy/resolved_policy_builder.go:497-523` | Exactly the risk factors that survive are listed, and under the job of code as often as the checks, meant for the asset, of one that counts run it |
| `PolicyBundle.StoppedIsOverride` | `policy/resolved_policy_builder.go:1265-1286` | Exactly which group types, actions and scoring stop an entry from running; whatever does comes from a group or entry that counts as an override |
| `VariantGraph.DetectVariantCycles` | `policy/bundle.go:652-661` | Reports an error exactly if the variants have a cycle, naming a query on one; otherwise all queries can be listed after their variants |
| `VariantGraph.VariantCycleDetector.DetectDFS` | `policy/bundle.go:663-692` | ACTIVE queries are exactly the search path, VISITED ones exactly those finished, which lead only to finished ones; an error is a real cycle |
| `VariantGraph.PathClosesCycle` | `policy/bundle.go:671-674` | Meeting an ACTIVE query again closes a cycle |
| `VariantGraph.TopologicalSortQueries` | `policy/bundle.go:694-727` | Every distinct query once, variants first unless they lead back, nothing overtakes a listed query unless an earlier position wants it, and a sorted list stays as it is |
| `VariantGraph.QuerySorter.SortDFS` | `policy/bundle.go:729-751` | Appends only what is reached from the query, each after its variants unless these are pending |
| `VariantGraph.AcyclicVariantsComeFirst` | `policy/bundle.go:694-751` | Without cycles every variant comes strictly before its query |
| `BundleRanks.OrderRanksVariants` | `policy/bundle.go:652-692` | The order of the cycle detection ranks every variant in the bundle below its query |
| `BundleRanks.CycleHasNoRanks` | `policy/bundle.go:652-692` | When a cycle is reported there are no such ranks |
| `BundleRanks.OrderRanksPolicies` | `policy/bundle_map.go:118-175` | The order of policies without circular references ranks each below those that refer to it |
| `PolicyOrder.PoliciesSortedByDependency` | `policy/bundle_map.go:118-138` | Every policy once, after its dependencies in the bundle unless these depend on it; fails exactly on an empty reference |
| `PolicyOrder.PolicyIndexer.SortPolicies` | `policy/bundle_map.go:140-175` | Lists a policy after everything it refers to that was not indexed before, leaving nothing else pending |
| `PolicyOrder.AcyclicDependenciesComeFirst` | `policy/bundle_map.go:118-175` | Without circular references every dependency comes strictly before |
| `FrameworkGraph.ResolvedFramework.AddReportLink` | `policy/framework.go:638-651` | Targets and sources stay converses of each other, with all end points among the nodes |
| `FrameworkGraph.LinkMirrors` | `policy/framework.go:638-651` | One more link keeps the two maps converses |
| `FrameworkGraph.ResolveFramework` | `policy/framework.go:544-585` | Something reports to something else exactly if a framework says so: a control of its maps or a dependency to itself, or what that control lists to the control; the nodes are exactly these, each of a type that it is mentioned as |
| `FrameworkGraph.ResolvedFramework.TopologicalSort` | `policy/framework.go:653-677` | A permutation of the nodes, each before its targets unless they report back to it |
| `FrameworkGraph.Reverse` | `policy/framework.go:670-674` | The swaps reverse the array in place |
| `FrameworkGraph.ReversedIsTargetsLater` | `policy/framework.go:653-689` | Reversing a list in which successors come first puts targets later |
| `FrameworkGraph.AcyclicTargetsComeLater` | `policy/framework.go:653-677` | Without cycles every node comes strictly before its targets |
| `RiskMerge.MinF` | `policy/risk_factor.go:385-394` | The first index of a minimum, 0 for no values |
| `RiskMerge.MergeIterator.Next` | `policy/risk_factor.go:358-383` | Each step yields the next element of the stable sort of what is left |
| `RiskMerge.MergeSorted` | `policy/risk_factor.go:358-383` | Merging sorted lists yields exactly the stable sort of their concatenation |
| `RiskMerge.SortTakesHead` | `policy/risk_factor.go:370-381` | Taking the first smallest head is what the stable sort of the concatenation does |
| `RiskFactors.RisksAreOrdered` | `policy/risk_factor.go:298-334` | The comparison is a total preorder whose ties are equal toxicity, magnitude and MRN |
| `RiskFactors.Score.AdjustBy` | `policy/risk_factor.go:151-222` | The update of the score and its list of risk factors is the step of the specification |
| `RiskFactors.AdjustRiskScore` | `policy/risk_factor.go:339-356` | The score is adjusted by all factors in the order of the stable sort |
| `RiskLaws.ToxicTakesPoints` | `policy/risk_factor.go:151-180` | A detected toxic factor takes everything exactly if its magnitude is at least the score, and otherwise as many points as there are whole percent in it |
| `RiskLaws.ToxicFactorsAddUp` | `policy/risk_factor.go:151-180` | Toxic factors of whole percents, one after the other, take what their sum takes |
| `RiskLaws.RelativeTakesShare` | `policy/risk_factor.go:181-221` | A relative factor scales the distance to 100, and less than one point too much is left |
| `RiskLaws.RunIsByMagnitude` | `policy/risk_factor.go:298-334` | Relative factors come before toxic ones and, among these, smaller before larger magnitudes, then by MRN |
| `RiskLaws.OneFactorIsApplied` | `policy/risk_factor.go:339-356` | A single factor is applied to the value of the score |
| `RiskFactors.StepKeepsRange` | `policy/risk_factor.go:151-222` | With magnitudes in [-1, 1] a step keeps the score in 0..100, and a relative one never lowers it |
| `RiskFactors.StepRangeIsExact` | `policy/risk_factor.go:181-221` | Exactly which other relative magnitudes keep the score in range |
| `RiskFactors.LargeMagnitudeLeavesRange` | `policy/risk_factor.go:181-221` | A magnitude of 2 takes a score of 40 to 160 |
| `RiskFactors.RunKeepsRange` | `policy/risk_factor.go:339-356` | Every run of factors in range keeps the score in 0..100 |
| `RiskFactors.SortedRunHasTwoPhases` | `policy/risk_factor.go:298-356` | All relative factors come before all toxic ones, and until then the score never drops below where it started |
| `RiskFactors.MergedRunInRange` | `policy/risk_factor.go:339-356` | Both together for any lists: in range at every step, and at least the value when toxic factors begin |
| `RiskSplits.SplitMattersIff` | `policy/risk_factor.go:339-383` | All splits of the factors into sorted lists give the same notes in the same order, and the same score, from every state exactly if no two entries of one risk-raising factor disagree about its detection |
| `RiskSplits.ScoreIgnoresSplit` | `policy/risk_factor.go:339-383` | The score does not depend on how factors are split into lists, whatever they are |
| `RiskSplits.SplitDoesNotMatter` | `policy/risk_factor.go:339-383` | Without such a disagreement any two lists of lists with the same factors give the same result |
| `RiskSplits.SplitMattersForTies` | `policy/risk_factor.go:339-383` | The least such disagreement, and the two results |
| `RiskFactors.RunAppendsNotes` | `policy/risk_factor.go:196-221` | A run appends the factors that take part, in order, to those listed before |
| `Scores.SumForgetsOrder` | `policy/score_calculator.go:117-176` | Every counter of every calculator depends only on the multiset of contributions |
| `Scores.SumDropsIrrelevant` | `policy/score_calculator.go:117-132` | Skipped, disabled, ignored, deactivated and out-of-scope contributions count for nothing |
| `Scores.CountersFit` | `policy/score_calculator.go:117-176` | If a hundred times the weights fit into 32 bits no counter wraps around |
| `Scores.CompleteIffAllComplete` | `policy/score_calculator.go:178-207` | The completion is 100 exactly if that of every counted contributor is |
| `ScoreCalculators.AverageScoreCalculator.Calculate` | `policy/score_calculator.go:178-207` | The result is that of the specification on everything added since Init |
| `ScoreCalculators.WeightedScoreCalculator.Calculate` | `policy/score_calculator.go:297-326` | The result is that of the specification on everything added since Init |
| `ScoreCalculators.WorstScoreCalculator.Calculate` | `policy/score_calculator.go:414-443` | The result is that of the specification on everything added since Init |
| `ScoreLaws.AverageIsMean` | `policy/score_calculator.go:117-207` | Type, weight, completions and number of datapoints spelled out over the contributions, and the value as the mean of the values of results with a completion, rounded down |
| `ScoreLaws.WeightedIsMean` | `policy/score_calculator.go:238-326` | The same, with the mean weighted |
| `ScoreLaws.WeightIsRepetition` | `policy/score_calculator.go:238-326` | A result of weight a + b counts like the same result twice with weights a and b |
| `ScoreLaws.WorstIsMinimum` | `policy/score_calculator.go:355-443` | The same, with the lowest value of a result with weight, or 100 |
| `ScoreCalculators.OrderDoesNotMatter` | `policy/score_calculator.go:117-443` | Average, weighted and worst do not depend on the order of contributions |
| `ScoreCalculators.IrrelevantDoesNotMatter` | `policy/score_calculator.go:117-443` | Nor on contributions that are not relevant |
| `ScoreCalculators.AverageBetween` | `policy/score_calculator.go:178-207` | The average lies between any bounds of the counted values |
| `ScoreCalculators.WeightedBetween` | `policy/score_calculator.go:297-326` | So does the weighted mean |
| `ScoreCalculators.LowestIsMinimum` | `policy/score_calculator.go:355-412` | The worst score is the minimum of the values with weight, and 100 without any |
| `ScoreCalculators.WorstIsLowest` | `policy/score_calculator.go:355-443` | With positive weights the worst score is at most the average and the weighted one |
| `ScoreCalculators.CompletionIsExact` | `policy/score_calculator.go:178-443` | With at least one result, completion is 100 exactly if every counted contributor is complete, for all three |
| `BandedScoring.BandedScoreCalculator.Init` | `policy/score_calculator.go:471-481` | Init resets everything but the bands, so it is valid afterwards exactly if they were empty |
| `BandedScoring.BandedScoreCalculator.Calculate` | `policy/score_calculator.go:567-627` | The result is that of the specification on everything added |
| `BandedLaws.BandIs` | `policy/score_calculator.go:514-531` | An impact from 90 on, or without a value, is critical, from 70 high, from 40 medium, and low otherwise |
| `BandedLaws.BandedIsPoints` | `policy/score_calculator.go:483-627` | With a critical failure 10 points depend on what passes among critical checks, 20 more on the high ones too, 15 more on the medium ones too and 5 on all four; likewise 25, 18.75 and 6.25 above 10 with a high one, 37.5 and 12.5 above 30 with a medium one, and 40 above 60 with a low one |
| `BandedScoring.BandsAreValid` | `policy/score_calculator.go:483-531` | In no band does the failing weight exceed its maximum |
| `BandedScoring.BandedRange` | `policy/score_calculator.go:586-619` | 0..49 with a critical failure, else 10..59 with a high one, else 30..79 with a medium one, else 60..99 with a low one, else 100 |
| `BandedScoring.BandedIgnoresOrder` | `policy/score_calculator.go:483-627` | The banded score does not depend on the order of contributions |
| `BandedScoring.BandedIgnoresIrrelevant` | `policy/score_calculator.go:483-500` | Nor on contributions that are not relevant |
| `BandedScoring.OneMoreFailure` | `policy/score_calculator.go:586-619` | Exactly for which worst band so far and new band a failure can never raise the value, for all weights |
| `BandedScoring.NewFailureDoesNotRaise` | `policy/score_calculator.go:483-627` | In these cases a new failing check does not raise the score of a run |
| `BandedScoring.HighOnMediumRaises` | `policy/score_calculator.go:586-619` | The first failing high check on top of medium ones takes 30 to 34 |
| `BandedScoring.MediumOnLowRaises` | `policy/score_calculator.go:586-619` | The first failing medium check on top of low ones takes 60 to 66 |
| `DecayedScoring.DecayedScoreCalculator.Calculate` | `policy/score_calculator.go:732-767` | The result is that of the specification, for every function with the laws of exp |
| `DecayedLaws.DecayedIsPointsLeft` | `policy/score_calculator.go:662-767` | With the law of exponents, the value is 100 (exp(r w / 10) - 1) / (exp(w / 10) - 1) for the share r of the stakes that is left and the total weight w, rounded down, and 0 without stakes |
| `DecayedLaws.HalfLost` | `policy/score_calculator.go:751-761` | At half of the stakes that is 100 / (1 + exp(w / 20)) |
| `DecayedLaws.AdapterIsPlain` | `policy/score_calculator.go:50-102` | What AddSpecdScore makes of a missing, an ignored and any other score: value raised to the floor that the impact sets, weight of the impact if it has one, else at least 1 |
| `DecayedScoring.SpecdLossWithinLimit` | `policy/score_calculator.go:50-102` | The score floor of AddSpecdScore keeps what a check loses within what its impact allows |
| `DecayedScoring.LossWithinLimit` | `policy/score_calculator.go:682-694` | Over any run 0 <= x <= xmax |
| `DecayedScoring.LimitNeedsWeight` | `policy/score_calculator.go:751-761` | Where the code divides, the denominator is positive |
| `DecayedScoring.DecayedInRange` | `policy/score_calculator.go:732-767` | The value is in 0..100, is 100 without any loss and 0 with the greatest |
| `DecayedScoring.DecayedIgnoresOrder` | `policy/score_calculator.go:662-767` | The decayed score does not depend on the order of contributions |
| `PolicyWindow.RecalculateAt` | `policy/policy.go:339-369` | The result is the first moment among the dates of the groups (both ends of the validity, start and end date) that are set and not over yet, or nil if there is none |
| `PolicyWindow.WindowIsSafeIff` | `policy/resolved_policy_builder.go:767-804` | Until that time, including it, every group matches or not as it does now, exactly unless the clock is not past the epoch, the window is, and a matching group ends with it |
| `PolicyWindow.WindowIsTightIff` | `policy/resolved_policy_builder.go:772-787` | Right after that time a group changes its answer exactly if it matches now and ends then, so waiting for the start dates that are collected as well is not needed |
| `PolicyWindow.EarliestStaysIff` | `policy/policy.go:339-369` | Computed again later, the recalculation time is the same exactly as long as it has not passed |
| `PolicyWindow.EpochIsSkipped` | `policy/policy.go:342-350` | The least case in which the window is not safe |
| `PolicyChecksums.PolicyHub.UpdateAllChecksums` | `policy/policy.go:371-658` | The in-place sorts and loops give the sum over sorted children plus the new local sums; it fails exactly on a group that cannot be resolved, leaving no local sums |
| `PolicyChecksums.PolicyHub.UpdateChecksums` | `policy/policy.go:261-337` | Afterwards the policy is up to date, its local sums and content and all cached sums of others are unchanged, and it succeeds if all references resolve |
| `ChecksumContents.LocalSumsIff` | `policy/policy.go:457-655` | With equal own fields, local checksums are equal exactly if the recalculation times are and, group by group, type, review status, references by MRN with their actions, the four dates (none counting as 0) and the sums of the body, and finally the sums of the risk factors |
| `ChecksumContents.LocalExecutionIff` | `policy/policy.go:457-655` | The same for the execution checksum, which leaves out content |
| `ChecksumContents.ContentCoversExecution` | `policy/policy.go:640-655` | Equal content checksums have equal execution checksums |
| `ChecksumContents.GraphSumsIff` | `policy/policy.go:293-337` | Graph checksums of policies that are up to date are equal exactly if the local ones are and the children have, one by one, the same graph checksums |
| `ChecksumContents.ChildrenAreByGroup` | `policy/policy.go:463-494` | The children are those of all groups in order, by MRN within each |
| `PolicyChecksums.SortByMrn` | `policy/policy.go:300-305` | Sorting references by MRN and sorting their MRNs list children alike |
| `PolicyChecksums.SortedGroupsHaveSameChildren` | `policy/policy.go:463-466` | Sorting groups in place does not change the order in which children are added |
| `PolicyChecksums.FullThenFast` | `policy/policy.go:281-337` | After a full computation, invalidating the graph sums and taking the optimized route restores them |
| `PolicyChecksums.UpdateRestores` | `policy/policy.go:283-337` | Whatever set of graph sums is invalidated, updating brings back the ones there were, for all that is recomputed |
| `PolicyChecksums.UpdateIsIdempotent` | `policy/policy.go:283-337` | Updating a policy that is up to date changes none of its sums |
| `PolicyChecksums.UpdateKeepsConsistent` | `policy/policy.go:283-337` | If all cached sums are up to date they still are after an update |
| `PolicyChecksums.LocalSumsLastUntil` | `policy/policy.go:281-290` | Local sums computed later equal the stored ones exactly until the recalculation time of the policy has passed, so the optimized route loses nothing until then |
| `PolicyChecksums.FastWindowIsFullIff` | `policy/policy.go:306-318` | The recalculation time of the optimized route is that of the full one exactly if the date of every child from the bundle is matched by the own date or that of another child |
| `PolicyChecksums.BundledDateIsLost` | `policy/policy.go:306-318` | The date of a single child from the bundle is lost |
| `Migrations.SummarizeStage` | `policy/bundle_migrations.go:24-93` | Collects exactly what a stage consumes, produces, renames, removes and creates, with an error exactly if something is consumed or produced twice |
| `Migrations.KindsAre` | `policy/bundle_migrations.go:24-93` | What is noted as removed, created and renamed are exactly the UIDs that migrations of that kind name |
| `Migrations.StageSummary.LintStageConsumeProduce` | `policy/bundle_migrations.go:95-108` | Reports exactly what is both consumed and produced |
| `Migrations.LintStage` | `internal/bundle/lint_rules_bundle_migrations.go:141-168` | Reports nothing exactly if every migration is of a known kind and names the UIDs it needs, no UID is taken twice or brought twice, and none is both taken and brought |
| `Migrations.LintCrossMigrationStage` | `policy/bundle_migrations.go:143-202` | Reports nothing exactly if every UID that some migration of a stage brings is final or taken by a migration of a later stage |
| `Migrations.CleanStageIsConfluent` | `policy/cnspec_policy.pb.go:3145-3147` | The migrations of a clean stage give the same result in any order |
| `Migrations.OrderDoesNotMatter` | `policy/cnspec_policy.pb.go:3145-3147` | So do any migrations whose UIDs are pairwise disjoint |
| `Migrations.CommuteIffDisjoint` | `policy/bundle_migrations.go:24-108` | Two well-formed migrations commute exactly if they touch no common UID, or one renames a UID to itself, or both do the same |
| `Migrations.AfterMigration` | `policy/bundle_migrations.go:24-93` | A migration removes what it takes and brings what it brings, with initial or moved data, and changes nothing else |
| `Migrations.StageKeys` | `policy/bundle_migrations.go:24-93` | After a stage there is only what was there and not consumed, and what the stage produces |
| `Migrations.CleanStagesLeaveFinal` | `policy/bundle_migrations.go:143-202` | Running all stages leaves only the final UIDs and those untouched from the start |

## Left out

* MQL compilation, the `mqlc`, `llx` and `mrn` libraries, properties (`compileProps`, `PropsCache`) and datapoints: code ids, MRNs and whether code compiles are inputs.
* `RiskDataQueries`, and the data query references that `addRiskFactor` keeps for them: they depend on entrypoints of compiled code.
- ImpactOverrides.ImpactGatherer.Gather: covers the impacts of checks only; action overrides, scoring systems, risk magnitudes and the impacts of policies gathered by the same pass, and the pass over frameworks, are inputs of the builder.
- GraphBuilder.ResolvedPolicyBuilder.AddRiskFactor: leaves out the data query references, which only `RiskDataQueries` uses; what it adds to the graph is `GraphParts.RiskParts`.
- GraphBuilder.ResolvedPolicyBuilder.AddPolicy: equals the specification function; what that adds is `PolicyParts.PolicyBringsReached`.
- GraphBuilder.ResolvedPolicyBuilder.AddControl: equals the specification function; what that adds is `FrameworkParts.ControlParts`.
- GraphBuilder.ResolvedPolicyBuilder.AddFramework: equals the specification function; what that adds is `FrameworkParts.FrameworkBrings`.
- ResolverRun.BuildResolvedPolicy: starts from any overrides and query types (for collected types see `CollectedTypes.NodesHaveCollectedTypes`), and leaves out `RiskDataQueries`, properties and the execution and collector checksums.
- GraphWalk.ResolvedPolicy.Build: keeps of an execution query only its code id and of a risk factor only its MRN, because the rest is copied.
- GraphWalk.ResolvedPolicy.Walk: a failing build leaves unspecified what had been built before it, because the result is thrown away.
- CollectedJobs.QueriesAreTheCode: the queries of properties that the source also puts into the execution job are left out with the properties.
- CollectedJobs.BuildOrderDoesNotMatter: risk MRNs are the same as multisets; their order within a list does depend on the walk.
- PolicyChecksums.PolicyHub.UpdateChecksums: the time returned covers the policy and its direct children, as in the code, not their children in turn.
- PolicyChecksums.PolicyHub.UpdateAllChecksums: the fields of a policy, the checks and queries of a group and the risk factors enter as their already computed sums, because `variantsExecutionChecksum`, the query checksums and those of risk factors are not part of this model.
- PolicyWindow.WindowIsTightIff: is about clocks past the Unix epoch.
- Migrations.CleanStageIsConfluent: the code that applies migrations is not in the repository; create, remove and rename act on a map from UIDs to data, which is what their names and the lint rules say.
- RiskFactors.AdjustRiskScore: floating point is modelled by real numbers.
- DecayedScoring.DecayedInRange: floating point is modelled by real numbers and `math.Exp` by any function with the laws of exp.
- DecayedLaws.DecayedIsPointsLeft: is about values and impacts from 0 to 100, and any function with the laws of exp, the law of exponents among them.
- ChecksumContents.LocalSumsIff: is about policies whose own fields have equal sums, because these fields enter as their sum only.
- RiskLaws.RelativeTakesShare: is about magnitudes in [-1, 1]; what others do to the range is `RiskFactors.StepRangeIsExact`.
- Scores.CountersFit: unsigned 32-bit counters are natural numbers everywhere; this lemma says when that makes no difference.
* The execution and collector checksums of `refreshChecksums` (they are computed before the checksums of the jobs), and the base checksum that uuids start from.
* A query whose MRN is empty, on which the variant search dereferences nil, and policy references that do not resolve, on which the builder does.
* Policies or frameworks with circular references, on which the builder does not terminate.
* `NewScoreCalculator` and the feature flags it reads: every calculator starts from its constructor.
* The unstable `sort.Slice` is modelled as a stable sort; the keys it sorts by are those the checksums see.
* Bundle loading, upload, storage, caching, retries, printing and conversion between formats.
