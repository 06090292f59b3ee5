# nginx-operator: a verified model

This project models the operator of this repository, its configuration generator and its reloader sidecar, and
proves what they guarantee over whole runs.

**The reconcile protocol** (`cluster.dfy`, `client.dfy`, `server_controller.dfy`, `attached_controllers.dfy`). The
API store holds servers, routes, upstreams, ConfigMaps, Deployments and Services with resource versions,
generations, finalizers and deletion marks. A run is an audit trail: every step that anybody takes, with the store
after it. Each write of a reconcile pass carries its purpose and the steps it relies on, and `StepOk` says which
steps the API server and the protocol allow. The three reconcilers are classes whose methods go step by step through
the calls of the source; before each call everybody else may take any number of allowed steps, each write may be
refused, lost or applied without an answer, and reads may come from a cache. The methods are proved to take only
allowed steps, and `history.dfy`, `safety.dfy` and `triggers.dfy` prove what any trail of allowed steps keeps: write
order, last known good, triggers before readiness, finalizers, when a pass ends in agreement, and the fixed points of
owned objects and of the status. `reports.dfy` and `asked.dfy` write out what the stored status says and what the stored
objects are in terms of the user's spec. `stale.dfy` builds a run in which a pass with cached reads does not end in agreement,
and `operator.dfy` and `as_built.dfy` put the protocol and the generator together.

**The configuration generator** (`generator.dfy`, `templates.dfy`, `render.dfy`, `words.dfy`). The three templates are
functions from template data to the exact lines they render; the generator's methods fill in the data, resolve
references, sort in place and assemble the text, as the source does. `closure.dfy` is about references, `order.dfy`
about the order of listings and of unstable sorts, `nesting*.dfy` about what rendered text inherits from the strings in
it, for braces and for line breaks. `server_lines.dfy` and `reader.dfy` hold readers of text, written independently of
the templates; `server_lines.dfy` and `handlers.dfy` prove that they give back what was rendered. So is the reader of
`items.dfy`, which takes any text line by line as directives and blocks; `items_*.dfy` prove that every directive of a
configuration, read from its text, is what the resources ask for.

**The reloader** (`filesystem.dfy`, `volume.dfy`, `stream.dfy`, `reloader.dfy`). The watched directory is a history of
single-file edits that may come at any moment, also during a walk; a walk sees each path at a moment of its own, in its
order. The locked state is a step function of ticks, and the sidecar is a class that makes those steps, in the loop of
main. A ghost observation behind the hash on record gives the bound on reloads; a ghost disk is what NGINX has loaded.

`conditions.dfy`, `validator.dfy`, `resources.dfy`, `ports.dfy` and `listing.dfy` hold the parts the reconcilers call.

Findings, each with a lemma: cached reads can end a successful pass in disagreement
(`AsBuilt.CachedOperatorDisagrees`; `Safety.AgreementIff` says exactly when); the trigger a deletion sends comes before
the route is gone (`Triggers.DeletedRouteStillListed`); discovered backends never reach the stored spec
(`Triggers.SpecsAreUsers`); a load balancer address or traffic policy set later never reaches a Service that exists
(`Safety.ServiceKeepsRest`); validation accepts ports whose names clash with the one TLS adds (`Ports.ValidNamesClash`)
and pod labels that make the selectors miss the pods (`Ports.ValidSelectorsMiss`); upstream names that differ in
separators only share a block (`Closure.SameBlockIff`); two edits at once can leave the reloader's hash as it was
(`Reloader.AgreementNeedsSizes`) or tear a walk (`FileSystem.TornWalk`); an edit reverted inside a tick can leave NGINX
on a version that is no longer on disk (`Reloader.LostEdit`); and health is not restored when a bad edit is reverted
(`Reloader.UnhealthyUntilNews`).

Where code and documentation differ, the model follows the code. `computeConfigHash` is said to detect any change; it
detects any single edit, any pure addition and any pure removal. Block names are said to have the form
namespace-name; dashes, dots, slashes and blanks become underscores. Autoscaling is documented but creates nothing.

`dafny verify dfyconfig.toml` covers the whole project.

## Model

| member | source | states |
|---|---|---|
| `Safety.LastKnownGood` | internal/controller/nginxserver_controller.go:104-139 | in every run a stored ConfigMap is what the generator made of a server that passed validation, with the routes and upstreams that were stored for it |
| `OperatorConfig.ConfigMapIsGenerated` | internal/controller/nginxserver_controller.go:123-139 | the same with GenerateFullConfig spelled out: sorted by priority, every reference resolved |
| `OperatorConfig.DanglingIsReported` | internal/controller/nginxserver_controller.go:113-132 | a pass reports that nothing can be generated exactly when a stored route of the server refers to an upstream that no stored upstream of the server is named like; otherwise it applies what it has generated |
| `OperatorConfig.DanglingChangesNothing` | internal/controller/nginxserver_controller.go:124-132 | and then no owned object of the server is written from the beginning of the pass on |
| `AsBuilt.OperatorGenerates` | internal/config/generator.go:336-400 | an operator whose generator is GenerateFullConfig with one correct sort meets the hypothesis of these results, for any hash |
| `OperatorConfig.StoredReferencesReach` | internal/config/generator.go:347-399 | in whatever text a ConfigMap holds, each reference reaches the block of an upstream of that name that was stored for the server, and only that block if names are undotted |
| `Safety.DeploymentHashWasHeld` | internal/controller/nginxserver_controller.go:136-144 | write order: the hash on a stored pod template is the hash of a configuration that the ConfigMap has held by then, whatever write failed where |
| `Safety.StatusHashWasCarried` | internal/controller/nginxserver_controller.go:151-152 | write order: a hash in a stored status is one that the Deployment has carried by then |
| `Safety.AgreementIff` | internal/controller/nginxserver_controller.go:134-152 | at the end of a successful pass, whatever its reads were and whatever users did meanwhile, the owned objects that are stored and the status all belong to its run if and only if each of these objects was as the run wants it when the pass began or was written by the pass |
| `Safety.AgreementAtEnd` | internal/controller/nginxserver_controller.go:134-152 | which is the case if its reads were fresh |
| `Safety.UncachedIsFresh` | internal/controller/nginxserver_controller.go:183-191 | reads that do not come from a cache are fresh |
| `Stale.StaleReadsDisagree` | internal/controller/nginxserver_controller.go:183-191 | with cached reads the condition can fail, whatever generator and hash are: for any two valid specs with different configurations a run at whose end the ConfigMap holds another configuration than the status reports |
| `AsBuilt.CachedOperatorDisagrees` | cmd/operator/main.go:161 | so it can for the operator itself, whose generator tells specs apart and whose manager client reads from a cache |
| `Safety.GivingUpChangesNothing` | internal/controller/nginxserver_controller.go:104-132 | a pass that rejects the spec or cannot generate leaves ConfigMap, Deployment and Service as they are, from its first step to its last |
| `Safety.OwnedAfterFinalizer` | internal/controller/nginxserver_controller.go:95-102 | owned objects exist only for a server that was stored earlier with the finalizer |
| `Safety.ServiceKeepsRest` | internal/controller/nginxserver_controller.go:262-273 | a Service keeps its cluster address for as long as it stands, and also the load balancer address and traffic policy it was created with, whatever its server asks for later |
| `Safety.SettledIff` | internal/controller/nginxserver_controller.go:134-152 | at the end of a successful pass in which nothing was deleted all three owned objects are stored as wanted if and only if each was so when the pass began or was written by the pass |
| `Safety.SettledAtEnd` | internal/controller/nginxserver_controller.go:134-152 | which is the case if its reads were fresh |
| `Safety.FixedPoint` | internal/controller/nginxserver_controller.go:193-202 | where a pass has left the owned objects as wanted, later passes over the same spec and configuration send a write of one only because of a read older than the end of that pass |
| `Safety.FreshFixedPoint` | internal/controller/nginxserver_controller.go:223-242 | so those whose reads are fresh send none |
| `Safety.SameListings` | internal/controller/nginxserver_controller.go:113-123 | the same spec, routes and upstreams in the same order give the same configuration, so they are the same input for the fixed point |
| `Reports.FinalReportReads` | internal/controller/nginxserver_controller.go:313-352 | after a successful pass the stored status reads: Ready is True exactly when the Deployment that was read has ready replicas and as many of them as replicas, and otherwise False as not ready yet; ConfigValid and ConfigApplied are True, other conditions are untouched; hash, generation, counts, reload time and replica counts are those of what was read and generated |
| `Reports.FailureReads` | internal/controller/nginxserver_controller.go:104-132 | a rejected spec reads as not ready, a failed generation as an invalid configuration, each with its message, and nothing else of the status changes |
| `Reports.FinalizerSteps` | internal/controller/nginxserver_controller.go:95-102 | adopting a server adds its finalizer, releasing it takes it away and lets it go if it was the last, and nothing else changes |
| `Asked.AgreedAsAsked` | internal/controller/nginxserver_controller.go:134-152 | a successful pass that ends in agreement leaves stored what the spec it has read asks for, written out field by field |
| `Asked.DeploymentAsAsked` | internal/nginx/manager.go:93-256 | wherever the Deployment is as a pass wants it, its replicas, image, pod labels and annotations are those the user asks for or the defaults, the labels the user does not set are the operator's, and the hash is the reported one |
| `Asked.ServiceAsAsked` | internal/nginx/manager.go:306-381 | the same of type, ports and selector of the Service: the user's ports in order or plain HTTP, then HTTPS just if TLS is on and 443 is free |
| `Asked.ConfigMapAsAsked` | internal/controller/nginxserver_controller.go:173-202 | the ConfigMap holds the configuration in one file |
| `Asked.ServiceCreatedAsAsked` | internal/nginx/manager.go:383-390 | a Service comes about with the load balancer address and traffic policy of the spec |
| `Safety.StatusFixedPoint` | internal/controller/nginxserver_controller.go:313-360 | of two successful passes with no report in between, the second leaves the stored status as it is, up to the reload time, if and only if it finds the generation, hash, counts and readiness that the first has reported |
| `Safety.ReportAgain` | internal/controller/nginxserver_controller.go:328-347 | the same of the report itself, as a function of what was found |
| `ServerController.NginxServerReconciler.Reconcile` | internal/controller/nginxserver_controller.go:76-153 | one pass under any interference: it ends as the server it read calls for, unless the API faults, every write on the way is justified by what was read and written before, and all its writes serve one run |
| `ServerController.NginxServerReconciler.Serve` | internal/controller/nginxserver_controller.go:112-152 | collect, generate, and write in the order ConfigMap, Deployment, Service, status, or report that generation failed |
| `ServerController.NginxServerReconciler.ReconcileConfigMap` | internal/controller/nginxserver_controller.go:173-202 | success means the ConfigMap was seen or left holding the configuration; a write is sent only if it was seen to differ |
| `ServerController.NginxServerReconciler.ReconcileDeployment` | internal/controller/nginxserver_controller.go:205-242 | the same for the Deployment with the hash annotation, and only once the ConfigMap is done |
| `ServerController.NginxServerReconciler.ReconcileService` | internal/controller/nginxserver_controller.go:245-276 | the same for ports, type and selector of the Service, keeping its cluster address, and only once the Deployment is done |
| `ServerController.NginxServerReconciler.UpdateStatus` | internal/controller/nginxserver_controller.go:313-360 | the final report relies on all three and on the Deployment read last; the pass comes back after ten seconds unless that has ready replicas and no others |
| `ServerController.NginxServerReconciler.StatusOf` | internal/controller/nginxserver_controller.go:314-347 | field by field and condition by condition this is AppliedStatus, which Reports.FinalReportReads writes out; ready means that some replica is and all are |
| `ServerController.NginxServerReconciler.HandleDeletion` | internal/controller/nginxserver_controller.go:156-170 | a server being deleted loses the finalizer, if it has it, and nothing else |
| `ServerController.NginxServerReconciler.Adopt` | internal/controller/nginxserver_controller.go:95-102 | the finalizer is added in a write of its own, and the pass is queued again |
| `ServerController.NginxServerReconciler.ReportRejected` | internal/controller/nginxserver_controller.go:104-110 | an invalid spec is reported and nothing is applied |
| `ServerController.NginxServerReconciler.ReportNotGenerated` | internal/controller/nginxserver_controller.go:124-132 | a failed generation is reported, a failure to report is not an error, and the pass comes back after 30 seconds |
| `Triggers.ReadyWasTriggered` | internal/controller/nginxroute_controller.go:113-131 | whenever a stored route or upstream reads Ready=True for generation g, the server its generation g names was triggered while the store held that generation: its annotation was set, in a new version of it |
| `Triggers.TriggerAnnotates` | internal/controller/nginxroute_controller.go:162-174 | a trigger that goes through sets the annotation of the stored server to its time and changes nothing else, whatever others did since the server was read |
| `Reports.RouteReadyReads` | internal/controller/nginxroute_controller.go:117-133 | the status of a route that is reported ready, condition by condition and field by field |
| `Reports.UpstreamReadyReads` | internal/controller/nginxupstream_controller.go:129-157 | the same of an upstream, with the number of its backends, of those not marked down, and the addresses that were discovered |
| `Reports.ProblemReads` | internal/controller/nginxupstream_controller.go:244-251 | a reported problem reads as Ready=False with its reason and message for the generation read, and nothing else changes |
| `Triggers.GenerationNamesSpec` | internal/controller/nginxroute_controller.go:120-127 | of one object, generations never go back and one generation has one spec |
| `Triggers.ConditionsAreGuarded` | internal/controller/nginxroute_controller.go:83-90 | an object with any condition carries its finalizer, or has been released by handleDeletion while being deleted |
| `Triggers.LeavesOnlyReleased` | internal/controller/nginxroute_controller.go:139-159 | an object that has been reported on leaves the store only after such a release |
| `Triggers.ReleaseFollowsTrigger` | internal/controller/nginxupstream_controller.go:161-181 | a release follows a lookup of the named server by the same pass and, if that found it, a trigger sent to it; meanwhile the object stood in the store |
| `Triggers.DeletedRouteStillListed` | internal/controller/nginxroute_controller.go:143-155 | at each trigger a deletion sends, the deleted route is still listed for its server |
| `Triggers.SpecsAreUsers` | internal/controller/nginxupstream_controller.go:217-219 | no pass ever changes a stored spec: discovered backends are reported but not stored |
| `History.AcceptedAttached` | internal/controller/nginxroute_controller.go:129-131 | a write whose resource version is accepted was made on what the pass had read, which stood unchanged until the write |
| `History.AcceptedServer` | internal/controller/nginxserver_controller.go:349-352 | the same for servers |
| `AttachedControllers.NginxRouteReconciler.Reconcile` | internal/controller/nginxroute_controller.go:64-134 | one pass under any interference: it ends as the route it read calls for, unless the API faults, and every write on the way is one the protocol allows |
| `AttachedControllers.NginxRouteReconciler.Serve` | internal/controller/nginxroute_controller.go:100-116 | a missing server is reported; otherwise the server is triggered before readiness is reported |
| `AttachedControllers.NginxRouteReconciler.ReportRoute` | internal/controller/nginxroute_controller.go:117-133 | readiness of the generation that was read, only after a trigger that went through |
| `AttachedControllers.HandleDeletion` | internal/controller/nginxroute_controller.go:139-159 | the server is looked up, triggered if found whatever becomes of it, and then the finalizer goes |
| `AttachedControllers.TriggerServer` | internal/controller/nginxroute_controller.go:162-174 | a trigger sets the annotation of the server to its time and changes nothing else; it is sent in any case, and takes effect if it is acknowledged |
| `AttachedControllers.Report` | internal/controller/nginxupstream_controller.go:244-251 | a problem is reported as Ready=False with its reason |
| `AttachedControllers.NginxUpstreamReconciler.Reconcile` | internal/controller/nginxupstream_controller.go:65-158 | the same for upstreams, which come back after 30 seconds if backends are discovered |
| `AttachedControllers.NginxUpstreamReconciler.Serve` | internal/controller/nginxupstream_controller.go:101-127 | discovery comes after the server is found and before it is triggered, and its failure is reported |
| `AttachedControllers.NginxUpstreamReconciler.ReportUpstream` | internal/controller/nginxupstream_controller.go:129-157 | counts and readiness reported after a trigger, over the discovered backends if discovery ran |
| `AttachedControllers.NginxUpstreamReconciler.ResolveServiceEndpoints` | internal/controller/nginxupstream_controller.go:185-227 | one backend per ready address of the Service, in the namespace given or else that of the upstream |
| `AttachedControllers.CollectEndpoints` | internal/controller/nginxupstream_controller.go:200-215 | the nested loops list every address of every subset in order, as text and as backend |
| `AttachedControllers.ResolvedInOrder` | internal/controller/nginxupstream_controller.go:200-215 | subset after subset and address after address a backend at the given port, with weight 1, three failures in ten seconds, and otherwise nothing |
| `AttachedControllers.DiscoveredAreActive` | internal/controller/nginxupstream_controller.go:203-215 | as many backends as addresses, all of them counted active, each with an address of some subset |
| `AttachedControllers.NginxUpstreamReconciler.CountActive` | internal/controller/nginxupstream_controller.go:130-136 | the counter loop counts the backends not marked down |
| `Client.ApiClient.Send` | internal/controller/nginxserver_controller.go:198 | one write: refused, lost, or applied exactly as the API server defines it, with an acknowledgement only for one that was applied |
| `Client.ApiClient.Read` | internal/controller/nginxserver_controller.go:82-88 | one read: the current store or, with a cache, an earlier one; or no answer |
| `Client.ApiClient.Lookup` | internal/controller/nginxroute_controller.go:144-146 | a lookup of a server that is kept on record |
| `Listing.FindForServer` | internal/controller/nginxroute_controller.go:200-224 | the requests a server event enqueues are those of the objects collected for it, in list order |
| `Listing.RoutesForServer` | internal/controller/nginxserver_controller.go:279-293 | the loop collects the routes that name the server, each once and none missing |
| `Listing.UpstreamsForServer` | internal/controller/nginxserver_controller.go:296-310 | the same for upstreams |
| `Listing.CollectedIff` | internal/controller/nginxupstream_controller.go:265-289 | an object is collected for the server it names and for no other |
| `Listing.Partition` | internal/controller/nginxserver_controller.go:285-290 | the lengths of the lists collected for different servers add up to the number of objects that name one of them |
| `Listing.Disjoint` | internal/controller/nginxserver_controller.go:302-307 | lists collected for different servers are disjoint |
| `Conditions.ConditionList.Set` | internal/controller/nginxserver_controller.go:383-406 | the loop over the slice, in place, is SetCondition |
| `Conditions.SetThenFind` | internal/controller/nginxserver_controller.go:385-405 | a call decides what its kind reads, moves the clock only when the status changes or the kind is new, and leaves every other kind alone |
| `Conditions.HistoryOrder` | internal/controller/nginxserver_controller.go:383-406 | after any history of calls each kind stands once, in the order of first calls |
| `Conditions.HistoryContent` | internal/controller/nginxserver_controller.go:387-393 | a kind reads what its last call wrote, with the time of the call that last changed its status |
| `Conditions.LastChangeIsLast` | internal/controller/nginxserver_controller.go:387-389 | that call is the last one at which the status changed |
| `Validator.ValidateNginxServer` | internal/config/validator.go:51-109 | reports exactly the listed errors in order, and accepts exactly the specs that meet the stated conditions |
| `Validator.NoPortErrors` | internal/config/validator.go:86-97 | the pass with the set of seen names finds nothing exactly when names are non-empty and pairwise distinct |
| `Validator.ValidateNginxRoute` | internal/config/validator.go:116-189 | accepts exactly the routes with server, name, locations of one handler each, a rate where limited, and plausible addresses |
| `Validator.ValidateNginxUpstream` | internal/config/validator.go:196-248 | accepts exactly the upstreams with valid backends, or valid discovery, and a known algorithm |
| `Resources.BuildService` | internal/nginx/manager.go:306-381 | the loops build the Service that DesiredService describes |
| `Resources.PortsOfService` | internal/nginx/manager.go:309-376 | user ports are an ordered prefix, at most one port is added, TLS servers listen on 443, and distinct numbers stay distinct |
| `Resources.NamesOfService` | internal/nginx/manager.go:355-373 | port names stay distinct exactly when the name of the added port is not taken |
| `Ports.ValidServiceNames` | internal/config/validator.go:86-97 | for a spec that validation accepts, names of the Service are distinct unless a user port not on 443 is called https while TLS is on |
| `Ports.ValidNamesClash` | internal/nginx/manager.go:364-373 | validation does accept such a spec |
| `Ports.ValidSelectorsMiss` | internal/nginx/manager.go:246-266 | validation accepts a spec whose pods neither Deployment nor Service selects |
| `Resources.BuildDeployment` | internal/nginx/manager.go:93-256 | replicas and image as asked or by default, the user's labels over the operator's, annotations copied in loops; with the hash annotation added this is DesiredDeployment, which Asked.DeploymentAsAsked writes out |
| `Resources.SelectorsMatch` | internal/nginx/manager.go:246-266 | Deployment and Service select the pods exactly when no pod label of the user gives a selector label another value |
| `Resources.HashAnnotationWins` | internal/controller/nginxserver_controller.go:217-221 | the pod template carries the hash whatever annotations the user sets, and keeps the others; different hashes make different Deployments |
| `Generator.GenerateFullConfig` | internal/config/generator.go:336-400 | the text of the configuration for some correct sort of the routes; it fails exactly when some reference does not resolve |
| `Generator.GenerateMainConfig` | internal/config/generator.go:149-211 | the main template with every default overridden where the user gives a value; MainItems.MainReads says what it says |
| `MainItems.MainReads` | internal/config/templates.go:22-133 | read line by line, the text of the main part says exactly what the spec asks for, directive by directive and block by block, with every default, and nothing else |
| `Generator.GenerateRouteConfig` | internal/config/generator.go:219-285 | the route template with references resolved; it fails exactly on a reference that is not in the map, and names it; ConfigItems.RouteReads says what it says |
| `ConfigItems.RouteReads` | internal/config/templates.go:137-282 | read line by line, the text of a server block says exactly what the spec of the route asks for: listen ports, names, certificates, redirect, access, limits, headers, CORS and locations, in this order, with every default, and nothing else |
| `LocationItems.LocationSays` | internal/config/templates.go:219-280 | the same of a location: the first handler that is set with all its settings, the limit, the headers |
| `AccessRules.RouteRules` | internal/config/templates.go:167-172 | read from the text of its server block, the access rules of a route are the addresses it allows and then those it denies, each in order, and no others |
| `Generator.GenerateUpstreamConfig` | internal/config/generator.go:293-328 | the upstream template with defaults, under the sanitised name; UpstreamItems.UpstreamReads says what it says |
| `UpstreamItems.UpstreamReads` | internal/config/templates.go:286-309 | read line by line, the text of an upstream block says exactly what its spec asks for: balancing, backends, keepalive, with every default, and nothing else |
| `ConfigItems.ConfigReads` | internal/config/generator.go:336-400 | a whole configuration says what the server, the upstreams as listed and the routes as sorted ask for, in this order |
| `ConfigItems.StoredConfigReads` | internal/controller/nginxserver_controller.go:123-139 | in every run, a stored ConfigMap was generated from stored resources, and read back its text says what they ask for |
| `Generator.SortByPriority` | internal/config/generator.go:360-365 | in place: a permutation in order of priority, without stability |
| `Generator.AssembleSection` | internal/config/generator.go:383-397 | a heading and each block with a line break, or nothing |
| `Closure.ResolvesIff` | internal/config/generator.go:261-268 | generation succeeds if and only if every reference that is not empty names a listed upstream |
| `Closure.NamesKnown` | internal/config/generator.go:348-356 | the name map knows exactly the listed names, each with the block of the last upstream so named |
| `Closure.ReferenceClosure` | internal/config/generator.go:347-396 | the block of every location with a reference, whole in the text, passes requests to the block of an upstream it names, and that block is opened earlier in the text |
| `Closure.SameBlockIff` | internal/config/generator.go:414-422 | two upstreams of a namespace are rendered under one block name if and only if their names differ at most in which of dot, slash, dash, blank and underscore they use |
| `Closure.OneBlockIff` | internal/config/generator.go:294 | so an upstream has a block name to itself if and only if no other listed name differs from its own only so |
| `Closure.BlockNamesApart` | internal/config/generator.go:414-422 | names of one namespace without dots or underscores keep their blocks apart |
| `Closure.DottedNamesCollide` | internal/config/generator.go:414-422 | with a dot two upstreams can get one block name |
| `Closure.IntendedBlock` | internal/config/generator.go:348-358 | undotted names of one namespace reach exactly one block, the one they mean |
| `Closure.GeneratedRendering` | internal/config/generator.go:370-375 | the text of a valid route in a generated configuration reads back as its locations in order, each with the one handler the user set |
| `Order.SameUnderAnySortIff` | internal/config/generator.go:363-365 | the rendered server blocks are the same for every correct sort if and only if routes of one priority render alike |
| `Order.DistinctAgree` | internal/config/generator.go:363-365 | which they do when priorities are distinct |
| `Order.OrderIndependence` | internal/config/generator.go:347-376 | for permuted listings and any correct sorts: same success, same server blocks in the same order, same multiset of upstream blocks |
| `Order.NamesPermute` | internal/config/generator.go:348-356 | with unique names the name map does not depend on the order of the listing |
| `ServerLines.ServerReadBack` | internal/config/templates.go:296-298 | a rendered server line reads back as its backend, defaults standing for what was left out, for all numbers and all addresses and timeouts without blanks |
| `ServerLines.BlockReadBack` | internal/config/templates.go:286-309 | reading the text of a rendered upstream block gives its list of backends in order |
| `ServerLines.RenderingInjective` | internal/config/generator.go:293-328 | blocks with the same text have the same backends |
| `Handlers.RouteReads` | internal/config/templates.go:219-280 | the lines of the text of a server block read back as its locations, one to one and in order, each with the directive of its handler, if only snippets break lines and no line of a snippet looks like such a line itself |
| `Handlers.HandlerCount` | internal/config/templates.go:221-264 | a location renders one handler if any is set, the first of those set; a valid one exactly the one the user set |
| `Handlers.ValidatedRendering` | internal/config/validator.go:132-165 | the text of a route that validation accepts and that can be generated reads back with exactly one handler per location, of the kind set |
| `NestingSections.MainLevel` | internal/config/templates.go:22-133 | from balanced strings comes a main part that is balanced in braces: what follows it is outside of http |
| `NestingSections.UpstreamLevel` | internal/config/templates.go:286-309 | an upstream block is balanced, for any number of backends |
| `NestingSections.LocationLevel` | internal/config/templates.go:219-280 | a location is a balanced block, whatever its handler; and from strings without line breaks come lines without them, snippets apart |
| `NestingSections.RouteLevel` | internal/config/templates.go:137-282 | the same of a server block, for any number of locations, headers and CORS entries |
| `NestingConfig.ConfigNests` | internal/config/generator.go:378-399 | with balanced strings in the resources the main part, every block and the whole text are balanced |
| `NestingConfig.ConfigBlocksAtDepthZero` | internal/config/generator.go:383-397 | in a generated configuration every upstream block and every server block is balanced and stands between balanced texts: at depth zero, outside of http |
| `Nesting.BalancedFromZero` | internal/config/templates.go:22-309 | never below depth zero and back to zero from zero is the same as balanced at every depth |
| `Reloader.Sidecar.CheckAndReload` | cmd/reloader/main.go:137-181 | one tick under any edits: the locked state makes the step its walk and commands call for, the hash is that of what the walk saw (and of a disk, if edits meanwhile went against the walk), and what NGINX has loaded changes just by a reload, to the disk at that moment; without edits that disk has the hash |
| `Reloader.Sidecar.Watch` | cmd/reloader/main.go:114-132 | the main loop: any number of ticks with any edits between and inside them; from undisturbed ticks NGINX has the files whose hash is on record |
| `Reloader.Sidecar.Reload` | cmd/reloader/main.go:152-180 | test, then reload, then commit; a failure of either is recorded and commits nothing, and a reload has slipped only if the signal failed |
| `Reloader.Sidecar.ValidateConfig` | cmd/reloader/main.go:184-199 | one test of the files, which leaves what NGINX has loaded alone |
| `Reloader.Sidecar.ReloadNginx` | cmd/reloader/main.go:202-215 | one signal: if it succeeds NGINX has loaded the files as they are; nothing else changes what it has loaded |
| `Reloader.CommandsTell` | cmd/reloader/main.go:143-177 | a tick commits exactly with a test that passed and then a signal that succeeded, and changes nothing exactly when it runs nothing |
| `Reloader.ReloadsAreSignals` | cmd/reloader/main.go:170-177 | over any ticks the count of reloads grows by the number of signals that succeeded |
| `Reloader.Sidecar.Status` | cmd/reloader/main.go:273-285 | what /status shows is consistent: healthy exactly without an error, a reload time exactly with reloads, as many reloads as signals that succeeded, and no more than edits of watched files |
| `Reloader.Sidecar.Health` | cmd/reloader/main.go:259-271 | /healthz answers ok exactly when the last tick since the start that ran a command succeeded, if any did, which is when no error is on record |
| `Reloader.Start` | cmd/reloader/main.go:105-112 | without an initial hash the sidecar gives up; otherwise it starts healthy with the hash of what it saw, in step with NGINX if that had loaded the files and nothing was edited meanwhile |
| `Reloader.ReloadBound` | cmd/reloader/main.go:170-177 | the count of reloads never exceeds the edits of watched files |
| `Reloader.CommitOnRecord` | cmd/reloader/main.go:143-177 | each commit takes in an edit that the observation on record had not |
| `Reloader.RecordedHashes` | cmd/reloader/main.go:144-174 | each reload puts one new hash on record, and neighbours differ |
| `Reloader.HealthIsLastAttempt` | cmd/reloader/main.go:153-177 | health is the outcome of the last tick that ran a command |
| `Reloader.UnhealthyUntilNews` | cmd/reloader/main.go:144-147 | while the hash on disk is the one on record nothing changes, so an unhealthy sidecar whose files are reverted stays unhealthy |
| `Reloader.SignalsFollowTests` | cmd/reloader/main.go:152-168 | over any ticks NGINX is signalled only right after a test that passed |
| `Reloader.Agreement` | cmd/reloader/main.go:137-181 | with a collision-free hash and undisturbed ticks, after every tick without error the loaded files are those on disk if and only if they have the same names and sizes; so they are if that tick reloaded or the disk is one edit away from what was loaded |
| `Reloader.AgreementNeedsSizes` | cmd/reloader/main.go:242-244 | without equal sizes they need not be, whatever the hash: two undisturbed ticks without error with two edits in between |
| `Reloader.Rest` | cmd/reloader/main.go:143-150 | once the watched files stay as one undisturbed tick without error has found them, their hash is on record, and all later ticks change nothing and run nothing |
| `Reloader.InStepIff` | cmd/reloader/main.go:138-172 | over any ticks NGINX has files of the hash on record if and only if the disk at the last reload had the hash that the walk of that tick had found |
| `Reloader.MidTickEdit` | cmd/reloader/main.go:138-172 | one edit between the walk and the reload keeps it so if and only if it is of no watched file or leaves it as it was |
| `Reloader.LostEdit` | cmd/reloader/main.go:138-172 | an edit between walk and reload that is taken back leaves NGINX with the version in between, whose hash is not the one on record, for any number of ticks |
| `FileSystem.UntornWalk` | cmd/reloader/main.go:218-252 | edits during a walk that go against its order, any number of edits of one file among them, let it return the files of one moment |
| `FileSystem.TearIff` | cmd/reloader/main.go:218-252 | edits that replace the contents of watched files, each at most once, can make a walk return files that were never together on disk if and only if one of them is followed by one further along the walk |
| `FileSystem.TornWalk` | cmd/reloader/main.go:218-252 | two such edits do in this order, and do not in the other |
| `Stream.SameStreamIff` | cmd/reloader/main.go:242-244 | disks with one stream have the same watched files if and only if these have the same names and sizes |
| `FileSystem.DifferentFilesMoreEdits` | cmd/reloader/main.go:218-252 | of two observations the later of which returned other files, the later has taken in more edits |
| `FileSystem.QuietWalk` | cmd/reloader/main.go:218-252 | a walk without edits returns the files of the disk |
| `Volumes.Volume.WalkDir` | cmd/reloader/main.go:218-252 | the walk feeds path and contents of exactly the watched files, in order, each as it was at some moment of the walk, and at moments that follow that order |
| `Volumes.Volume.VisitFile` | cmd/reloader/main.go:226-246 | one file: read if watched, and fed path first |
| `Stream.OneEditShows` | cmd/reloader/main.go:242-244 | any single edit of the disk, be it a new file, a lost file or new contents, changes the stream, and nothing else does |
| `Stream.AdditionsShow` | cmd/reloader/main.go:221-247 | adding any files, or removing any, changes the stream |
| `Stream.OneFileShows` | cmd/reloader/main.go:243-244 | new contents of one file change the stream |
| `Stream.RenameShows` | cmd/reloader/main.go:242-243 | so does a rename that keeps the place in the walk |
| `Stream.TwoEditsMayHide` | cmd/reloader/main.go:243-244 | two edits at once may leave the stream as it was |

## Left out

- Client, cache, watch and leader election: foreign code. The model has get, list, create and update with resource versions, and a cache only as reads of some earlier store.
- Server-side defaulting: the API server stores specs as sent, so comparing a stored with a desired spec means what it says; metadata that passes copy but never compare (labels, annotations of owned objects) is not modelled.
- Who writes what: users write neither status nor the operator's finalizers, and nobody but the operator writes owned objects, though anybody may delete them. Garbage collection is such a deletion.
- Owned objects are filed under the key of their server, so two objects never collide by name.
- Work queue: it never runs two passes over one resource at the same time, and promises nothing else; no claim is made that events drain, since timestamps are rewritten on each pass.
- Messages of conditions and errors: fixed or arbitrary texts; validation errors are a field and a problem.
- Safety.FixedPoint: owned objects only; the status is the subject of Safety.StatusFixedPoint, and the time of the last reload changes with every report.
- Generator.GenerateMainConfig: failures of template execution cannot occur and are not modelled.
- Pod scheduling fields, probes, volumes, container ports and annotations of the Service: straight copies without an interesting property.
- Autoscaling and disruption budgets: validated, as in the source, which creates no object for them.
- SHA-256 is any function of strings; `nginx -t` and `-s reload` succeed or fail at will. A reload that fails and still takes effect is marked, and excluded from the claim that NGINX stays in step.
- Symbolic links in the watched directory: files are plain files in plain directories, and each edit writes or removes one file.
- Timeouts, tickers, signals, logging and HTTP serving of the reloader, and the moment before the first hash when its health server already answers.
- NGINX's own reading of the configuration, quotes and comments included: braces are counted wherever they stand, and snippets are text.
- ConfigItems.ConfigReads: a directive that goes on over several lines, as the default log format does, is read line by line; strings other than snippets must not break lines, and what a snippet says is whatever its lines say.
- AccessRules.RouteRules: snippets must not have access rules of their own at the level of the server.
- Handlers.ValidatedRendering: no line of a snippet may itself open a location, none of a location's snippet may be a handler at that depth, and strings other than snippets must not break lines, or the reader would find that too. Resource names have no line breaks by the rules of Kubernetes; validation does not look at the others.
- FileSystem.TearIff: replacements of contents only; when files appear or vanish during the walk, which moments a listing allows for absent files is not characterised.
- ServerLines.BlockReadBack: likewise for a snippet with `server` lines, and for names and timeouts with line breaks.
