# Verified model of the Compose service broker

The broker offers Compose-hosted databases through the Open Service Broker API. It keeps no state of its own and runs as
two instances (`manifest.yml`): every operation is a sequence of calls to Compose, and the only thing that links an
asynchronous operation to its later polls is the operation-data text handed to the platform. This project models that
protocol, and the string and state handling around it, and proves what it guarantees whatever Compose answers, however
the calls of concurrent operations interleave, and however Compose progresses between them.

## How the model is built

- `operations.dfy` gives each operation as a program over Compose's replies: `Pending` is the next call, `Resume` the
  next point, and `After` the point a transcript leads to. `broker.dfy` has the broker's methods in their own imperative
  form, with the whitelist loop, the `ok` flag and the compensating call on the way out; each is proved to have spoken
  exactly one complete transcript of its operation (`Completes`) with the client whose calls it records.
- `answers.dfy` and `provision_answers.dfy` say what each operation does and answers without any of that machinery, on
  the request, the catalog and Compose's replies and statuses as they stand, and prove that a transcript and an outcome
  are those of a completed operation if and only if they fit that account.
- `transcripts.dfy` proves what all transcripts of Provision look like. `interleaving.dfy` puts any number of runs, from
  any broker instance, next to a Compose that handles one call at a time and may do anything else in between; an
  invariant is proved for every reachable state. `guarantees.dfy` draws the conclusions about isolation, compensation
  and polling from it, over all behaviours. `witnesses.dfy` constructs behaviours that end with a deployment left behind.
- `json.dfy` prints and parses JSON, and `operation_data.dfy` fills in and reads back the operation data the way
  encoding/json does. `regex.dfy` is a leftmost, greedy, backtracking
  matcher, and `hostname.dfy` runs the hostname pattern on it and compares it with a direct scan. `uri.dfy`,
  `mongo_uri.dfy` and `mongo.dfy` cover Mongo credentials and users, `elasticsearch.dfy` Elasticsearch credentials,
  `whitelist.dfy` and `catalog.dfy` the configuration.

## What is assumed of the surroundings

- Compose never reuses a deployment or recipe ID, a deployment's name never changes, and a recipe that is complete stays
  complete. Whether a failed recipe stays failed is left open; where that matters it is a hypothesis (`FailureSticks`).
- GetRecipe answers with the recipe's current status, and with a recipe only if that recipe exists.
- A lookup by name that finds a deployment returns a live one with exactly that name. PatchDeployment, when it succeeds,
  returns the deployment it patched. A deployment whose removal recipe is complete is gone; before that it may still be
  there.
- A call that succeeds returns a value, except where the broker checks for nil (`broker/broker.go:151`,
  `broker/broker.go:179`, `broker/utils.go:23`); there nil is a possible reply.
- A call answered with errors, or with nil, may nevertheless have taken effect. A whitelist entry, a deployment or a
  recipe may come into being without the broker being told.
- Provision does not look for an existing deployment of its name, so nothing here assumes that names are unique among
  live deployments: two runs may provision the same instance at once.

## What the code does that a reader might not expect

- A deployment made by a refused Provision is still there only if the creating call did not report it, or patching a
  restored deployment failed (that step comes before compensation is armed), or the compensating call was answered with
  errors, or its recipe is still to complete, for which nobody waits (`Guarantees.Survivors`). `witnesses.dfy` has a
  behaviour for each, for every configuration and every request that gets that far.
- Without further assumptions a reported failure can be retracted, and exactly the first unfinished recipe decides that
  (`Guarantees.PollsConsistent`); a reported success never is.
- The hostname rewrite panics on names that mention `compose.direct` and do not match, and drops the text around a
  partial match. `Hostname.PanicsExactly` and `Hostname.ConservativeExactly` say exactly when,
  `Hostname.BareDomainPanics` and `Hostname.TrailingTextDropped` name inputs. It is idempotent on all others.
- Clearing the query of a connection string leaves a bare `?` in place (`ElasticSearch.QueryFree`).
- The Mongo URI is correct exactly when the host placeholder occurs in none of the binding ID, the password and the
  database name (`Mongo.CredentialsUri`); `Mongo.PlaceholderBindingCorrupts` names an input. A random password is not
  excluded from containing it.
- Unbind undoes Bind exactly when both choose the same database (`Mongo.UnbindUndoesBind`). When a `db_` name shows up
  between two Binds of one binding, all calls succeed and a user is left without a binding (`Mongo.NewNameLeaks`).

## Model

| member | source | states |
|---|---|---|
| `ComposeApi.Client.Issue` | compose/compose.go:11-28 | A client call adds exactly one entry to the transcript; any reply of the call's kind, errors, or nil where the broker checks for it, may come back |
| `Broker.Broker.Provision` | broker/broker.go:95-197 | The calls made and the outcome returned are one complete transcript of the operation: same checks in the same order, creation, whitelist requests in order, compensation on the way out unless the run succeeded |
| `Broker.Broker.RequestWhitelist` | broker/broker.go:169-186 | The loop stops at the first error, nil or empty recipe ID with compensation due, and otherwise hands on the recipe IDs it collected |
| `Broker.Broker.CreateDeployment` | broker/broker.go:409-436 | Creating from scratch: catalog errors before any call, one CreateDeployment with the plan's type and units, nil passed on |
| `Broker.Broker.CreateDeploymentFromLatestSnapshot` | broker/broker.go:438-502 | Restoring: lookup, listing, RestoreBackup and PatchDeployment in this order, and the result carries the recipe RestoreBackup reported |
| `Broker.Broker.ChooseSnapshot` | broker/broker.go:454-475 | The read-only part of a restore: wrong space, wrong type, failed listing and no restorable backup each refuse; otherwise the restore names the source and the newest restorable backup |
| `Broker.Broker.FindDeployment` | broker/utils.go:15-27 | A nil reply or a "deployment not found" error means the instance does not exist; other errors are passed on squashed |
| `Broker.Broker.Deprovision` | broker/broker.go:199-239 | The calls made and the outcome returned are one complete transcript of the operation |
| `Broker.Broker.Update` | broker/broker.go:302-361 | The calls made and the outcome returned are one complete transcript; the service is looked up before, the plan after the deployment |
| `Broker.Broker.Connect` | broker/broker.go:241-300 | Bind and Unbind reach a database engine only on the deployment found for the instance, Bind only with a connection string |
| `Broker.Broker.ReadState` | broker/broker.go:376-393 | One GetRecipe and its mapping: the poll goes on only past a succeeded recipe |
| `Broker.Broker.LastOperation` | broker/broker.go:363-407 | The calls made and the outcome returned are one complete transcript of the poll, for any number of whitelist recipes |
| `Broker.NewestRestorableBackup` | broker/utils.go:55-66 | Returns a restorable backup that no restorable one postdates, the first among equals, and nothing iff none is restorable |
| `Operations.NewestAmongIsNewest` | broker/utils.go:55-66 | The specification of the choice is the order-theoretic one: latest, first among ties |
| `ProvisionAnswers.ProvisionExactly` | broker/broker.go:95-197 | Exact account of Provision, both ways: each refusal before a call and its text, CreateDeployment with the type and units of the first plan with its ID in the first service with its ID, or the restore with its checks against that plan, and what every reply leads to |
| `ProvisionAnswers.ProceedEnds` | broker/broker.go:155-197 | With a deployment in hand: all addresses are allowed in order and the recipes go into the operation data, or one request is turned down, its error is the answer, and one deprovisioning follows; nothing else |
| `ProvisionAnswers.ProvisionAccepted` | broker/broker.go:106-196 | AsyncRequired iff not allowed; a call is made iff parameters, names, service and plan are there; accepted iff a deployment was obtained and every whitelist request usably answered |
| `Answers.DeprovisionExactly` | broker/broker.go:199-239 | Exact account of Deprovision, both ways: a nil or "deployment not found" lookup means the instance does not exist, other errors are passed on joined, a found deployment is deprovisioned and its recipe handed out |
| `Answers.DeprovisionAccepted` | broker/broker.go:210-238 | AsyncRequired iff not allowed, a call iff prefix and instance ID are there, InstanceDoesNotExist iff the lookup says so, accepted iff found and answered with a recipe |
| `Answers.UpdateExactly` | broker/broker.go:302-361 | Exact account of Update, both ways: service, names, lookup, unchanged plan and plan in this order, then SetScalings with the units of that plan |
| `Answers.UpdateAccepted` | broker/broker.go:313-360 | AsyncRequired iff not allowed; a call iff the service is in the catalog and the names are there; a second iff found, plan unchanged and in the catalog; accepted iff that was answered with a recipe |
| `Answers.ConnectExactly` | broker/broker.go:241-300 | Exact account of Bind and Unbind up to the engine, both ways, each failure with its answer |
| `Answers.ConnectedExactly` | broker/broker.go:250-294 | An engine takes over iff the lookup found the deployment, for Bind one with a connection string, and the type is "mongodb" for Mongo or "elastic_search" for Elasticsearch, up to case |
| `Answers.EngineExactly` | dbengine/provider_service.go:16-25 | The engine by the letters of the type, or the error naming it |
| `Answers.LastOperationExactly` | broker/broker.go:363-407 | Exact account of a poll, both ways, on the raw statuses: recipes are read in order while "complete", and the last one read decides between succeeded, in progress ("running", "waiting") and failed (any other text) |
| `Answers.FindServicePlanExactly` | catalog/catalog.go:30-48 | The plan found is the first with its ID in the first service with its ID; otherwise the error names the service or the plan that is not there |
| `Catalog.FindServiceExactly` | catalog/catalog.go:30-38 | A service is found iff one has the ID, and it is the first |
| `Catalog.FindPlanExactly` | catalog/catalog.go:40-48 | A plan is found iff one has the ID, and it is the first |
| `Answers.InstanceNameExactly` | broker/utils.go:45-53 | A deployment is named by the prefix without the spaces around it, a dash and the instance ID |
| `Answers.SquashedExactly` | compose/compose.go:34-42 | Every error stands in the joined text, in order, with a semicolon and a space between them |
| `Transcripts.ProvisionShape` | broker/broker.go:95-197 | At every point of every run, whatever Compose replied: the creating calls with exactly the arguments the plan, the settings and the request call for, then grants in order, then the compensation, as far as the run has come |
| `Transcripts.SagaCompensation` | broker/broker.go:151-197 | A refused run that obtained a deployment has issued exactly one DeprovisionDeployment, last, on that deployment; refused without one, or accepted, it has issued none |
| `Transcripts.WhitelistConservation` | broker/broker.go:169-193 | On success the decoded operation data lists, for the i-th address, the non-empty recipe ID Compose returned for it on this deployment, nothing dropped, added or reordered; on failure the requests are an exact prefix of the list |
| `Transcripts.RestoreSoundness` | broker/broker.go:454-487 | Every RestoreBackup names a source observed in the requesting space and of the plan's type, and the newest restorable backup of the fetched list; with none restorable nothing is issued |
| `Guarantees.ReadersLeaveWorld` | broker/broker.go:241-407 | A call of Bind, Unbind or LastOperation is one that only reads, and leaves Compose as it is, whatever it is answered |
| `Transcripts.MaintenanceTracked` | broker/broker.go:219-358 | An accepted Deprovision or Update made exactly one changing call, on the deployment found by its own name, and its operation data decodes to the recipe of that call and no whitelist recipes |
| `Interleaving.ServesGrows` | compose/compose.go:11-28 | Whatever Compose does for a call, IDs, names and completed recipes persist and only the caller can become a deployment's maker |
| `Interleaving.MovingRunInv` | broker/broker.go:95-502 | A run that gets a reply keeps the invariant: what it holds is its own, and its recorded recipes have the purposes it thinks they have |
| `Interleaving.Reachable` | broker/broker.go:95-502 | The invariant holds in every state of every interleaving of operations, replies and progress of Compose |
| `Guarantees.InstanceNamesDistinct` | broker/utils.go:45-53 | For one prefix, two instances have the same deployment name iff they are the same, trimming included |
| `Guarantees.Isolation` | broker/broker.go:119-226 | In every interleaving an operation changes and creates only deployments named for its own instance, and Provision deprovisions only what the same run made |
| `Guarantees.InstancesNeverShare` | broker/broker.go:302-348 | Two runs that change the same deployment serve the same instance |
| `Guarantees.CompensationsDisjoint` | broker/broker.go:155-167 | Compensations of two Provision runs never target the same deployment, even for the same instance |
| `Guarantees.UndoneUnlessFailed` | broker/broker.go:155-167 | After the compensating call the deployment is gone, unless that call was answered with errors or its recipe is still to complete |
| `Guarantees.Survivors` | broker/broker.go:485-498 | A deployment made by a refused Provision still exists only if it was not reported, or its patch failed, or the compensating call failed or is not complete |
| `Guarantees.LeftBehind` | broker/broker.go:155-167 | From any reachable state where a run is about to patch, or to compensate, an error reply ends the run with its deployment still there |
| `Guarantees.LeftUnreported` | broker/broker.go:431-434 | From any reachable state where a run is about to create, an error reply can end it with a new deployment of its name left behind |
| `Witnesses.CreationCanGoUnreported` | broker/broker.go:431-434 | For every configuration and request that gets to create, a behaviour in which the deployment exists and the run was refused for the error that came back |
| `Witnesses.PatchingCanFail` | broker/broker.go:485-498 | For every one that gets to restore, a behaviour in which patching fails and the restored deployment stays |
| `Witnesses.CompensationCanFail` | broker/broker.go:155-178 | For every one with an address to allow, a behaviour in which a whitelist request and then the compensating call fail, and the deployment stays |
| `Witnesses.RemovalCanPend` | broker/broker.go:155-178 | Likewise with the compensating call accepted and its recipe still running when the run ends |
| `Guarantees.PollReadsTracked` | broker/broker.go:376-389 | A poll reads the recipe and then the whitelist recipes of its operation data, in order |
| `Guarantees.LastReadVerdict` | broker/broker.go:376-406 | The reply that ends a poll is the first non-succeeded recipe, or the last one, at that moment |
| `Guarantees.PollLinearizable` | broker/broker.go:376-406 | The verdict of a poll is that of an atomic snapshot of all recipes at its last read, for any list length and any progress in between |
| `Guarantees.PollReportsStatus` | broker/broker.go:35-48 | In Compose's own words: at its last read a poll reports succeeded iff every tracked recipe is "complete"; otherwise the first that is not decides, in progress iff it is "running" or "waiting", failed iff it is anything else |
| `Guarantees.SuccessSettles` | broker/broker.go:35-48 | Between any two moments of a behaviour a recipe that succeeded stays succeeded |
| `Guarantees.PollsConsistent` | broker/broker.go:376-406 | Of any two polls: the first unfinished position never moves back, a reported success is never retracted, whether a failure is depends on that one recipe alone and then on those after it, and with nothing in progress the verdict is "all succeeded, else failed" |
| `Guarantees.PollsNeverRetract` | broker/broker.go:35-48 | If no recipe failed at the first moment has come back by the second, no final verdict is retracted and the number in progress has not risen |
| `Polling.VerdictStable` | broker/broker.go:380-406 | If success and failure stick, later statuses never change a final verdict and never have more in progress |
| `Polling.FrontierAdvances` | broker/broker.go:380-406 | If success sticks, the frontier never moves back, and the later verdict is that of what was the first unfinished recipe, or of those after it once it has succeeded |
| `Polling.InProgressCountFalls` | broker/broker.go:35-48 | The number of unfinished recipes never rises and falls strictly when one finishes: the measure by which polling ends |
| `Polling.FinalVerdict` | broker/broker.go:380-406 | With nothing in progress the sequential verdict does not depend on the order of the recipes |
| `Guarantees.ObtainedIsOwned` | broker/broker.go:485-501 | The deployment a run obtained is its own, and the recipe ID it carries, after a restore the one from RestoreBackup, is the recipe provisioning it |
| `Guarantees.AcceptedTracks` | broker/broker.go:169-196 | The operation data of an accepted Provision lists the recipe provisioning its own deployment and, per configured address, the recipe allowing it there |
| `Guarantees.RunsPersist` | broker/broker.go:193-196 | A completed run makes no further call |
| `Guarantees.ProvisionThenPoll` | broker/broker.go:388-406 | Polling with a successful Provision's operation data yields succeeded iff, at the last read, the provisioning recipe and the recipe of every configured address are complete |
| `Guarantees.DeprovisionThenPoll` | broker/broker.go:226-236 | When polling with an accepted Deprovision's operation data yields succeeded, the deployment found for the instance is gone |
| `OperationData.RoundTrip` | broker/utils.go:29-43 | Parsing the printed operation data gives it back, for all texts, escapes and lists, the empty list included |
| `OperationData.SpacedRoundTrip` | broker/broker.go:364-369 | The same with any space between the tokens |
| `OperationData.DecodedExactly` | broker/broker.go:364-369 | A document is accepted iff every member that names a field has a value of its kind or null, and then the last one of each field decides |
| `OperationData.FoldExactly` | broker/broker.go:29-33 | A member names a field iff it spells it letter by letter up to case, with the two other characters that fold to s and k |
| `Json.RoundTrip` | broker/utils.go:37-42 | Printing and parsing are inverse for every JSON value, however nested and spaced, whose numbers are spelled as numbers |
| `Json.EscapedHarmless` | broker/utils.go:37-42 | No text brings a control character, an angle bracket, an ampersand or a line separator into the output |
| `OperationData.EncodedForm` | broker/broker.go:29-33 | The exact text, member names and order, for IDs that need no escaping |
| `OperationData.AbsentListIsEmpty` | broker/broker.go:364-369 | Operation data without a whitelist member, in any spelling json.Unmarshal accepts, decodes to no whitelist polls |
| `OperationData.OthersIgnored` | broker/broker.go:364-369 | Members that name no field, up to case, do not matter, whatever their values |
| `Whitelist.ParseIPWhitelist` | config/config.go:81-93 | Accepts or refuses exactly as `Parsed` says, naming the first malformed field |
| `Whitelist.ParseThenJoin` | config/config.go:81-93 | A non-empty setting is accepted iff every comma-separated field has exactly three dots, and joining the result gives the setting back |
| `Whitelist.JoinThenParse` | config/config.go:86-92 | Any non-empty list of comma-free three-dot texts is recovered from its join |
| `Catalog.Load` | catalog/catalog.go:50-61 | Afterwards each service advertises exactly the ordered public parts of its own plans |
| `Catalog.GetService` | catalog/catalog.go:30-38 | Returns the first service with the ID, or an error iff there is none |
| `Catalog.GetPlan` | catalog/catalog.go:40-48 | Returns the first plan with the ID, or an error iff there is none |
| `Catalog.AdvertisedPlansResolve` | catalog/catalog.go:30-61 | Every advertised (service, plan) pair of a loaded catalog resolves to the very plan that was advertised iff the IDs are unique |
| `Regex.GreedyStar` | dbengine/elasticsearch_engine.go:17-19 | A greedy star settles on the longest stretch from which the rest of the pattern matches |
| `Hostname.SiteExactly` | dbengine/elasticsearch_engine.go:17-17 | A site, character by character: dash, lower-case letter, two digits, perhaps a dot, a digit, at least one more character, a colon, a digit |
| `Hostname.LineExactly` | dbengine/elasticsearch_engine.go:17-17 | The part a leading `.+` can run over ends before the first newline |
| `Hostname.MatchPattern` | dbengine/elasticsearch_engine.go:17-19 | The greedy backtracking match from a position goes through the last viable site of its line, whichever way the digits and the rest are split |
| `Hostname.FindPattern` | dbengine/elasticsearch_engine.go:17-20 | The leftmost match, and what its groups are put together to |
| `Hostname.RewriteIsScan` | dbengine/elasticsearch_engine.go:16-23 | The match consumes the whole name iff the last site of the first line is followed by nothing after its port, and then the rewrite ensures exactly one dot after that site; other hostnames are unchanged |
| `Hostname.RepairIdempotent` | dbengine/elasticsearch_engine.go:16-23 | On every hostname the rewrite does not panic on, a second application changes nothing, wherever the match is |
| `Hostname.RepairConservative` | dbengine/elasticsearch_engine.go:16-23 | On names whose match consumes the whole string the result is the name or the name with one dot inserted, and again such a name |
| `Hostname.KeptExactly` | dbengine/elasticsearch_engine.go:16-23 | A name with the domain is left alone iff it is such a name and has the dot after its last site |
| `Hostname.PanicsExactly` | dbengine/elasticsearch_engine.go:18-20 | The rewrite panics iff the name mentions the domain and no line has a site |
| `Hostname.NoDashPanics` | dbengine/elasticsearch_engine.go:18-20 | Every name with the domain and without a dash is one it panics on |
| `Hostname.BareDomainPanics` | dbengine/elasticsearch_engine.go:18-20 | `compose.direct:443` is an example |
| `Hostname.ConservativeExactly` | dbengine/elasticsearch_engine.go:16-23 | Where it does not panic, the rewrite keeps the name up to one dot iff the whole name takes part in the match |
| `Hostname.TrailingTextDropped` | dbengine/elasticsearch_engine.go:19-20 | Every good name shows that text after the port is dropped: with one more character that is not a digit it is rewritten as without |
| `ElasticSearch.ParseURL` | dbengine/elasticsearch_engine.go:25-64 | Success iff the list is non-empty and every entry usable; then hosts and URIs are pointwise the entries', in order, with user and password of the first; otherwise the first bad entry decides |
| `ElasticSearch.GenerateCredentials` | dbengine/elasticsearch_engine.go:84-100 | No deployment, no connection string, the first bad entry, and a first entry without a user each have their own error, in this order; otherwise the credentials are faithful and carry the deployment's certificate |
| `ElasticSearch.QueryFree` | dbengine/elasticsearch_engine.go:33-53 | Up to its fragment, a URI in the credentials contains a question mark iff its connection string had one with nothing after it |
| `ElasticSearch.UriExactly` | dbengine/elasticsearch_engine.go:29-53 | Each URI handed out is its connection string's scheme, userinfo, path and fragment around the repaired host, in place, with no query beyond a bare mark |
| `ElasticSearch.HostsAreRepaired` | dbengine/elasticsearch_engine.go:34-52 | Every host handed out is a fixed point of the repair |
| `ElasticSearch.UserOfFirstUri` | dbengine/elasticsearch_engine.go:48-62 | The user and password handed out are what the userinfo of the first URI handed out reads back as, and empty where it has none |
| `Mongo.GetDatabaseName` | dbengine/mongo_engine.go:195-207 | The first listed name that is the default or starts with `db_`, otherwise the default; listing errors are passed on |
| `Mongo.ChosenExactly` | dbengine/mongo_engine.go:195-207 | On the listing itself: the first name that is "default" or starts with "db_" is chosen, without one "default" |
| `Mongo.GenerateCredentials` | dbengine/mongo_engine.go:78-116 | On success the credentials name the database and user that the server now holds with that password, carry the URI rendered from them, and the dial information has been overwritten with them; on failure it is untouched, each failure before the write has its own text, and the users change only if the write took effect |
| `Mongo.CreateUser` | dbengine/mongo_engine.go:90-108 | The server part of it: the user is upserted into the chosen database, every failure before that leaves the users alone |
| `Mongo.SelectDatabase` | dbengine/mongo_engine.go:79-93 | Dial information, session and listing in this order, each with its own error, then the chosen database |
| `Mongo.RevokeCredentials` | dbengine/mongo_engine.go:118-138 | Removes exactly the binding's user from the chosen database, an error if it is not there |
| `Mongo.UserNamesDistinct` | dbengine/utils.go:12-14 | Two bindings have the same user name iff they are the same |
| `Mongo.SteadyIsOne` | dbengine/mongo_engine.go:195-207 | With steady listings (no `db_` name ever, or one always, alone) every call chooses the same database, wherever in the listing the name stands |
| `Mongo.UsersPerDatabase` | dbengine/mongo_engine.go:78-138 | Whatever is listed when: over every run with failures that write nothing, the users made in a database are exactly the images of the bindings live in it, each with the password its last reported Bind returned |
| `Mongo.UsersAreLiveBindings` | dbengine/mongo_engine.go:78-138 | If moreover all calls choose one database, its users are exactly the images of the live bindings, with the passwords handed out |
| `Mongo.UsersAreBindings` | dbengine/mongo_engine.go:78-138 | If all calls choose one database and failures may have written, the users made lie between the images of the certain and of the possible bindings, and no other database is touched |
| `Mongo.UnbindUndoesBind` | dbengine/mongo_engine.go:101-137 | A Bind followed by an unhindered Unbind: the Unbind is reported, and the user is gone from every database, iff both listings lead to the same database |
| `Mongo.RebindLeaks` | dbengine/mongo_engine.go:90-137 | Bind, Bind again and Unbind under another listing are all reported and leave no live binding, yet the first database keeps the user iff the second listing led elsewhere |
| `Mongo.NewNameLeaks` | dbengine/mongo_engine.go:195-207 | A `db_` name that shows up between the two Binds is an example |
| `Mongo.UnreportedRebind` | dbengine/mongo_engine.go:101-108 | A rebind that takes effect although an error comes back leaves the binding live with a password the server no longer holds, unless it is the same one |
| `Mongo.CredentialsUri` | dbengine/mongo_engine.go:53-76 | The credentials' URI has the hosts in place and nothing else touched iff the placeholder occurs in none of the binding ID, password and database (or the hosts spell it), and the intended URI reads back as the credentials' own parts |
| `Mongo.PlaceholderBindingCorrupts` | dbengine/mongo_engine.go:61-66 | A binding ID spelled like the placeholder gets a URI other than the intended one, unless the hosts are spelled like it too |
| `MongoUri.ReplaceByComponent` | dbengine/mongo_engine.go:61-66 | Replacing works on each component by itself: no occurrence straddles a delimiter |
| `MongoUri.UriIsIntended` | dbengine/mongo_engine.go:53-66 | The replacement hits exactly the host iff user, password and path do not contain the placeholder (or the hosts spell it) |
| `MongoUri.IntendedReadBack` | dbengine/mongo_engine.go:54-66 | Splitting and percent-decoding the intended URI recovers user, password, ordered hosts and database |
| `MongoUri.UriReadBack` | dbengine/mongo_engine.go:53-76 | Hence the URI handed out reads back, whenever the placeholder does not occur in the texts around the hosts |
| `Uri.EscapeRoundTrip` | dbengine/mongo_engine.go:54-59 | Percent-decoding undoes the escaping of any octets, in any component |
| `Uri.EscapedLegal` | dbengine/mongo_engine.go:54-59 | A user, password or database name is escaped to a legal component of RFC 3986, sections 3.2.1 and 3.3 |
| `Uri.EscapedContains` | dbengine/mongo_engine.go:61-66 | Escaping neither hides nor creates an occurrence of a text of letters and dashes |
| `Uri.ReplaceSeparately` | dbengine/mongo_engine.go:61-66 | Replace-all treats the two sides of a delimiter the pattern does not contain independently |

## Left out

- HTTP serving, logging, flags and environment reading (`main.go`, `config.New`): plumbing.
- The Compose client, Mongo sessions, TLS dialling and certificate parsing: foreign code; only their observable effects appear, as replies and outcomes that may be anything.
- `broker.New`, `GetAccount` and cluster lookup: account and cluster IDs are settings here.
- `ParseProvisionParameters`: its result is part of the request (unusable with a message, blank, or a source instance).
- Poll descriptions: they may come from an earlier read than the verdict.
- Generation of passwords: a password, or the failure to make one, is given to the call.
- `getMasterDialInfo` and `removeSSLOption`: a Mongo call is given what they come to, dial information or an error, and whether the session opens.
- `ElasticSearchEngine.RevokeCredentials`: it does nothing.
- Provision, Bind and the engines are joined by `Connect` only: the run that reaches an engine, and what the engine then does, are separate parts.
- The broker's catalog is read as a value after loading; `Load`, `GetService` and `GetPlan` work on the objects. Plan and service fields that are only passed on to the platform are reduced to ID, name and description.
- Backup times are integers: only their order matters.
- Error texts of JSON and URL parsing and of Mongo writes are fixed words.
- `Broker.Broker.LastOperation`: texts are sequences of Unicode characters; input that is not UTF-8 is outside the model, and the error for malformed operation data is one fixed text.
- `Broker.Broker.Connect`: ends where the engine takes over; the engine's own calls are in the Mongo and Elasticsearch modules.
- `ElasticSearch.ParseURL`: starts from the fields url.Parse delivers, or its error; URLs without a scheme and opaque ones are outside the model, and the path is held as rendered.
- `MongoUri.IntendedReadBack`: one slash at the front of a database name is taken for the one that ends the hosts; chosen database names never start with one. Texts are octets below 256, one per character.
- Brokers with different name prefixes sharing one Compose account: isolation is stated for one prefix.
- Liveness: that Compose ever finishes a recipe.
