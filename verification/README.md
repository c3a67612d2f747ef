# Unbind operator: a verified model of its reconciler

The Unbind operator turns a `Service` custom resource into Kubernetes objects: a Deployment, up to two
core Services and an Ingress, or the objects of a database with its credentials. This project models
the controller of that resource, the builders it calls and the API server it talks to, and proves what
holds over every call, every pass and every run of it. Verify it with `dafny verify dfyconfig.toml`.

## How the model is laid out

| files | what they hold |
|---|---|
| `Text`, `Command`, `Builders`, `Types` | the resource builders: the command parser, Deployment, Services, Ingress, status URLs; each loop is a method proved equal to a function |
| `CommandLaws`, `BuilderLaws` | round trips, conservation, exact panic conditions, claims that cross the builders |
| `Trees`, `TreeLaws` | the comparison and the update of rendered objects over JSON trees |
| `Cluster`, `ClusterLaws` | the API server: versions, conflicts, finalizers, admission, other clients acting between any two calls, calls that are refused or whose answer is lost |
| `Retry`, `RetryLaws` | the read-compare-write loop that six functions of the controller repeat |
| `Password`, `Secrets`, `Credentials`, `SecretLaws` | generated passwords, source and target secrets |
| `Operator`, `Runtime`, `RuntimeLaws`, `RuntimeExactness`, `Ownership`, `Rewrites` | installing a database's operator, and the objects of the database, one after the other; what becomes of their finalizers and owners |
| `Reconciler`, `Trace`, `PassLaws`, `Runs` | a whole pass, what each of its requests keeps, invariants over runs |
| `FinalizerSafety`, `Ready`, `ServiceExactness`, `ServiceWrites`, `Allocation`, `CredentialRuns`, `CredentialAgreement`, `DatabaseAgreement`, `Urls` | safety |
| `FixedPoints`, `QuietChildren`, `Convergence`, `Silence` | convergence, and when nothing is written |
| `CopyExactness`, `DatabaseExactness` | what success of a credential copy and of a database pass leaves behind |
| `Client`, `Controller` | the program's own form: a class that issues requests and changes as they are served, and the reconciler's methods with their loops, each proved to do what the function of the same name says |

A `World` is the cluster as one controller meets it. Its `Setting` decides everything the controller does
not: which requests other clients make before each call, whether the call is answered, refused or carried
out with its answer lost, what admission grants, the server's defaulting, the random bytes, what a
database definition renders to, what discovery says about an operator. All of it is arbitrary, so a lemma about
every `World` is a lemma about every interleaving and every pattern of faults. The log keeps every
request with the store before and after it; most theorems are statements about every event that a
function adds to the log. Hypotheses about other clients ("nobody else takes the finalizer away") are
stated on those events too.

Time is a counter of calls and a sum of seconds slept.

## What the code does that a reader might not expect

- After a Service has been created, the error of the read before it is still there and the call returns
  it. A call therefore creates at most one Service, and convergence takes up to four passes.
- The base Service is built without a type. A server that fills one in makes the comparison fail on every
  pass, and every pass writes the same contents again (`BaseServiceIsRewritten`). An unstructured object
  is written again in every pass because its owner references are added after the update but take part
  in the comparison (`UntypedIsRewritten`), and an unfinished Job whose containers the server defaults is
  deleted and created again in every pass (`UnfinishedJobIsReplaced`).
- Explicit node ports win; a port without one keeps what was allocated. The first carried value is kept
  through the remaining attempts of the loop, even if the stored one changes meanwhile.
- A status URL is published for a public service with hosts even when no port is declared and hence no
  Ingress exists (`UrlsWithoutIngress`).
- A shell call whose argument is a lone quote makes the command parser slice out of range
  (`PanicsExactly`), be it the run command, an init container's or that of an exec health check
  (`DeploymentPanicsExactly`); every pass then ends there (`PanicStopsEveryPass`). A MongoDB or ClickHouse
  source secret without a data map makes the repair write into a nil map (`EnsurePanicsExactly`);
  PostgreSQL without a database configuration dereferences nil (`CopyPanicsExactly`). The model keeps
  these as outcomes; no precondition of an operation hides them.
- A Redis secret that the controller creates never receives a URL (`RedisSuccess`).
- A copy of MongoDB or ClickHouse credentials latches a password that is already in the target when the
  source has none; this is the one way for the two to disagree (`FillAgrees`).
- `genericUpdateObject` replaces the whole spec by the cluster address when the existing one has it
  (`GenericUpdateDropsSpec`).
- An update of an unstructured object writes the metadata of the rendering. Finalizers that only the stored
  object has are stripped, which completes a pending deletion, and a controller that only the stored object
  has is replaced without the error that the typed paths give (`RenderingRules`, `ProtectionIsStripped`).
- An outdated Job that a finalizer holds makes the pass wait ten seconds and fail (`HeldJobBlocks`).
- The Deployment is created without a controller reference; Services and Ingress get one. Finalizing
  deletes the three children that bear the resource's name, not its `-nodeport` Service, which relies on
  its controller reference (`ReferenceIsKept`). A child on which somebody else has put a finalizer is only
  marked for deletion; the resource goes all the same, and the child stays (`HeldChildOutlives`).

## Model

| member | source | states |
|---|---|---|
| `Command.Parse` | internal/resourcebuilder/deployment.go:244-329 | the parser's branches and loops compute the argument vector of the specification, or panic where it does |
| `Command.Tokenize` | internal/resourcebuilder/deployment.go:287-328 | the character loop, the flush of the last token and the trimming in place yield the specified tokens |
| `CommandLaws.RoundTrip` | internal/resourcebuilder/deployment.go:287-328 | double-quoting plain arguments, joining with blanks and parsing returns the arguments |
| `CommandLaws.TokensConserve` | internal/resourcebuilder/deployment.go:287-328 | for any line, balanced or not, the tokens carry exactly its non-blank non-quote characters in order |
| `Command.Tokens` | internal/resourcebuilder/deployment.go:323-328 | no token begins or ends with a quote |
| `CommandLaws.ShellRoundTrip` | internal/resourcebuilder/deployment.go:254-277 | a quoted script after a shell and -c is taken out verbatim |
| `CommandLaws.PanicsExactly` | internal/resourcebuilder/deployment.go:262-277 | parsing panics if and only if the argument of a shell call is one lone quote |
| `CommandLaws.PanicWitness` | internal/resourcebuilder/deployment.go:262-277 | the shortest panicking command |
| `CommandLaws.ParsesByForm` | internal/resourcebuilder/deployment.go:279-328 | any other line goes to /bin/sh as it is if and only if it has a pipe, a redirection or two ampersands in a row, and is tokenized otherwise |
| `CommandLaws.ShellCallIsTakenApart` | internal/resourcebuilder/deployment.go:244-277 | a call of sh, /bin/sh or bash gives the shell, -c and the trimmed script without its pair of quotes, or the panic |
| `Builders.BuildDeployment` | internal/resourcebuilder/deployment.go:17-240 | the building loops produce the specified Deployment, decline without image, or panic with the parser |
| `BuilderLaws.DeploymentPanicsExactly` | internal/resourcebuilder/deployment.go:66-214 | building panics if and only if there is an image and the run command, an init command or the command of an exec health check makes the parser panic |
| `BuilderLaws.CheckPanicWitness` | internal/resourcebuilder/deployment.go:437-442 | a service without any command but the shell call on a lone quote of its health check panics |
| `BuilderLaws.ProbesAgree` | internal/resourcebuilder/deployment.go:332-457 | the three probes come together exactly when the health check says enough, act alike, take the whole parsed command or the given or first port, and have the times given, or three failures ten seconds apart when running and thirty three seconds apart when starting |
| `Builders.BuildProbe` | internal/resourcebuilder/deployment.go:404-457 | the branches over the type of the check yield the specified probe, none, or the parser's panic |
| `Builders.AddProbes` | internal/resourcebuilder/deployment.go:332-401 | the three builders with their default times add the specified probes |
| `BuilderLaws.CommandIsWhole` | internal/resourcebuilder/deployment.go:123-138 | command and arguments together are the parsed command, which stays in one piece for /bin/sh and is otherwise split after its head; no command leaves the image's own |
| `BuilderLaws.MountsResolve` | internal/resourcebuilder/deployment.go:73-121 | every container mounts exactly the declared volumes in order; init containers have distinct names |
| `BuilderLaws.DeploymentAsDeclared` | internal/resourcebuilder/deployment.go:17-240 | a Deployment is declined exactly without image; otherwise name, image, ports, environment, replicas, strategy and pull secrets are those of the spec |
| `BuilderLaws.VolumesAsDeclared` | internal/resourcebuilder/deployment.go:73-121 | volumes and mounts, one by one: claims first, then the variables as files of the environment secret |
| `BuilderLaws.InitContainersAre` | internal/resourcebuilder/deployment.go:170-210 | every init container has its image, index, environment, mounts and whole command |
| `BuilderLaws.SelectorAsDeclared` | internal/resourcebuilder/resourcebuilder.go:33-39 | the three selecting labels and their values |
| `BuilderLaws.LabelsAsDeclared` | internal/resourcebuilder/resourcebuilder.go:41-60 | the labels of every object say where the service belongs; provider and framework only where given |
| `Builders.BuildServices` | internal/resourcebuilder/service.go:15-76 | the port loop and the Service assembly produce the specified Services |
| `BuilderLaws.PortsArePartitioned` | internal/resourcebuilder/service.go:20-44 | the two port lists are an order-preserving partition of the declared ports by presence of a node port, and each port has the number inside and outside, protocol, node port and name of its declaration |
| `BuilderLaws.ServicesAsDeclared` | internal/resourcebuilder/service.go:46-75 | which of the two Services has which name, type and ports; neither states an address, both carry labels and selector |
| `BuilderLaws.ServicesAreProper` | internal/resourcebuilder/service.go:46-75 | declines only without ports; no Service is empty, names are distinct and among the two that clean-up knows |
| `BuilderLaws.PortNameInjective` | internal/resourcebuilder/service.go:24-36 | port names are equal if and only if numbers and lower-cased protocols are |
| `BuilderLaws.PortNamesDistinct` | internal/resourcebuilder/service.go:24-44 | ports of one Service have distinct names when they are declared distinct, whatever the other Service has |
| `BuilderLaws.ServicesSelectPods` | internal/resourcebuilder/resourcebuilder.go:33-60 | every built Service selects by labels that the Deployment selects by and its pods carry |
| `Builders.BuildIngress` | internal/resourcebuilder/ingress.go:13-74 | the loop over hosts fills rules and TLS hosts as specified |
| `BuilderLaws.BackendResolves` | internal/resourcebuilder/ingress.go:22-53 | an Ingress rule has its host's path and port, the root and the first port by default, and names a port of a built Service if and only if that port is declared without node port |
| `BuilderLaws.IngressAsDeclared` | internal/resourcebuilder/ingress.go:13-74 | there is an Ingress exactly for a public service with hosts and ports; its class, its TLS secret, and every host under TLS |
| `BuilderLaws.UrlsFollowIngress` | internal/controller/service_controller.go:160-166 | status URLs, rule hosts and TLS hosts list the same hosts in the same order |
| `BuilderLaws.UrlsWithoutIngress` | internal/controller/service_controller.go:160-166 | exactly when URLs are published with no Ingress behind them |
| `Trees.RemoveNonComparedFields` | internal/controller/service_controller.go:2078-2105 | the filtering loops leave exactly the compared fields |
| `Trees.UpdateUnstructured` | internal/controller/service_controller.go:2232-2304 | the update carries status, server metadata and cluster address into the desired content as specified |
| `Trees.GenericUpdate` | internal/controller/service_controller.go:2307-2353 | the generic copy loop and the merge of preserved fields compute the specified object |
| `TreeLaws.ComparedIdempotent` | internal/controller/service_controller.go:2078-2105 | filtering twice is filtering once |
| `TreeLaws.UpdateSatisfiesCompare` | internal/controller/service_controller.go:2057-2075 | an unstructured update settles the comparison if and only if it carried no cluster address that the rendering lacks |
| `TreeLaws.UpdatePreservesServerFields` | internal/controller/service_controller.go:2232-2304 | status and the six server-managed metadata fields keep the stored values; the rest of the metadata and every other field but the spec is the desired one |
| `TreeLaws.UpdateCarriesAddress` | internal/controller/service_controller.go:2279-2293 | the spec is the desired one, but for the stored cluster address of a Service that has one |
| `TreeLaws.NoUpdateIsExactlyNoChange` | internal/controller/service_controller.go:2057-2105 | an update changes nothing if and only if the comparison finds nothing to do and the rendering, typed or not, states no status or server metadata that the stored object lacks |
| `TreeLaws.TypedUpdateSatisfiesCompare` | internal/controller/service_controller.go:1985-2229 | for the five known types an update settles the comparison, keeps metadata, status and address, and is idempotent |
| `TreeLaws.TypeErrorsAgree` | internal/controller/service_controller.go:1985-2229 | comparison and update reject mismatched types together |
| `TreeLaws.GenericUpdateSatisfiesCompare` | internal/controller/service_controller.go:2307-2336 | exactly when the generic update settles the comparison |
| `TreeLaws.GenericUpdateDropsSpec` | internal/controller/service_controller.go:2330-2353 | with a cluster address in the existing spec, the desired spec survives only if it was that address alone |
| `Retry.CarryAllocations` | internal/controller/service_controller.go:382-396 | the nested loops over desired and existing ports carry address and node ports as specified |
| `RetryLaws.NoLostUpdate` | internal/controller/service_controller.go:271-303 | against any other clients, every write of the loop replaces the version just before it, changes only the intended fields, takes Services and Ingresses from no other controller, keeps a cluster address and stores the desired fields |
| `RetryLaws.RetriesAreBounded` | internal/controller/service_controller.go:264-304 | at most five updates; k conflicts sleep 2^k - 1 seconds, at most 31; the loop gives up exactly after five conflicts |
| `RetryLaws.SuccessIsReal` | internal/controller/service_controller.go:528-570 | when the loop reports success the store holds the desired fields |
| `ServiceExactness.ServicesAreIntended` | internal/controller/service_controller.go:308-485 | every write of the call brings about a built Service without losing an update and leaves it with the controller reference, and only unwanted ones are deleted |
| `ServiceWrites.ServicesHonour` | internal/controller/service_controller.go:308-485 | every effective write of the call stores each declared node port and the controller reference |
| `ServiceExactness.AtMostOneIsCreated` | internal/controller/service_controller.go:364-449 | a call tries at most one creation, and then does not succeed |
| `ServiceExactness.SuccessIsExact` | internal/controller/service_controller.go:308-485 | while others spare the two names, success leaves exactly the built Services there, with type, selector and ports |
| `PassLaws.ServicesAreProperRequests` | internal/controller/service_controller.go:308-485 | no Service of another name, and no other object, is written |
| `PassLaws.ChildrenAreProper` | internal/controller/service_controller.go:135-157 | every request for children keeps to their keys, for a database with those of its operator's installation, and preserves makers, pending deletions, addresses and credentials, and finalizers but for unstructured objects, which `DatabaseStatesRenderings` covers |
| `PassLaws.ReadRequests` | internal/controller/service_controller.go:92-188 | apart from those, a pass writes only its own resource, over the very version it has read, and only finalizer or status |
| `FinalizerSafety.ChildrenNeverOutlive` | internal/controller/service_controller.go:102-128 | over any run and interleaving, as long as nobody else strips the controller's finalizer, a Deployment, base Service or Ingress the controller made exists only while its resource does, or is marked for deletion and held by another finalizer |
| `FinalizerSafety.UnheldChildrenNeverOutlive` | internal/controller/service_controller.go:102-128 | under the same hypothesis, one without finalizers exists only while its resource does |
| `Convergence.HeldChildOutlives` | internal/controller/service_controller.go:191-234 | a Deployment under somebody else's finalizer outlives its resource, marked for deletion, although nobody interferes |
| `FinalizerSafety.DeleteAllUnmakes` | internal/controller/service_controller.go:191-234 | finalizing without error leaves no child that the controller made under the resource's name, but for held ones marked for deletion |
| `PassLaws.RemovalSucceeds` | internal/controller/service_controller.go:191-260 | a child that vanishes between read and deletion is an error; finalizing forgives one that is not there |
| `FinalizerSafety.ReleaseLeavesNodePortService` | internal/controller/service_controller.go:191-234 | the NodePort Service is not touched by finalizing |
| `ServiceWrites.ReferenceIsKept` | internal/controller/service_controller.go:369-378 | over any run, a core Service the controller made carries the reference to its resource while others leave it alone |
| `Ready.ReadyIsTruthful` | internal/controller/service_controller.go:160-185 | a status write replaces the version this pass has read, after all its children succeeded, says Ready, lists an https address for every host of a public spec in order, which was not published yet, and changes nothing else |
| `Ready.SuccessMeansReady` | internal/controller/service_controller.go:169-187 | a live pass without error ends with the resource as read and, in those terms, the status of its own spec stored, while nobody else writes it |
| `Ready.SuccessWritesReady` | internal/controller/service_controller.go:169-187 | under any interference, the status was read as published or is stored so over the version that was read |
| `Allocation.AddressIsStable` | internal/controller/service_controller.go:382-384 | over any run and any spec edits a Service that others and the rendering spare keeps its cluster address as long as it exists |
| `Allocation.NodePortIsStable` | internal/controller/service_controller.go:386-396 | over any run, a port that every spec declares without a number keeps its allocated node port, while others and the rendering spare the Service |
| `ServiceWrites.ExplicitPortWins` | internal/resourcebuilder/service.go:37-43 | over any run, interference and faults, every effective write under a Service key stores each node port that the spec of its pass declares |
| `Convergence.FourPassesSuffice` | internal/controller/service_controller.go:92-188 | undisturbed, from any starting cluster in which no other controller owns the wanted Services or Ingress, four or more passes bring finalizer, children and status to the desired state; children that are not wanted are gone, or marked for deletion if they have finalizers; all later passes change no contents |
| `Convergence.QuietRelease` | internal/controller/service_controller.go:102-118 | undisturbed, one pass for a resource that is being deleted takes the controller's finalizer off, which removes it if it had no other, removes its children without finalizers, marks held children, and changes nothing else |
| `Convergence.PanicStopsEveryPass` | internal/controller/service_controller.go:139-143 | while the Deployment cannot be built, every live pass ends in the panic after its read |
| `Convergence.Converges` | internal/controller/service_controller.go:92-188 | as many passes as the finalizer and Services that are missing, and one more, are enough; children that are not wanted are left or deleted on the way |
| `Convergence.QuietPass` | internal/controller/service_controller.go:92-188 | each pass lowers that measure by one or converges; once converged it changes no contents |
| `Convergence.StaysConverged` | internal/controller/service_controller.go:92-188 | converged is forever |
| `Convergence.BaseServiceIsRewritten` | internal/controller/service_controller.go:414-424 | a settled base Service is written again in every pass if and only if the server has a default type |
| `Silence.SilentLoop` | internal/controller/service_controller.go:271-300 | undisturbed, a retry loop over an object that is there writes nothing if and only if the object is as built; otherwise it writes once, or is refused where another controller owns a Service or Ingress |
| `Silence.SilentSimple` | internal/controller/service_controller.go:1109-1144 | undisturbed, a resource without credentials is written if and only if its spec differs |
| `Silence.SilentPass` | internal/controller/service_controller.go:92-188 | undisturbed, a pass leaves the store as it is, versions included, if and only if finalizer, children and status are there as built and published, and nothing unwanted is |
| `QuietChildren.QuietServices` | internal/controller/service_controller.go:308-485 | undisturbed, the call creates the first missing Service and fails, or settles all and deletes the unwanted; those under a finalizer stay, marked |
| `FixedPoints.QuietEnsure` | internal/controller/service_controller.go:237-304 | undisturbed, one turn of a retry loop reaches a fixed point of it and touches nothing else |
| `Password.Encode` | internal/controller/service_controller.go:921-928 | the base64 form has four characters for three bytes, all of the URL-safe alphabet but for the padding |
| `Password.Generate` | internal/controller/service_controller.go:921-928 | the slice is in range; the password has the requested length and no padding |
| `Password.PasswordIsThreeQuarters` | internal/controller/service_controller.go:921-928 | when four divides the length, the password is the encoding of the first three quarters of the bytes and determines them |
| `Credentials.FillIsConsistent` | internal/controller/service_controller.go:1093-1106 | a filled target's URL, and for ClickHouse also the second one, renders its own entries, also when the source lacks the password |
| `Credentials.FillImproves` | internal/controller/service_controller.go:1364-1386 | filling an unlatched target keeps every entry that is not a target's own |
| `SecretLaws.UrlInFull` | internal/controller/service_controller.go:1376-1385 | the connection URLs of the four databases, part by part |
| `SecretLaws.AwaitIsBounded` | internal/controller/service_controller.go:1264-1292 | the wait for a source asks at most ten times, sleeps two seconds after each miss, and fails exactly after ten |
| `SecretLaws.EnsureSourceIsProper` | internal/controller/service_controller.go:699-807 | every write of ensuring and copying, under any fault, only adds what is missing and never changes a latched target |
| `SecretLaws.RedisIsProper` | internal/controller/service_controller.go:629-696 | the same for Redis |
| `CredentialRuns.SourceIsWriteOnce` | internal/controller/service_controller.go:740-807 | over any run, what is in a source secret is never overwritten while others and the rendering spare it |
| `CredentialRuns.LatchIsForever` | internal/controller/service_controller.go:1055-1087 | over any run, a target with user name, password and URL never changes an entry again while others and the rendering spare it |
| `CredentialRuns.UrlStaysOwn` | internal/controller/service_controller.go:1531-1558 | over any run, a latched secret's URL is the rendering of its own entries, and so is the second one of ClickHouse |
| `CredentialAgreement.EnsurePanicsExactly` | internal/controller/service_controller.go:755-797 | ensuring a generated secret panics if and only if it exists without data map and a password could be drawn |
| `CredentialAgreement.CopyPanicsExactly` | internal/controller/service_controller.go:992-1013 | copying panics if and only if it is for PostgreSQL without database configuration |
| `CredentialAgreement.RedisNeverPanics` | internal/controller/service_controller.go:676-679 | the Redis secret is checked for a nil map, so ensuring it never panics |
| `CredentialAgreement.RedisSuccess` | internal/controller/service_controller.go:629-696 | success leaves a password, and a URL exactly if the secret existed with a URL or without a password |
| `CopyExactness.RedisSucceeds` | internal/controller/service_controller.go:629-696 | without error: a secret with a password is only read, a new one holds a password of 32 characters and nothing else, one that lacked a password holds all entries, one by one, beside its others |
| `CopyExactness.FillingSucceeds` | internal/controller/service_controller.go:1486-1525 | without error: a latched target is only read, as is nothing where PostgreSQL finds none; any other holds login, password of the source, place and URL, entry by entry, beside its others |
| `CopyExactness.CopySucceeds` | internal/controller/service_controller.go:1423-1528 | the same from store to store, with the source as it was found, while others leave the target alone |
| `CopyExactness.EnsuringCopies` | internal/controller/service_controller.go:699-807 | without error the generated source is complete; after a creation or a repair a named target holds its credentials, unless it was latched |
| `CopyExactness.CompleteIsLeftAlone` | internal/controller/service_controller.go:755-797 | a complete source is only read |
| `DatabaseExactness.RenderedCopies` | internal/controller/service_controller.go:1186-1253 | without error, a PostgreSQL, MySQL or ClickHouse resource that was there is followed by a copy of its flavour |
| `CredentialAgreement.FillAgrees` | internal/controller/service_controller.go:1736-1763 | a filled target agrees with its source if and only if the source has the password or the target had none |
| `CredentialAgreement.EnsureAgrees` | internal/controller/service_controller.go:810-918 | ensuring keeps the agreement in every state; success leaves both generated keys in the source |
| `CredentialAgreement.CopyAgrees` | internal/controller/service_controller.go:1628-1733 | a copy made while the source is complete keeps the agreement in every state |
| `DatabaseAgreement.DatabaseAgrees` | internal/controller/service_controller.go:574-626 | a whole database pass, with any number of copies, keeps the agreement in every state |
| `DatabaseAgreement.LatchedPasswordIsTheSources` | internal/controller/service_controller.go:1736-1763 | over any run of passes, while nobody else writes the two secrets and no definition renders them, a latched target holds the password of its source |
| `RuntimeExactness.SuccessAchievesAll` | internal/controller/service_controller.go:1768-1929 | with distinct keys and others sparing the objects, success leaves, up to the server's defaulting, every typed resource with its rendered spec, every Job finished or with the desired containers, and anything else with the desired content and finalizers, unless it was marked for deletion and the update completed that |
| `RuntimeExactness.FailureStops` | internal/controller/service_controller.go:1768-1929 | the loop works through a prefix, asks for nothing outside it and the target secret, and stops at the object that failed |
| `RuntimeExactness.GoneOrExhausted` | internal/controller/service_controller.go:2147-2157 | the wait for a deleted Job sleeps at most ten seconds, and ends sooner only if the Job is gone |
| `RuntimeExactness.FinishedJobIsLeftAlone` | internal/controller/service_controller.go:2108-2166 | a finished Job is only read |
| `RuntimeExactness.OtherNamespaceIsRefused` | internal/controller/service_controller.go:1768-1929 | an object rendered for another namespace is never written, and refused unless it is unstructured with nothing to write |
| `RuntimeExactness.RenderedIsOwned` | internal/controller/service_controller.go:1768-1929 | whatever is created for a rendered object is stored with the reference to its resource |
| `RuntimeExactness.ServerIdIsSet` | internal/controller/service_controller.go:1186-1188 | a MySQL cluster always gets the same server id base; every other spec is as rendered |
| `RuntimeLaws.DatabaseIsProper` | internal/controller/service_controller.go:574-626 | a database pass writes its rendered objects, its three secrets and the two objects that install its operator, and nothing else; it preserves what every request for children does |
| `DatabaseExactness.DatabaseSucceeds` | internal/controller/service_controller.go:574-626 | a database pass without error has rendered and achieved every object, completed the source of MongoDB and ClickHouse, left a Redis password, and installed an operator that discovery did not find, while others leave these objects alone |
| `DatabaseExactness.DatabasePassSucceeds` | internal/controller/service_controller.go:92-188 | so has the whole pass of a live resource that ends without error |
| `RuntimeLaws.OperatorIsProper` | internal/operator/manager.go:36-51 | ensuring an operator writes its repository and release, and nothing for databases that have none |
| `RuntimeExactness.InstallationIsTolerant` | internal/operator/manager.go:119-189 | an installation leaves a repository and a release that are there as they are, and succeeds only if both are there then |
| `RuntimeExactness.ChartsAsDeclared` | internal/operator/manager.go:119-189 | repository, chart and version of the two operators |
| `Rewrites.UnfinishedJobIsReplaced` | internal/controller/service_controller.go:2138-2162 | undisturbed, a pass leaves an unfinished Job alone if defaulting keeps its containers, and otherwise deletes it and creates the same again |
| `Ownership.DatabaseStatesRenderings` | internal/controller/service_controller.go:1809-1925 | under any interference and faults, every write of an unstructured object in a database pass has the finalizers of its rendering, whatever is stored, and the custom resource as controller, which the rendering does not deny; a pending deletion is completed if that leaves no finalizer; a Service keeps its cluster address across an update |
| `Ownership.RenderingRules` | internal/controller/service_controller.go:2249-2301 | undisturbed, stored finalizers are kept if and only if the rendering states the same ones, and a foreign controller is replaced if and only if the rendering states no other |
| `Ownership.ProtectionIsStripped` | internal/controller/service_controller.go:2254-2276 | a volume claim in use, marked for deletion and owned by somebody else, is gone after one pass |
| `Rewrites.HeldJobBlocks` | internal/controller/service_controller.go:2138-2162 | undisturbed, an outdated Job under a finalizer is marked, waited for ten seconds, and then in the way of its successor |
| `Rewrites.UntypedIsRewritten` | internal/controller/service_controller.go:1881-1918 | undisturbed, an unstructured object is written again with the same content unless its rendering states the controller reference, and the deletion if one is pending |
| `Rewrites.WrittenNeedsUpdate` | internal/controller/service_controller.go:1889-1901 | exactly when what has just been written needs no further update |
| `Rewrites.OwnedUpdateIdempotent` | internal/controller/service_controller.go:2232-2304 | updating and owning an unstructured object a second time changes nothing |
| `Urls.UrlReadsBack` | internal/controller/service_controller.go:1548-1556 | a rendered URL is split back into its parts by the authority rules if and only if the password has none of the four delimiters |
| `Urls.FilledUrlReadsBack` | internal/controller/service_controller.go:1736-1763 | with a generated password and legal names the MongoDB and both ClickHouse URLs read back as the stored entries |
| `Urls.RedisUrlReadsBack` | internal/controller/service_controller.go:681-686 | so does the Redis URL |
| `Controller.ServiceReconciler.Attempt` | internal/controller/service_controller.go:271-300 | one turn of a retry loop on the stateful client is the specified one |
| `Controller.ServiceReconciler.Ensure` | internal/controller/service_controller.go:264-304 | the loop with its counter, backoff and rewritten desired object is the specified one |
| `Controller.ServiceReconciler.RemoveIfPresent` | internal/controller/service_controller.go:243-260 | read, then delete; a vanished child is fine only before the deletion |
| `Controller.ServiceReconciler.ReconcileDeployment` | internal/controller/service_controller.go:237-304 | does to the cluster what the specification says |
| `Controller.ServiceReconciler.ReconcileServices` | internal/controller/service_controller.go:308-485 | likewise, with its loops over desired Services and over the names to check |
| `Controller.ServiceReconciler.ReconcileIngress` | internal/controller/service_controller.go:489-571 | likewise |
| `Controller.ServiceReconciler.CopyCredentials` | internal/controller/service_controller.go:1423-1528 | likewise, for all four flavours |
| `Controller.ServiceReconciler.AwaitSource` | internal/controller/service_controller.go:1013-1042 | at most ten reads, two seconds after each miss |
| `Controller.ServiceReconciler.RepairSource` | internal/controller/service_controller.go:755-797 | fills what is missing, in order, panicking on a nil map |
| `Controller.ServiceReconciler.EnsureSource` | internal/controller/service_controller.go:699-807 | does to the cluster what the specification says |
| `Controller.ServiceReconciler.EnsureRedis` | internal/controller/service_controller.go:629-696 | likewise |
| `Controller.ServiceReconciler.ReconcileCluster` | internal/controller/service_controller.go:1186-1253 | likewise, for the three resources with credentials |
| `Controller.ServiceReconciler.ReconcileSimple` | internal/controller/service_controller.go:1109-1144 | likewise, for the three without |
| `Controller.ServiceReconciler.ReconcileJob` | internal/controller/service_controller.go:2108-2166 | likewise |
| `Controller.ServiceReconciler.WaitUntilGone` | internal/controller/service_controller.go:2147-2157 | at most ten reads, one second after each, until the Job is not found |
| `Controller.ServiceReconciler.ReconcileUntyped` | internal/controller/service_controller.go:1809-1925 | likewise, for unstructured objects |
| `Controller.ServiceReconciler.ReconcileObjects` | internal/controller/service_controller.go:1768-1929 | the loop over rendered objects stops at the first failure |
| `Controller.ServiceReconciler.CreateIfAbsent` | internal/operator/manager.go:135-142 | one tolerant creation on the stateful client |
| `Controller.ServiceReconciler.EnsureOperator` | internal/operator/manager.go:36-51 | asks discovery and installs as the specification says |
| `Controller.ServiceReconciler.ReconcileDatabase` | internal/controller/service_controller.go:574-626 | does to the cluster what the specification says, operator installation included |
| `Controller.ServiceReconciler.FinalizeService` | internal/controller/service_controller.go:191-234 | deletes the three children in order, forgiving those that are not there |
| `Controller.ServiceReconciler.UpdateStatusIfNeeded` | internal/controller/service_controller.go:160-185 | collects the URLs and writes the status only if it differs |
| `Controller.ServiceReconciler.Reconcile` | internal/controller/service_controller.go:92-188 | a whole pass on the stateful client is the specified one |
| `Client.Client.GeneratePassword` | internal/controller/service_controller.go:921-928 | fills a buffer with random bytes and cuts its encoding to length |

## Left out

- RuntimeExactness.SuccessAchievesAll: for unstructured objects it speaks of every field but the metadata, of which only the finalizers, and a Service's spec may have gained its cluster address.
- DatabaseAgreement.LatchedPasswordIsTheSources: a service whose rendered objects bring credentials of another database to the same target is not covered; for a copy whose source lacks the password, `FillAgrees` says exactly what happens.
- Convergence.FourPassesSuffice: assumes that ports declared with a node port are distinct in number and protocol, that commands parse, that no other controller owns a wanted Service or Ingress, and a server that does not turn an untyped Service into a NodePort Service and leaves NodePort Services what they are.
- FinalizerSafety.ChildrenNeverOutlive: passes for different resources follow one another; the default of one worker is what the program runs with.
- SecretLaws.EnsureSourceIsProper: a success is not promised to have copied the credentials in a later pass; a copy that fails after the source was created is never retried for MongoDB, as in the code.
- Deployments, core Services and Ingresses among rendered database objects: their comparison and update are modelled and proved, their place in the loop is not. Rendered secrets and config maps are unstructured objects of the loop, stored apart from the typed ones.
- Of an owner reference the model has kind with group, name, uid and the controller mark; entries of the list are kept as they are stated, and an entry's other fields are not filled in. Of the metadata that the server adds, reads show the time of a pending deletion.
- A rendering without metadata: it has no name to be found by, so its update, which would carry no version, is not reached.
- CredentialRuns.LatchIsForever: as for all run theorems about one secret or Service (`Spared`, `Undisturbed`, `SparedBoth`), the database definition does not render that very object; a rendered secret of the target's name would overwrite the latch.
- TreeLaws.NoUpdateIsExactlyNoChange: for objects with metadata, and apart from a Service's carried cluster address, which `UpdateSatisfiesCompare` covers.
- Converting updated unstructured content back into a typed object.
- The Helm values of the operator releases, which are constant, and how discovery finds a resource type: its answer is a parameter.
- Rendering database definitions and fetching them: the list of rendered objects is a parameter.
- Resource quantities, security context, annotations, pull policies and other fields that are copied or constant.
- The type of a secret, its immutability and `stringData`.
- Go's distinction of nil and empty slices in comparisons, except for nil secret data, which is modelled.
- Integer widths: ports and replicas are unbounded integers; nothing computes with them.
- Letter case outside ASCII, and bytes that are not UTF-8 in commands.
- The text of errors and log lines, the manager's wiring, the work queue that decides when passes run.
- The garbage collector, the client's read cache and admission webhooks: reads see the store, and ownership is recorded but not acted on.
- Defaulting of the custom resource itself and of secrets: they are stored as they are written.
- Grants of addresses and node ports are positive but may coincide; uniqueness is the server's business.
