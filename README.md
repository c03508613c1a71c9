# keink core, modelled in Dafny

keink ("KubeEdge in kind") creates local Kubernetes clusters whose worker
nodes run KubeEdge's edgecore, and builds the node image those clusters use.
This project models the parts of keink that decide what happens and in what
order. Each is written in Dafny, and its contract is proved.

- **Cluster creation.** The provider's `CreateKubeEdge` folds the create options in order and returns the first error. `PreProcessClusterOptions` makes sure an edge node exists and turns the first `edge-node` entry into a labelled worker. The cluster is then created through kind, with the error wrapped. The internal `Cluster` runs the KubeEdge action and asks for the cluster's deletion on failure unless `Retain` is set.
- **The KubeEdge bootstrap action.** Pre-processing waits for the control plane and patches kube-proxy. cloudcore is installed by the direct path or by `keadm init`, and the token is read and checked for emptiness. Then every edge node is stopped, configured (directly or by `keadm join`) and waited for.
- **Building the edge image.** The build options are folded over the defaults. An unsupported architecture is warned about, and the KubeEdge root is located. Then the image is built: the base image is pulled, a build container is started, the directories are made, and every built file is copied to the place its name selects. Finally the image is committed, and the container is always removed.
- **The command line.** The root command's `--loglevel` to `--verbosity` migration and its deprecation warning are modelled. So are the flag checks of `build edge-image` and its choice of the KubeEdge root.

Every shell command goes through one executor, `Exec.Executor`. The
executor records the commands issued, in order, as a trace. An oracle
function of the trace so far and the command decides each command's exit
status and output. Each Go function that runs commands one after another,
returning at the first error, is a method that issues the same commands.
That method is proved equal to a pure specification function built from
`Exec.RunPlan` (run a list of steps, stop at the first failure, report that
step's error with the labels the Go code puts around it). The properties
of the source are lemmas about those specification functions.

The edge image is modelled with the docker builder's file list as written,
`v1alpha2` device CRDs included. The list the bootstrap needs is a separate
corrected list in `ImageCrds`, used only to state the finding below.

The package variables `controlPlaneIP` and `KubeEdgeToken` of the bootstrap
are fields of the `KubeEdge.Action` class. The cluster configuration
(`*config.Cluster`), the provider, the logger and the build context are
classes whose methods change their fields in place. `PreProcessClusterOptions` is a pair of loops
over the node list, with invariants.

The `--retain` flag of `keink create kubeedge`
(`pkg/cmd/create/create.go:69`) is parsed but no create option forwards it.
`Cluster.ApplyFromConfig` proves that the fold never changes `retain`.
`Cluster.CreateKubeEdge` therefore always runs the cluster with retain off, so
a failed bootstrap always tears the cluster down.

## Model

| member | source | states |
|---|---|---|
| Exec.FirstFailureSpec | pkg/cluster/internal/create/actions/kubeedge/kubeedge.go:321-389 | the reference count of leading successes is exact: every command before it succeeds when issued after the ones before, and the one at it fails |
| Exec.RunPlanAbortsAtFirstFailure | pkg/cluster/internal/create/actions/kubeedge/kubeedge.go:321-389 | a straight-line run of `if err != nil { return }` steps issues the commands up to and including the first failing one and no later one, and returns that step's error; with no failure it issues all and succeeds |
| Exec.RunPlanAllSucceed | pkg/cluster/internal/create/actions/kubeedge/kubeedge.go:321-389 | when every command succeeds, the run issues the whole plan and returns nil |
| Exec.RunPlanStopsAtFailure | pkg/cluster/internal/create/actions/kubeedge/kubeedge.go:321-389 | when command n is the first to fail, the trace ends with it and the error is step n's |
| Exec.RunPlanOk | pkg/cluster/internal/create/actions/kubeedge/kubeedge.go:321-389 | a successful run issued exactly the plan's commands |
| Exec.RunPlanExtends | pkg/cluster/internal/create/actions/kubeedge/kubeedge.go:321-389 | a run only appends a prefix of the plan's commands to the history, and at least one for a non-empty plan |
| Exec.RunPlanAppend | pkg/cluster/internal/create/actions/kubeedge/kubeedge.go:316-391 | running two plans in sequence runs the second only when the first succeeded |
| Exec.RunPlanWrapped | pkg/cluster/internal/create/actions/kubeedge/kubeedge.go:317-319 | wrapping a callee's errors (`errors.Wrap`) changes the reported error and nothing that is issued |
| Exec.RunFromIsRunPlan | pkg/cluster/internal/create/actions/kubeedge/kubeedge.go:321-389 | running a plan from step k is running its suffix from k |
| Exec.RunPlanFromStart | pkg/cluster/internal/create/actions/kubeedge/kubeedge.go:321-389 | the step-by-step form from step 0 is the whole run |
| Exec.Executor.Run | pkg/build/edgeimage/buildcontext.go:60 | a command joins the trace, and its reply is the oracle's for the history before it |
| Exec.Executor.RunStep | pkg/cluster/internal/create/actions/kubeedge/kubeedge.go:322-327 | one step: on success the rest of the plan is what is left to run, and on failure the run ends with this step's labelled error |
| Paths.TrimmedEnd | pkg/build/edgeimage/buildcontext.go:95 | trimming the trailing slashes leaves none |
| Paths.AfterLastSlashShape | pkg/build/edgeimage/buildcontext.go:95 | the last element has no slash, and is non-empty when the path does not end in one |
| Paths.BaseShape | pkg/build/edgeimage/buildcontext.go:95 | `path.Base` is never empty and has no slash unless it is "/" |
| Paths.AfterLastSlashOfJoin | pkg/build/edgeimage/buildcontext.go:95 | the last element of a directory ending in `/` followed by a slash-free name is that name |
| Paths.BaseOfJoin | pkg/build/edgeimage/buildcontext.go:95 | the base of such a join is the name |
| Paths.BaseIdempotent | pkg/build/edgeimage/buildcontext.go:95 | the base of a base is itself |
| Strings.ContainsIsInfix | pkg/build/edgeimage/buildcontext.go:96-99 | the left-to-right `strings.Contains` scan is true iff the pattern occurs at some offset |
| Strings.ContainsConcat | pkg/build/edgeimage/buildcontext.go:96-99 | `a + t + b` contains `t` |
| Format.Decimal | pkg/build/edgeimage/buildcontext.go:139 | `%d` never writes the empty string, and writes only digits for a non-negative number |
| Format.DigitsRoundTrip | pkg/build/edgeimage/buildcontext.go:139 | the digits of n read back as n |
| Format.DecimalRoundTrip | pkg/build/edgeimage/buildcontext.go:139 | what `%d` writes for any integer reads back as that integer |
| Kind.Provider.Request | pkg/cluster/provider.go:45 | every request to the provider is recorded in order; its result is the provider's reply |
| Kind.Logger.Warn | pkg/build/edgeimage/build.go:31 | a warning is appended to the logger's warnings and changes nothing else |
| Kind.Logger.SetVerbosity | pkg/cmd/root.go:141-149 | the verbosity becomes the level; warnings and the writer are untouched |
| Kind.Logger.DiscardOutput | pkg/cmd/root.go:129-137 | the logger discards its output from then on; warnings and verbosity are untouched |
| Cluster.ApplyWritesOnlyItsField | pkg/cluster/createoption.go:24-77 | each create option writes its own field, even when its loader fails, and no other; it fails iff its loader failed, with that error |
| Cluster.ApplyIdempotent | pkg/cluster/createoption.go:24-77 | applying an option twice is applying it once |
| Cluster.LaterOptionWins | pkg/cluster/createoption.go:24-77 | of two options on the same field the later decides it |
| Cluster.OptionsOnDifferentFieldsCommute | pkg/cluster/createoption.go:24-77 | options on different fields commute |
| Cluster.Apply | pkg/cluster/createoption.go:18-20 | `apply` changes the options exactly as the option's specification says and returns its error |
| Cluster.ApplyFromFirstError | pkg/cluster/provider.go:36-40 | the fold fails iff some option's loader failed, and then with the first such error, every earlier option having been applied |
| Cluster.ApplyFromConfig | pkg/cluster/provider.go:28-40 | no option changes `Retain` or the name override; after a successful fold the configuration is the initial one or one an option loaded, and it is set when some option sets it |
| Cluster.FindEdgeNode | pkg/cluster/provider.go:59-65 | the first-`edge-node` search finds the first such entry at or after k, or none exists |
| Cluster.AppendsEdgeWorkerIffNoEdgeNode | pkg/cluster/provider.go:59-76 | a labelled worker is appended iff no entry has the `edge-node` role, and then nothing else changes |
| Cluster.ConvertsOnlyFirstEdgeNode | pkg/cluster/provider.go:78-92 | the first `edge-node` entry becomes a worker that keeps its image and labels and gains the edge label; every other entry, later `edge-node` ones included, is unchanged |
| Cluster.PreProcessLabelsAnEdgeNode | pkg/cluster/provider.go:56-93 | afterwards some worker carries the edge label, the list grew by at most one, and untouched entries keep their places |
| Cluster.FirstEdgeNodeUnique | pkg/cluster/provider.go:80-91 | an `edge-node` entry preceded by none is the one converted |
| Cluster.PreProcessClusterOptions | pkg/cluster/provider.go:56-93 | the two in-place loops leave exactly the pre-processed node list and keep the cluster name |
| Cluster.CreateKubeEdge | pkg/cluster/provider.go:28-52 | a failing option returns its error before anything else happens; otherwise the nodes are pre-processed and kind is asked to create the cluster with the shared options: the name override, the configuration's name and pre-processed nodes, and the node image, retain, wait and kubeconfig path the options set; its failure is wrapped as "failed to create k8s cluster", and on success the internal `Cluster` runs with retain off |
| InternalCreate.TeardownUnlessRetained | pkg/cluster/internal/create/create.go:23-43 | the result is the action's; deletion of the configured cluster is requested iff the action failed and retain is off |
| InternalCreate.Cluster | pkg/cluster/internal/create/create.go:23-43 | runs the KubeEdge action, built from the advertise address and container mode with empty package variables, and issues the deletion request as the specification says |
| KubeEdge.Action.constructor | pkg/cluster/internal/create/actions/kubeedge/kubeedge.go:47-52 | the action keeps the advertise address and container mode |
| KubeEdge.Action.Execute | pkg/cluster/internal/create/actions/kubeedge/kubeedge.go:55-80 | pre-processing, cloudcore and edgecore run in order; the trace, package variables and result are the specification's |
| KubeEdge.Action.PreProcess | pkg/cluster/internal/create/actions/kubeedge/kubeedge.go:109-145 | the control-plane wait and the kube-proxy patch, with their error labels |
| KubeEdge.Action.BootstrapCloudCore | pkg/cluster/internal/create/actions/kubeedge/kubeedge.go:147-169 | exactly one cloudcore path runs, as chosen by the container mode, its error labelled with the path; the address is untouched |
| KubeEdge.Action.StartCloudcoreWithKeadm | pkg/cluster/internal/create/actions/kubeedge/kubeedge.go:172-189 | `keadm init`, then the token read if it succeeded |
| KubeEdge.Action.StartCloudcore | pkg/cluster/internal/create/actions/kubeedge/kubeedge.go:192-251 | the namespace, one create per CRD in list order, the configuration steps, then the token read |
| KubeEdge.Action.ConfigureCloudcore | pkg/cluster/internal/create/actions/kubeedge/kubeedge.go:222-248 | generate cloudcore's configuration, the two edits, start the service, stopping at the first failure |
| KubeEdge.Action.GetToken | pkg/cluster/internal/create/actions/kubeedge/kubeedge.go:489-504 | the secret read; the token is set only when the read succeeds with output |
| KubeEdge.Action.BootstrapEdgecore | pkg/cluster/internal/create/actions/kubeedge/kubeedge.go:254-290 | choose the address, list the edge nodes, and join them when there are any |
| KubeEdge.Action.JoinEdgeNodes | pkg/cluster/internal/create/actions/kubeedge/kubeedge.go:292-313 | every edge node is bootstrapped with the variant the container mode selects, and the first error in node order is returned |
| KubeEdge.Action.RunStartEdgecore | pkg/cluster/internal/create/actions/kubeedge/kubeedge.go:316-392 | stopKubelet (its error wrapped again), the edgecore configuration steps, then waitNodeReady |
| KubeEdge.Action.ConfigureEdgecore | pkg/cluster/internal/create/actions/kubeedge/kubeedge.go:321-389 | the configure-and-start steps of the direct variant, in order |
| KubeEdge.Action.ConfigureEdgecoreRuntime | pkg/cluster/internal/create/actions/kubeedge/kubeedge.go:321-354 | default configuration, token, image and runtime endpoints, runtime type |
| KubeEdge.Action.ConfigureEdgecoreHub | pkg/cluster/internal/create/actions/kubeedge/kubeedge.go:356-389 | web socket and server address, MQTT mode, resolv path, service start |
| KubeEdge.Action.RunStartEdgecoreWithKeadm | pkg/cluster/internal/create/actions/kubeedge/kubeedge.go:395-420 | stopKubelet, clean `/etc/kubeedge`, `keadm join`, waitNodeReady |
| KubeEdge.Action.StopKubelet | pkg/cluster/internal/create/actions/kubeedge/kubeedge.go:423-454 | stop the kubelet on the node, then delete the node object on the control plane |
| KubeEdge.Action.WaitNodeReady | pkg/cluster/internal/create/actions/kubeedge/kubeedge.go:457-486 | wait until the node is listed, then until it is Ready, on the control plane |
| KubeEdgePlans.CreateCrdStepsAt | pkg/cluster/internal/create/actions/kubeedge/kubeedge.go:211-220 | step i creates CRD i from the CRD directory |
| KubeEdgePlans.CloudcorePlanOrder | pkg/cluster/internal/create/actions/kubeedge/kubeedge.go:192-248 | the direct path issues the namespace, every listed CRD in list order, then the configuration and the start |
| KubeEdgePlans.NodeBootstrapShape | pkg/cluster/internal/create/actions/kubeedge/kubeedge.go:316-420 | every node bootstrap starts by stopping the kubelet and deleting the node object and ends with the two waits; the keadm variant is in between iff container mode |
| KubeEdgePlans.EdgecorePlanEmbeds | pkg/cluster/internal/create/actions/kubeedge/kubeedge.go:329-367 | the edits carry the token, `https://<ip>:10002` and `<ip>:10000` |
| KubeEdgePlans.KeadmEdgecorePlanEmbeds | pkg/cluster/internal/create/actions/kubeedge/kubeedge.go:411 | the join carries `<ip>:30000`, `--certport 30002` and the token |
| Commands.EdgecoreSetEmbeds | pkg/cluster/internal/create/actions/kubeedge/kubeedge.go:329-377 | every edgecore `sed` edit carries the value it writes |
| Commands.EdgecoreSettingsEmbed | pkg/cluster/internal/create/actions/kubeedge/kubeedge.go:329-367 | the token, web socket and server edits carry their values in the source's format |
| Commands.KeadmJoinEmbedsAddress | pkg/cluster/internal/create/actions/kubeedge/kubeedge.go:411 | `keadm join` is given `<ip>:30000` |
| Commands.KeadmJoinEmbedsCertPort | pkg/cluster/internal/create/actions/kubeedge/kubeedge.go:411 | `keadm join` is given the certificate port 30002 |
| Commands.KeadmJoinEmbedsToken | pkg/cluster/internal/create/actions/kubeedge/kubeedge.go:411 | `keadm join` is given the token |
| KubeEdgeProperties.PreProcessPatchOnlyAfterWait | pkg/cluster/internal/create/actions/kubeedge/kubeedge.go:109-145 | without a control plane nothing is issued; otherwise the wait comes first, the patch is issued iff the wait succeeded, and the phase succeeds iff both do |
| KubeEdgeProperties.GetTokenValidates | pkg/cluster/internal/create/actions/kubeedge/kubeedge.go:489-504 | exactly the secret read is issued; success iff it exits zero with non-empty output, and then the token is that output; an empty output fails with "tokensecret cannot be empty" and nothing changes |
| KubeEdgeProperties.CloudCoreRunsOnePath | pkg/cluster/internal/create/actions/kubeedge/kubeedge.go:147-251 | the new commands are a non-empty prefix of the chosen path followed by the token read, all of it on success; the address is untouched |
| KubeEdgeProperties.CloudCoreOkSetsToken | pkg/cluster/internal/create/actions/kubeedge/kubeedge.go:158-168 | the cloudcore phase succeeds iff its path and the read succeed and the read printed something; the token is then that non-empty output, and on failure nothing changes |
| KubeEdgeProperties.JoinExtends | pkg/cluster/internal/create/actions/kubeedge/kubeedge.go:292-313 | joining only appends to the trace |
| KubeEdgeProperties.JoinAttemptsEveryNode | pkg/cluster/internal/create/actions/kubeedge/kubeedge.go:292-313 | every edge node's kubelet stop is issued, whatever happened to the nodes before it |
| KubeEdgeProperties.JoinOk | pkg/cluster/internal/create/actions/kubeedge/kubeedge.go:292-313 | a successful join issued one whole bootstrap per node, in list order |
| KubeEdgeProperties.JoinOneMore | pkg/cluster/internal/create/actions/kubeedge/kubeedge.go:292-313 | joining one more node runs its bootstrap after the others' trace; an earlier failure stays the result, else the new node's result is |
| KubeEdgeProperties.JoinPrefixStep | pkg/cluster/internal/create/actions/kubeedge/kubeedge.go:292-313 | the join of the first k+1 nodes ends where node k's run ends, with the first failure so far |
| KubeEdgeProperties.JoinPrefixFailure | pkg/cluster/internal/create/actions/kubeedge/kubeedge.go:292-313 | the join of the first n nodes fails iff one of their bootstraps fails, and then with the error of the first failing one, every earlier node having succeeded |
| KubeEdgeProperties.JoinFailsAtFirstFailedNode | pkg/cluster/internal/create/actions/kubeedge/kubeedge.go:292-313 | the join fails iff some edge node's bootstrap fails, and returns the error of the first failing node in list order |
| KubeEdgeProperties.JoinTraceIsEveryNodeRun | pkg/cluster/internal/create/actions/kubeedge/kubeedge.go:292-313 | the join's trace is the node runs one after another: the first from the history, each next one from where the one before ended, the join ending where the last ends |
| KubeEdgeProperties.StopKubeletFailureAborts | pkg/cluster/internal/create/actions/kubeedge/kubeedge.go:316-319 | a failed stopKubelet ends the node's bootstrap with at most the two stop commands issued, wrapped as "failed to stop kubelet" |
| KubeEdgeProperties.NodeBootstrapOk | pkg/cluster/internal/create/actions/kubeedge/kubeedge.go:316-420 | a successful node bootstrap starts with the kubelet stop on the node and ends with the Ready wait on the control plane |
| KubeEdgeProperties.EdgecoreAddressAndNoNodes | pkg/cluster/internal/create/actions/kubeedge/kubeedge.go:265-281 | the address is the advertise address when given, else the control plane's IP; with no edge node nothing is issued and the phase succeeds |
| KubeEdgeProperties.ExecuteStopsAtFirstFailedPhase | pkg/cluster/internal/create/actions/kubeedge/kubeedge.go:55-80 | a failed phase ends the run (pre-processing labelled "failed do pre process"); the run succeeds iff all three phases do |
| KubeEdgeProperties.ExecuteOk | pkg/cluster/internal/create/actions/kubeedge/kubeedge.go:55-80 | a successful run issued the wait and patch, the chosen cloudcore path, the token read and one whole bootstrap per edge node, with the chosen address and a non-empty token |
| KubeEdgeProperties.ExecuteFailsAtFirstFailedNode | pkg/cluster/internal/create/actions/kubeedge/kubeedge.go:55-80 | once pre-processing and cloudcore succeeded, the action fails iff some edge node's bootstrap fails, with the first failing node's error, and its trace ends where the last node's bootstrap ends |
| EdgeImage.ArchOption | pkg/build/edgeimage/options.go:50-58 | an empty architecture option keeps the architecture, a non-empty one sets it; every option is idempotent |
| EdgeImage.ArchAfterOptions | pkg/build/edgeimage/build.go:22-27 | the architecture after the options is the last non-empty one given, else the host's; it is never empty when the host's is not |
| EdgeImage.LoggerAfterOptions | pkg/build/edgeimage/build.go:22-27 | the logger after the options is the default or one an option named |
| EdgeImage.BuilderDirs | pkg/build/edgeimage/internal/kube/builder_docker.go:96-106 | eleven directories, one per built file |
| EdgeImage.KubeEdgeBits | pkg/build/edgeimage/internal/kube/builder_docker.go:108-127 | one path per name of the builder's list as written, `v1alpha2` device CRDs included |
| EdgeImage.GivenRootSkipsLookup | pkg/build/edgeimage/build.go:34-41 | with a root given by option, the source lookup's result does not matter |
| EdgeImage.BuildStopsWithoutSource | pkg/build/edgeimage/build.go:34-39 | without a root and without sources nothing is issued, and the lookup's error is wrapped as "error finding kubeedge root" |
| EdgeImage.BuildStopsWhenCompileFails | pkg/build/edgeimage/buildcontext.go:32-39 | a failed compilation issues nothing and is wrapped as "failed to build KubeEdge"; the builder gets the given root, else the found one |
| EdgeImage.BuildPullsAndCommits | pkg/build/edgeimage/buildcontext.go:47-157 | after compiling, the base image is pulled for `linux/<arch>` first, the container is removed last, and on success the chosen tag is committed just before that |
| EdgeImage.BuildContext.constructor | pkg/build/edgeimage/build.go:14-20 | the context starts from the defaults, with no builder |
| EdgeImage.BuildContext.Apply | pkg/build/edgeimage/options.go:14-58 | an option sets its field as its specification says and leaves the builder alone |
| EdgeImage.BuildContext.Build | pkg/build/edgeimage/buildcontext.go:32-45 | compile, wrap its error, else build the image |
| EdgeImage.BuildContext.BuildImage | pkg/build/edgeimage/buildcontext.go:47-130 | create the container, build in it, and remove it whenever its name is non-empty |
| EdgeImage.BuildContext.CreateBuildContainer | pkg/build/edgeimage/buildcontext.go:132-157 | pull (result ignored), then `docker run` under the name made from the clock and the draw |
| EdgeImage.BuildContext.BuildInContainer | pkg/build/edgeimage/buildcontext.go:75-126 | the directories, every file in order, then the commit, up to the first failure |
| EdgeImage.BuildContext.MakeDirectories | pkg/build/edgeimage/buildcontext.go:75-89 | the three `mkdir`s in order |
| EdgeImage.BuildContext.InstallFile | pkg/build/edgeimage/buildcontext.go:92-112 | copy, `chmod +x`, `chown root:root` at the destination the file's name selects |
| EdgeImage.BuildContext.CheckAndBuild | pkg/build/edgeimage/build.go:29-51 | warn iff the architecture is unsupported, locate the root when none was given, build; the logger's verbosity and discard switch are untouched |
| EdgeImage.Build | pkg/build/edgeimage/build.go:13-52 | the whole build: the options folded over the defaults, the warning on the chosen logger, then the build specification; the chosen logger's verbosity and discard switch are untouched, and no other logger an option named changes |
| EdgeImagePlans.PlatformNamesArch | pkg/build/edgeimage/buildcontext.go:159-161 | the platform is `linux/` followed by exactly the architecture |
| EdgeImagePlans.DestinationKeepsName | pkg/build/edgeimage/buildcontext.go:94-102 | a file keeps its base name and lands in one of the three directories |
| EdgeImagePlans.DotlessNamesAreExecutables | pkg/build/edgeimage/buildcontext.go:95 | a base name without a dot goes to `/usr/local/bin/` |
| EdgeImagePlans.DestinationOfJoin | pkg/build/edgeimage/buildcontext.go:94-102 | a file named `name` in any directory goes where its name says |
| EdgeImagePlans.ShortExtensionIsNotService | pkg/build/edgeimage/buildcontext.go:96 | a plain name with a short extension does not contain `.service` |
| EdgeImagePlans.UnitFilesGoToSystemd | pkg/build/edgeimage/buildcontext.go:96-98 | `<stem>.service` goes to `/etc/systemd/system/` |
| EdgeImagePlans.ManifestsGoToCrdDir | pkg/build/edgeimage/buildcontext.go:99-101 | `<stem>.yaml` goes to `/etc/kubeedge/crds/` |
| EdgeImagePlans.ManifestDir | pkg/build/edgeimage/buildcontext.go:96-101 | `.service` is tested first, so a plain manifest name selects the CRD directory |
| EdgeImagePlans.BuildContainerName | pkg/build/edgeimage/buildcontext.go:139 | the name starts with `kind-build-` |
| EdgeImagePlans.BuildContainerNameRoundTrip | pkg/build/edgeimage/buildcontext.go:136-139 | the name determines the time and the draw it was made from |
| EdgeImagePlans.BuildContainerNamesDistinct | pkg/build/edgeimage/buildcontext.go:136-139 | different seconds or draws give different containers |
| EdgeImagePlans.ImagePlan | pkg/build/edgeimage/buildcontext.go:75-126 | three directories, three steps per file, one commit |
| EdgeImagePlans.ImagePlanAt | pkg/build/edgeimage/buildcontext.go:92-112 | file i is copied to its destination, made executable and given to root at steps 3+3i to 5+3i |
| EdgeImagePlans.ImagePlanEnds | pkg/build/edgeimage/buildcontext.go:75-126 | the plan starts with the three `mkdir`s and ends with the commit |
| EdgeImagePlans.ContainerPlanAt | pkg/build/edgeimage/buildcontext.go:92-112 | the same steps, counted from the container's creation |
| EdgeImagePlans.ContainerPlanEnds | pkg/build/edgeimage/buildcontext.go:54-126 | creation, directories, files, commit last |
| EdgeImagePlans.ContainerPlanHasShape | pkg/build/edgeimage/buildcontext.go:54-126 | the whole container plan has the shape the step-by-step build relies on |
| EdgeImagePlans.BuildImageShape | pkg/build/edgeimage/buildcontext.go:47-157 | whatever the replies: pull first, creation next, removal last; success iff every step succeeds, and then the whole plan was issued, the commit just before the removal |
| EdgeImagePlans.CopyIssuedAt | pkg/build/edgeimage/buildcontext.go:104 | the copy of file i is at its fixed position in a full run |
| EdgeImagePlans.BuildImageCopiesEveryFile | pkg/build/edgeimage/buildcontext.go:91-113 | a successful build copied every built file to its destination in its container |
| EdgeImagePlans.ContainerPlanCopiesOnlyTo | pkg/build/edgeimage/buildcontext.go:54-126 | every copy in the container plan goes to one of the files' destinations |
| EdgeImagePlans.BuildImageCopiesOnlyTo | pkg/build/edgeimage/buildcontext.go:47-157 | whatever the replies, every copy an image build issues goes to the destination of one of its files |
| ImageCrds.KubeEdgeBitsCorrected | pkg/build/edgeimage/internal/kube/builder_docker.go:108-127 | one path per name of the corrected list |
| ImageCrds.CorrectionTouchesDeviceCrdsOnly | pkg/build/edgeimage/internal/kube/builder_docker.go:108-127 | the corrected files differ from the builder's in the two device CRDs only |
| ImageCrds.InstalledUnderItsName | pkg/build/edgeimage/buildcontext.go:94-102 | a file lands under its own name, so it reaches a CRD path only if it has that CRD's name |
| ImageCrds.BuiltNamesAreElements | pkg/build/edgeimage/internal/kube/builder_docker.go:111-125 | every name of the builder's list is a single path element |
| ImageCrds.AsWrittenImageLacksDeviceCrd | pkg/build/edgeimage/internal/kube/builder_docker.go:116-117 | as written, no built file lands at `/etc/kubeedge/crds/devices_v1beta1_device.yaml`, the first CRD the bootstrap creates |
| ImageCrds.AsWrittenBuildNeverCopiesDeviceCrd | pkg/build/edgeimage/internal/kube/builder_docker.go:116-117 | as written, no build, whatever the replies, issues a copy to that path |
| ImageCrds.CrdStemsArePlain | pkg/cluster/internal/create/actions/kubeedge/kubeedge.go:202-209 | the CRD names are plain stems with `.yaml` |
| ImageCrds.CrdsAreManifests | pkg/cluster/internal/create/actions/kubeedge/kubeedge.go:202-209 | CRD j is stem j with `.yaml` and file 3+j of the corrected list |
| ImageCrds.CrdShipped | pkg/cluster/internal/create/actions/kubeedge/kubeedge.go:212-214 | with the corrected list, file 3+j lands where CRD j is read from |
| ImageCrds.ImageShipsEveryCrd | pkg/cluster/internal/create/actions/kubeedge/kubeedge.go:211-214 | with the corrected list, every CRD the bootstrap creates is installed at the path it reads |
| ImageCrds.BuiltImageHasEveryCrd | pkg/cluster/internal/create/actions/kubeedge/kubeedge.go:211-214 | with the corrected list, a successful image build copies each CRD into the container at the path the bootstrap reads it from |
| RootCmd.Flagpole.constructor | pkg/cmd/root.go:45-64 | the flags hold what was parsed |
| RootCmd.MigrationRules | pkg/cmd/root.go:99-109 | only `--loglevel` without `--verbosity` migrates: `debug` gives 3, `trace` 2147483647, anything else keeps the verbosity; migrating again changes nothing |
| RootCmd.WarnsIffLogLevelSet | pkg/cmd/root.go:117-124 | exactly one deprecation warning iff `--loglevel` was given, coloured or plain |
| RootCmd.RunE | pkg/cmd/root.go:98-126 | migrate, discard output when quiet and the logger can, set the verbosity when it can, warn, and return nil |
| BuildCmd.CheckFlagsRules | pkg/cmd/build/build.go:48-62 | the checks accept exactly at most one argument, no `--type`, and no `--kube-root` with an argument; too many arguments is reported first, then `--kube-root` with an argument, then `--type`; the deprecation warning appears iff `--kube-root` came alone |
| BuildCmd.TooManyArgsCount | pkg/cmd/build/build.go:48 | the argument-count error reads back as the count received |
| BuildCmd.CommandOptionsSettings | pkg/cmd/build/build.go:93-104 | the build uses the argument (else `--kube-root`) as root, the command's logger, the flags' tags, and the host's architecture when `--arch` is empty |
| BuildCmd.RunE | pkg/cmd/build/build.go:53-108 | failed checks issue nothing and return their error; otherwise the build runs with the command's options and its error is wrapped as "failed to build edge-image"; the logger's verbosity and discard switch are untouched |

## Left out

- Logging: `Info`, `Errorf` and the `V(3)` output lines are not modelled. Only warnings, verbosity and the discard switch are.
- `time.Sleep(20 * time.Second)` in `getToken` is not modelled: it does not change what is issued.
- The clock and the random draw of the build container name are parameters (`unixTime`, `random`).
- `joinEdgeNodes` runs the node bootstraps concurrently (`errors.UntilErrorConcurrent`). The model runs them one after another in list order, and every node is attempted. The error returned is the first in list order, where the source returns the first to arrive in time.
- `ctx.Nodes()`, `nodeutils.BootstrapControlPlaneNode` and `docker.ListEdgeNodesByLabel` are fields of `KubeEdge.Context`. Their lookups are resolved once, and repeating them inside `stopKubelet` and `waitNodeReady` is taken to give the same control plane.
- kind's cluster creation (`sharedcreate.Cluster`) and deletion (`delete.Cluster`) are requests to `Kind.Provider`, whose reply function decides their results. The deletion's result is discarded, as in the source.
- `encoding.Load` and `encoding.Parse` are kind's configuration loaders, which this model does not include. A configuration option carries what its loader returned.
- The edge label key and value come from kind's docker provider, which this model does not include. They are constants left without a value.
- `DefaultBaseImage` (`pkg/build/edgeimage/default.go`) and `runtime.GOARCH` are parameters.
- `internalkube.FindSource` is a parameter giving its result. Compiling KubeEdge (`dockerBuilder.Build`: `make`, `os.Chdir`) is a parameter saying whether a builder succeeds. The build's working directory is a parameter. `NewDockerBuilder` never fails and is the `Builder` value.
- `filepath.Join` cleans the paths it builds (`..`, doubled and trailing slashes). `EdgeImage.Under` joins a directory and a name with one `/` and does not clean the root given.
- kind's `sharedcreate.Cluster` fills in the configuration's defaults, its name included. The model keeps the configuration as loaded and passes it, with the other shared options, as the request's fields.
- `docker.Pull` retries up to 4 times. It is one command whose result is ignored, as the source ignores it.
- `errors.Wrap` and `fmt.Errorf("...: %v", err)` both put a label before an error. The model keeps the labels as a list and does not flatten them into one string.
- `EdgeImage.UnsupportedArchWarning`: `%q` is written as plain double quotes. Go's escaping of special characters in the architecture is not modelled.
- `BuildCmd.TooManyArgs`: the message of `cobra.MaximumNArgs` is cobra's text, which this model does not include.
- `Cluster.CreateKubeEdge`: requires a configuration option. Without one, the source dereferences a nil configuration in `PreProcessClusterOptions`, and the model does not represent that panic.
- `InternalCreate.Cluster`: requires a configuration, because `opts.Config.Name` is read on failure.
- The unused `build` parent command (`pkg/cmd/build/build.go:24-42`) is not modelled. It only prints help and returns "Subcommand is required".

## Findings

| source | as written | input that shows it | evidently intended | confidence | as-written member | corrected member |
|---|---|---|---|---|---|---|
| pkg/build/edgeimage/internal/kube/builder_docker.go:116-117 | the image ships the device CRDs `devices_v1alpha2_device.yaml` and `devices_v1alpha2_devicemodel.yaml` | any build: the bootstrap's first `kubectl create -f` (kubeedge.go:202-214) reads `/etc/kubeedge/crds/devices_v1beta1_device.yaml`, which no file of the image lands at | ship `devices_v1beta1_device.yaml` and `devices_v1beta1_devicemodel.yaml`, the names the bootstrap creates | not executed | ImageCrds.AsWrittenBuildNeverCopiesDeviceCrd | ImageCrds.BuiltImageHasEveryCrd |
