/**
 * Building the edge node image: fold the build options over the defaults,
 * warn about an unsupported architecture, find the KubeEdge sources when no
 * root was given, compile KubeEdge, then install the built files into a
 * container of the base image and commit it as the edge image.
 */
module EdgeImage {
  import opened Strings
  import opened Commands
  import opened Errors
  import opened Exec
  import opened Paths
  import opened Kind
  import opened EdgeImagePlans

  /** The tag given to the built image unless an option says otherwise. */
  const DefaultImage: string := "kubeedge/node:latest"

  /** A build option. None of them fails. */
  datatype BuildOption =
    | WithImage(image: string)
    | WithBaseImage(baseImage: string)
    | WithKubeEdgeRoot(root: string)
    | WithLogger(logger: Logger?)  // `null` stands for `log.NoopLogger`
    | WithArch(arch: string)

  /** The option fields of the build context. */
  datatype Settings = Settings(image: string, baseImage: string, logger: Logger?, arch: string, kubeEdgeRoot: string)

  /** The defaults `Build` starts from: the default tag and base image, no logging, the host's architecture. */
  function DefaultSettings(defaultBaseImage: string, goarch: string): Settings
  {
    Settings(DefaultImage, defaultBaseImage, null, goarch, "")
  }

  function ApplyBuildOption(opt: BuildOption, s: Settings): Settings
  {
    match opt
    case WithImage(image) => s.(image := image)
    case WithBaseImage(baseImage) => s.(baseImage := baseImage)
    case WithKubeEdgeRoot(root) => s.(kubeEdgeRoot := root)
    case WithLogger(logger) => s.(logger := logger)
    case WithArch(arch) => if arch != "" then s.(arch := arch) else s
  }

  /** The options in order from index `k`. */
  function ApplyBuildOptions(options: seq<BuildOption>, k: nat, s: Settings): Settings
    requires k <= |options|
    decreases |options| - k
  {
    if k == |options| then s else ApplyBuildOptions(options, k + 1, ApplyBuildOption(options[k], s))
  }

  /** The architecture a run of options leaves: the last non-empty `WithArch`, else the one before them. */
  function ChosenArch(options: seq<BuildOption>, k: nat, arch: string): string
    requires k <= |options|
    decreases |options| - k
  {
    if k == |options| then arch
    else ChosenArch(options, k + 1, if options[k].WithArch? && options[k].arch != "" then options[k].arch else arch)
  }

  /** An empty architecture option keeps the architecture; a non-empty one sets it; applying an option twice is applying it once. */
  lemma ArchOption(s: Settings, arch: string, opt: BuildOption)
    ensures arch == "" ==> ApplyBuildOption(WithArch(arch), s) == s
    ensures arch != "" ==> ApplyBuildOption(WithArch(arch), s) == s.(arch := arch)
    ensures ApplyBuildOption(opt, ApplyBuildOption(opt, s)) == ApplyBuildOption(opt, s)
  {
  }

  /**
   * The architecture the options leave is the one `ChosenArch` picks: the
   * starting one (`runtime.GOARCH`) or a non-empty one an option gave, so it
   * is empty only when the starting one is and no option gave one.
   */
  lemma {:induction false} ArchAfterOptions(options: seq<BuildOption>, k: nat, s: Settings)
    requires k <= |options|
    ensures var a := ApplyBuildOptions(options, k, s).arch;
      && a == ChosenArch(options, k, s.arch)
      && (a == s.arch || exists i :: k <= i < |options| && options[i] == WithArch(a))
      && (s.arch != "" ==> a != "")
    decreases |options| - k
  {
    if k < |options| {
      ArchAfterOptions(options, k + 1, ApplyBuildOption(options[k], s));
    }
  }

  /** The loggers the options name. */
  function LoggersOf(options: seq<BuildOption>): set<Logger>
  {
    set i | 0 <= i < |options| && options[i].WithLogger? && options[i].logger != null :: options[i].logger
  }

  /** The logger the options leave is none or one they named. */
  lemma {:induction false} LoggerAfterOptions(options: seq<BuildOption>, k: nat, s: Settings)
    requires k <= |options|
    ensures var l := ApplyBuildOptions(options, k, s).logger;
      l == null || l == s.logger || l in LoggersOf(options)
    decreases |options| - k
  {
    if k < |options| {
      var next := ApplyBuildOption(options[k], s);
      LoggerAfterOptions(options, k + 1, next);
      if options[k].WithLogger? && options[k].logger != null {
        assert next.logger in LoggersOf(options);
      }
    }
  }

  /** What `NewDockerBuilder` records: the source root and the target architecture. It never fails. */
  datatype Builder = Builder(kubeEdgeRoot: string, arch: string)

  /** `filepath.Join(dir, name)` for a clean `dir` and a one-element `name`. */
  function Under(dir: string, name: string): string
  {
    dir + "/" + name
  }

  /**
   * The directories of the files the docker builder returns once it compiled
   * KubeEdge: three binaries, six CRD manifests of the KubeEdge tree, and two
   * unit files from this repository (`workDir`).
   */
  function BuilderDirs(kubeEdgeRoot: string, workDir: string): (r: seq<string>)
    ensures |r| == 11
  {
    var binDir := kubeEdgeRoot + "/_output/local/bin";
    var crdDir := kubeEdgeRoot + "/build/crds";
    var serviceDir := workDir + "/build/tools";
    [ binDir, binDir, binDir,
      crdDir + "/devices", crdDir + "/devices",
      crdDir + "/reliablesyncs", crdDir + "/reliablesyncs",
      crdDir + "/router", crdDir + "/router",
      serviceDir, serviceDir ]
  }

  /** The names of those files, as the builder lists them: its device CRDs are the `v1alpha2` ones. */
  const BuiltNames: seq<string> := [
    "keadm", "cloudcore", "edgecore",
    "devices_v1alpha2_device.yaml", "devices_v1alpha2_devicemodel.yaml",
    "cluster_objectsync_v1alpha1.yaml", "objectsync_v1alpha1.yaml",
    "router_v1_rule.yaml", "router_v1_ruleEndpoint.yaml",
    "edgecore.service", "cloudcore.service"
  ]

  /** The files the builder returns, in the order they are installed. */
  function KubeEdgeBits(kubeEdgeRoot: string, workDir: string): (r: seq<string>)
    ensures |r| == |BuiltNames|
  {
    var dirs := BuilderDirs(kubeEdgeRoot, workDir);
    seq(|BuiltNames|, i requires 0 <= i < |BuiltNames| => Under(dirs[i], BuiltNames[i]))
  }

  /**
   * `buildContext.Build` once the builder exists: compile KubeEdge (`compile`
   * says whether that worked), wrapping its error, then build the image in a
   * container named from the clock and the random draw.
   */
  function BuildWithBuilderSpec(o: Oracle, h: seq<Issued>, s: Settings, b: Builder, compile: Builder -> Status,
                                workDir: string, unixTime: int, random: nat): Outcome
  {
    var built := compile(b);
    if built.Fail? then Outcome(h, Fail(Wrap(built.error, "failed to build KubeEdge")))
    else BuildImageSpec(o, h, s.baseImage, s.arch, s.image, BuildContainerName(unixTime, random),
                        KubeEdgeBits(b.kubeEdgeRoot, workDir))
  }

  /**
   * `Build` after the options: the source root is the option's, or what
   * `FindSource` found (its error wrapped); the builder gets the root and the
   * architecture.
   */
  function BuildSpec(o: Oracle, h: seq<Issued>, s: Settings, findSource: Result<string>, compile: Builder -> Status,
                     workDir: string, unixTime: int, random: nat): Outcome
  {
    if s.kubeEdgeRoot == "" && findSource.Failure? then
      Outcome(h, Fail(Wrap(findSource.error, "error finding kubeedge root")))
    else
      var root := if s.kubeEdgeRoot == "" then findSource.value else s.kubeEdgeRoot;
      BuildWithBuilderSpec(o, h, s, Builder(root, s.arch), compile, workDir, unixTime, random)
  }

  /** The warning for an architecture node images are not built for. */
  function UnsupportedArchWarning(arch: string): string
  {
    "unsupported architecture \"" + arch + "\""
  }

  /** A root given by option is used as is: the source lookup's result does not matter. */
  lemma GivenRootSkipsLookup(o: Oracle, h: seq<Issued>, s: Settings, f1: Result<string>, f2: Result<string>,
                             compile: Builder -> Status, workDir: string, unixTime: int, random: nat)
    requires s.kubeEdgeRoot != ""
    ensures BuildSpec(o, h, s, f1, compile, workDir, unixTime, random)
         == BuildSpec(o, h, s, f2, compile, workDir, unixTime, random)
  {
  }

  /** Without sources (and no root given) the build stops before any command, with the lookup's error wrapped. */
  lemma BuildStopsWithoutSource(o: Oracle, h: seq<Issued>, s: Settings, findSource: Result<string>,
                                compile: Builder -> Status, workDir: string, unixTime: int, random: nat)
    requires s.kubeEdgeRoot == "" && findSource.Failure?
    ensures BuildSpec(o, h, s, findSource, compile, workDir, unixTime, random)
         == Outcome(h, Fail(Wrap(findSource.error, "error finding kubeedge root")))
  {
  }

  /**
   * When compiling fails the build stops before any command, with the
   * builder's error wrapped; the builder gets the given root, else the one
   * found.
   */
  lemma BuildStopsWhenCompileFails(o: Oracle, h: seq<Issued>, s: Settings, findSource: Result<string>, root: string,
                                   compile: Builder -> Status, workDir: string, unixTime: int, random: nat)
    requires s.kubeEdgeRoot != "" ==> root == s.kubeEdgeRoot
    requires s.kubeEdgeRoot == "" ==> findSource == Success(root)
    requires compile(Builder(root, s.arch)).Fail?
    ensures BuildSpec(o, h, s, findSource, compile, workDir, unixTime, random)
         == Outcome(h, Fail(Wrap(compile(Builder(root, s.arch)).error, "failed to build KubeEdge")))
  {
  }

  /**
   * Once compiled, the base image is pulled for `linux/<arch>` first, the
   * container is removed last and, on success, the chosen tag is committed
   * just before that.
   */
  lemma BuildPullsAndCommits(o: Oracle, h: seq<Issued>, s: Settings, findSource: Result<string>, root: string,
                             compile: Builder -> Status, workDir: string, unixTime: int, random: nat)
    requires s.kubeEdgeRoot != "" ==> root == s.kubeEdgeRoot
    requires s.kubeEdgeRoot == "" ==> findSource == Success(root)
    requires compile(Builder(root, s.arch)).Ok?
    ensures var r := BuildSpec(o, h, s, findSource, compile, workDir, unixTime, random);
      var id := BuildContainerName(unixTime, random);
      && |h| < |r.trace| && r.trace[..|h| + 1] == h + [Issued(Host, PullImage(s.baseImage, "linux/" + s.arch))]
      && r.trace[|r.trace| - 1] == Issued(Host, RemoveContainer(id))
      && (r.status.Ok? ==> r.trace[|r.trace| - 2] == Issued(Host, Commit(id, s.image)))
  {
    var r := BuildSpec(o, h, s, findSource, compile, workDir, unixTime, random);
    BuildImageShape(o, h, s.baseImage, s.arch, s.image, unixTime, random, KubeEdgeBits(root, workDir));
    assert r.trace[..|h| + 2][..|h| + 1] == r.trace[..|h| + 1];
  }

  // ---- the build, step by step ----

  /** The build context: the option fields, the builder once made, and the executor the docker commands go through. */
  class BuildContext {
    var image: string
    var baseImage: string
    var logger: Logger?
    var arch: string
    var kubeEdgeRoot: string
    var builder: Option<Builder>
    const exec: Executor

    constructor (defaultBaseImage: string, goarch: string, exec: Executor)
      ensures Value() == DefaultSettings(defaultBaseImage, goarch)
      ensures builder == None && this.exec == exec
    {
      image := DefaultImage;
      baseImage := defaultBaseImage;
      logger := null;
      arch := goarch;
      kubeEdgeRoot := "";
      builder := None;
      this.exec := exec;
    }

    function Value(): Settings
      reads this
    {
      Settings(image, baseImage, logger, arch, kubeEdgeRoot)
    }

    /** `option.apply(ctx)`: set the field the option names. */
    method Apply(opt: BuildOption)
      modifies this
      ensures Value() == ApplyBuildOption(opt, old(Value()))
      ensures builder == old(builder)
    {
      match opt
      case WithImage(i) => image := i;
      case WithBaseImage(b) => baseImage := b;
      case WithKubeEdgeRoot(root) => kubeEdgeRoot := root;
      case WithLogger(l) => logger := l;
      case WithArch(a) =>
        if a != "" {
          arch := a;
        }
    }

    /** `Build`: compile KubeEdge with the builder, then build the image from what it produced. */
    method Build(compile: Builder -> Status, workDir: string, unixTime: int, random: nat) returns (err: Status)
      requires builder.Some?
      modifies exec
      ensures Outcome(exec.trace, err)
           == BuildWithBuilderSpec(exec.oracle, old(exec.trace), Value(), builder.value, compile, workDir, unixTime, random)
    {
      var built := compile(builder.value);
      if built.Fail? {
        return Fail(Wrap(built.error, "failed to build KubeEdge"));
      }
      err := BuildImage(KubeEdgeBits(builder.value.kubeEdgeRoot, workDir), unixTime, random);
    }

    /** `buildImage`: create the container, build in it, and remove it on the way out (the deferred `docker rm`). */
    method BuildImage(bits: seq<string>, unixTime: int, random: nat) returns (err: Status)
      modifies exec
      ensures Outcome(exec.trace, err)
           == BuildImageSpec(exec.oracle, old(exec.trace), baseImage, arch, image, BuildContainerName(unixTime, random), bits)
    {
      ghost var name := BuildContainerName(unixTime, random);
      ghost var dests := Destinations(bits);
      ghost var plan := BuildPlan(baseImage, arch, image, name, bits);
      ghost var pulled := old(exec.trace) + [Issued(Host, PullImage(baseImage, DockerBuildOsAndArch(arch)))];
      RunPlanFromStart(exec.oracle, pulled, plan);
      ContainerPlanHasShape(baseImage, arch, name, bits, dests, image);
      var id: string;
      id, err := CreateBuildContainer(unixTime, random, plan);
      if err.Ok? {
        err := BuildInContainer(id, bits, dests, plan);
      }
      if id != "" {
        var removed := exec.Run(Host, RemoveContainer(id));
      }
    }

    /**
     * `createBuildContainer`: pull the base image for the platform (its
     * result is ignored), then start the container under a fresh name; the
     * start is step 0 of the caller's `plan`.
     */
    method CreateBuildContainer(unixTime: int, random: nat, ghost plan: seq<Step>) returns (id: string, err: Status)
      requires |plan| > 0 && plan[0] == CreateContainerStep(baseImage, BuildContainerName(unixTime, random), arch)
      modifies exec
      ensures id == BuildContainerName(unixTime, random)
      ensures var pulled := old(exec.trace) + [Issued(Host, PullImage(baseImage, DockerBuildOsAndArch(arch)))];
        && (err.Ok? ==> RunFrom(exec.oracle, pulled, plan, 0) == RunFrom(exec.oracle, exec.trace, plan, 1))
        && (err.Fail? ==> RunFrom(exec.oracle, pulled, plan, 0) == Outcome(exec.trace, err))
    {
      var pulled := exec.Run(Host, PullImage(baseImage, DockerBuildOsAndArch(arch)));
      id := BuildContainerName(unixTime, random);
      err := exec.RunStep(CreateContainerStep(baseImage, id, arch), plan, 0);
    }

    /** The steps after the container exists: the directories, each file, the commit. */
    method BuildInContainer(id: string, bits: seq<string>, ghost dests: seq<string>, ghost plan: seq<Step>)
      returns (err: Status)
      requires dests == Destinations(bits)
      requires ContainerPlanShape(plan, id, bits, dests, image)
      modifies exec
      ensures RunFrom(exec.oracle, old(exec.trace), plan, 1) == Outcome(exec.trace, err)
    {
      err := MakeDirectories(id, plan);
      if err.Fail? {
        return;
      }
      for i := 0 to |bits|
        invariant RunFrom(exec.oracle, old(exec.trace), plan, 1) == RunFrom(exec.oracle, exec.trace, plan, 4 + 3 * i)
      {
        err := InstallFile(id, bits, i, dests[i], plan);
        if err.Fail? {
          return;
        }
      }
      err := exec.RunStep(CommitStep(id, image), plan, 4 + 3 * |bits|);
    }

    /** The directories the files go into: steps 1 to 3 of the caller's `plan`. */
    method MakeDirectories(id: string, ghost plan: seq<Step>) returns (err: Status)
      requires 3 < |plan|
      requires plan[1] == Step(id, MakeDir(false, "/kubeedge/"), [])
      requires plan[2] == Step(id, MakeDir(true, "/etc/kubeedge/config/"), [])
      requires plan[3] == Step(id, MakeDir(true, CrdDir), [])
      modifies exec
      ensures err.Ok? ==> RunFrom(exec.oracle, old(exec.trace), plan, 1) == RunFrom(exec.oracle, exec.trace, plan, 4)
      ensures err.Fail? ==> RunFrom(exec.oracle, old(exec.trace), plan, 1) == Outcome(exec.trace, err)
    {
      err := exec.RunStep(Step(id, MakeDir(false, "/kubeedge/"), []), plan, 1);
      if err.Fail? {
        return;
      }
      err := exec.RunStep(Step(id, MakeDir(true, "/etc/kubeedge/config/"), []), plan, 2);
      if err.Fail? {
        return;
      }
      err := exec.RunStep(Step(id, MakeDir(true, CrdDir), []), plan, 3);
    }

    /** One file: copy it to where its name says, make it executable, give it to root (steps `4 + 3i` to `6 + 3i`). */
    method InstallFile(id: string, bits: seq<string>, i: nat, ghost dest: string, ghost plan: seq<Step>)
      returns (err: Status)
      requires i < |bits| && 6 + 3 * i < |plan| && dest == Destination(bits[i])
      requires plan[4 + 3 * i] == Step(Host, CopyIn(bits[i], id, dest), [])
      requires plan[5 + 3 * i] == Step(id, MakeExecutable(dest), [])
      requires plan[6 + 3 * i] == Step(id, ChownRoot(dest), [])
      modifies exec
      ensures err.Ok? ==>
        RunFrom(exec.oracle, old(exec.trace), plan, 4 + 3 * i) == RunFrom(exec.oracle, exec.trace, plan, 7 + 3 * i)
      ensures err.Fail? ==> RunFrom(exec.oracle, old(exec.trace), plan, 4 + 3 * i) == Outcome(exec.trace, err)
    {
      var binary := bits[i];
      var nodePath := Destination(binary);
      err := exec.RunStep(Step(Host, CopyIn(binary, id, nodePath), []), plan, 4 + 3 * i);
      if err.Fail? {
        return;
      }
      err := exec.RunStep(Step(id, MakeExecutable(nodePath), []), plan, 5 + 3 * i);
      if err.Fail? {
        return;
      }
      err := exec.RunStep(Step(id, ChownRoot(nodePath), []), plan, 6 + 3 * i);
    }

    /**
     * The rest of `Build` once the options are applied: warn about an
     * unsupported architecture, take the found sources when no root was
     * given, make the builder and build.
     */
    method CheckAndBuild(findSource: Result<string>, compile: Builder -> Status, workDir: string, unixTime: int,
                         random: nat) returns (err: Status)
      requires builder == None
      modifies this, exec, logger
      ensures Outcome(exec.trace, err)
           == BuildSpec(exec.oracle, old(exec.trace), old(Value()), findSource, compile, workDir, unixTime, random)
      ensures old(logger) != null ==>
        old(logger).warnings == old(logger.warnings) + (if SupportedArch(old(arch)) then [] else [UnsupportedArchWarning(old(arch))])
      ensures old(logger) != null ==>
        old(logger).verbosity == old(logger.verbosity) && old(logger).discarding == old(logger.discarding)
    {
      if !SupportedArch(arch) && logger != null {
        logger.Warn(UnsupportedArchWarning(arch));
      }

      if kubeEdgeRoot == "" {
        match findSource
        case Failure(e) =>
          return Fail(Wrap(e, "error finding kubeedge root"));
        case Success(root) =>
          kubeEdgeRoot := root;
      }

      builder := Some(Builder(kubeEdgeRoot, arch));
      err := Build(compile, workDir, unixTime, random);
    }
  }

  /**
   * `Build`: apply the options over the defaults, warn (through the chosen
   * logger) about an unsupported architecture, find the sources when no root
   * was given, make the builder and build. `findSource` is what
   * `FindSource` returns, `compile` whether compiling KubeEdge with a builder
   * succeeds, `workDir` the directory the build runs in, and `unixTime` and
   * `random` the clock and the random draw the container name is made from.
   */
  method Build(options: seq<BuildOption>, defaultBaseImage: string, goarch: string, findSource: Result<string>,
               compile: Builder -> Status, workDir: string, unixTime: int, random: nat, exec: Executor)
    returns (err: Status)
    modifies exec, LoggersOf(options)
    ensures var s := ApplyBuildOptions(options, 0, DefaultSettings(defaultBaseImage, goarch));
      Outcome(exec.trace, err) == BuildSpec(exec.oracle, old(exec.trace), s, findSource, compile, workDir, unixTime, random)
    ensures var s := ApplyBuildOptions(options, 0, DefaultSettings(defaultBaseImage, goarch));
      s.logger != null ==>
        && s.logger.warnings == old(s.logger.warnings) + (if SupportedArch(s.arch) then [] else [UnsupportedArchWarning(s.arch)])
        && s.logger.verbosity == old(s.logger.verbosity) && s.logger.discarding == old(s.logger.discarding)
    ensures var s := ApplyBuildOptions(options, 0, DefaultSettings(defaultBaseImage, goarch));
      forall l :: l in LoggersOf(options) && l != s.logger ==> unchanged(l)
  {
    var ctx := new BuildContext(defaultBaseImage, goarch, exec);
    ghost var s := ApplyBuildOptions(options, 0, ctx.Value());
    LoggerAfterOptions(options, 0, ctx.Value());
    for i := 0 to |options|
      modifies ctx
      invariant ApplyBuildOptions(options, i, ctx.Value()) == s
      invariant ctx.builder == None
    {
      ctx.Apply(options[i]);
    }

    err := ctx.CheckAndBuild(findSource, compile, workDir, unixTime, random);
  }
}
