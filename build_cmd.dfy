/**
 * `keink build edge-image [kubeedge-source]`: the flag checks made before
 * the build, the choice of the KubeEdge root, and the build options the
 * command passes on.
 */
module BuildCmd {
  import opened Errors
  import opened Exec
  import opened Format
  import opened Kind
  import opened EdgeImagePlans
  import opened EdgeImage

  /** The command's flags: `--type`, `--image`, `--base-image`, `--kube-root`, `--arch`. */
  datatype Flagpole = Flagpole(buildType: string, image: string, baseImage: string, kubeRoot: string, arch: string)

  /** Which of the checked flags were given on the command line. */
  datatype Changed = Changed(kubeRoot: bool, buildType: bool)

  /** The result of the checks: the warnings logged on the way, then the error or success. */
  datatype FlagCheck = FlagCheck(warnings: seq<string>, status: Status)

  /** `cobra.MaximumNArgs(1)`'s error. */
  function TooManyArgs(n: nat): string
  {
    "accepts at most 1 arg(s), received " + Decimal(n)
  }

  const ArgumentAndKubeRoot: string :=
    "passing an argument and deprecated --kube-root is not supported, please switch to just the argument"
  const KubeRootDeprecated: string := "--kube-root is deprecated, please switch to passing this as an argument"
  const TypeUnsupported: string := "--type is no longer supported, please remove this flag"

  /**
   * The checks, in order: at most one argument; `--kube-root` not with an
   * argument, and deprecated when alone; `--type` not at all.
   */
  function CheckFlags(changed: Changed, args: seq<string>): FlagCheck
  {
    if |args| > 1 then FlagCheck([], Fail(Message(TooManyArgs(|args|))))
    else if changed.kubeRoot && |args| != 0 then FlagCheck([], Fail(Message(ArgumentAndKubeRoot)))
    else
      var warnings := if changed.kubeRoot then [KubeRootDeprecated] else [];
      if changed.buildType then FlagCheck(warnings, Fail(Message(TypeUnsupported)))
      else FlagCheck(warnings, Ok)
  }

  /** The KubeEdge root: the argument when there is one, else `--kube-root`. */
  function KubeRoot(flags: Flagpole, args: seq<string>): string
  {
    if |args| > 0 then args[0] else flags.kubeRoot
  }

  /** The options `runE` builds with. */
  function CommandBuildOptions(flags: Flagpole, args: seq<string>, logger: Logger): seq<BuildOption>
  {
    [WithImage(flags.image), WithBaseImage(flags.baseImage), WithKubeEdgeRoot(KubeRoot(flags, args)),
     WithLogger(logger), WithArch(flags.arch)]
  }

  /**
   * The checks accept exactly: at most one argument, no `--type`, and no
   * `--kube-root` together with an argument. Their order decides the error:
   * too many arguments first, then `--kube-root` with an argument, then
   * `--type`; the deprecation warning is logged only when `--kube-root` came
   * alone, even if `--type` then fails.
   */
  lemma CheckFlagsRules(changed: Changed, args: seq<string>)
    ensures var c := CheckFlags(changed, args);
      && (c.status.Ok? <==> |args| <= 1 && !changed.buildType && !(changed.kubeRoot && |args| == 1))
      && (|args| > 1 ==> c.status == Fail(Message(TooManyArgs(|args|))))
      && (|args| == 1 && changed.kubeRoot ==> c.status == Fail(Message(ArgumentAndKubeRoot)))
      && (|args| <= 1 && !(changed.kubeRoot && |args| == 1) && changed.buildType ==>
            c.status == Fail(Message(TypeUnsupported)))
      && (c.warnings == [KubeRootDeprecated] <==> changed.kubeRoot && |args| == 0)
      && (c.warnings != [KubeRootDeprecated] ==> c.warnings == [])
  {
  }

  /** The argument count in the error reads back as the count given. */
  lemma TooManyArgsCount(n: nat)
    ensures var m := TooManyArgs(n);
      var prefix := "accepts at most 1 arg(s), received ";
      |prefix| <= |m| && m[..|prefix|] == prefix && ParseDecimal(m[|prefix|..]) == Some(n as int)
  {
    var prefix := "accepts at most 1 arg(s), received ";
    var m := TooManyArgs(n);
    assert m[|prefix|..] == Decimal(n);
    DecimalRoundTrip(n);
  }

  /**
   * The options make the build use the argument (or `--kube-root`) as its
   * root, the command's logger, and the flags' image and base image; an
   * empty `--arch` keeps the host's architecture.
   */
  lemma CommandOptionsSettings(flags: Flagpole, args: seq<string>, logger: Logger, defaultBaseImage: string, goarch: string)
    ensures var s := ApplyBuildOptions(CommandBuildOptions(flags, args, logger), 0, DefaultSettings(defaultBaseImage, goarch));
      && s.kubeEdgeRoot == KubeRoot(flags, args)
      && (|args| > 0 ==> s.kubeEdgeRoot == args[0])
      && s.logger == logger
      && s.image == flags.image && s.baseImage == flags.baseImage
      && s.arch == (if flags.arch == "" then goarch else flags.arch)
  {
    var o := CommandBuildOptions(flags, args, logger);
    var s0 := DefaultSettings(defaultBaseImage, goarch);
    var s1 := ApplyBuildOption(o[0], s0);
    var s2 := ApplyBuildOption(o[1], s1);
    var s3 := ApplyBuildOption(o[2], s2);
    var s4 := ApplyBuildOption(o[3], s3);
    var s5 := ApplyBuildOption(o[4], s4);
    calc {
      ApplyBuildOptions(o, 0, s0);
      ApplyBuildOptions(o, 1, s1);
      ApplyBuildOptions(o, 2, s2);
      ApplyBuildOptions(o, 3, s3);
      ApplyBuildOptions(o, 4, s4);
      ApplyBuildOptions(o, 5, s5);
      s5;
    }
  }

  /** The settings the command's build runs with. */
  function CommandSettings(flags: Flagpole, args: seq<string>, logger: Logger, defaultBaseImage: string, goarch: string): Settings
  {
    ApplyBuildOptions(CommandBuildOptions(flags, args, logger), 0, DefaultSettings(defaultBaseImage, goarch))
  }

  /**
   * The `RunE` of `edge-image`: the checks (logging their warnings), then
   * the build with the command's options, its error wrapped. The build's
   * inputs are as for `EdgeImage.Build`.
   */
  method RunE(changed: Changed, flags: Flagpole, args: seq<string>, logger: Logger, defaultBaseImage: string,
              goarch: string, findSource: Result<string>, compile: Builder -> Status, workDir: string,
              unixTime: int, random: nat, exec: Executor) returns (err: Status)
    modifies logger, exec
    ensures var c := CheckFlags(changed, args);
      var s := CommandSettings(flags, args, logger, defaultBaseImage, goarch);
      var warned := old(logger.warnings) + c.warnings;
      && (c.status.Fail? ==> err == c.status && exec.trace == old(exec.trace) && logger.warnings == warned)
      && (c.status.Ok? ==>
            var r := BuildSpec(exec.oracle, old(exec.trace), s, findSource, compile, workDir, unixTime, random);
            && exec.trace == r.trace && err == WrapStatus(r.status, "failed to build edge-image")
            && logger.warnings == warned + (if SupportedArch(s.arch) then [] else [UnsupportedArchWarning(s.arch)]))
    ensures logger.verbosity == old(logger.verbosity) && logger.discarding == old(logger.discarding)
  {
    if |args| > 1 {
      return Fail(Message(TooManyArgs(|args|)));
    }
    if changed.kubeRoot {
      if |args| != 0 {
        return Fail(Message(ArgumentAndKubeRoot));
      }
      logger.Warn(KubeRootDeprecated);
    }
    if changed.buildType {
      return Fail(Message(TypeUnsupported));
    }
    CommandOptionsSettings(flags, args, logger, defaultBaseImage, goarch);
    var options := CommandBuildOptions(flags, args, logger);
    assert options[3].logger == logger;
    assert LoggersOf(options) == {logger};
    err := Build(options, defaultBaseImage, goarch, findSource, compile, workDir, unixTime, random, exec);
    err := WrapStatus(err, "failed to build edge-image");
  }
}
