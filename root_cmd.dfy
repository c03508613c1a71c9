/**
 * The root command's persistent pre-run: the migration of the deprecated
 * `--loglevel` flag to a verbosity, and the logger set up from the flags.
 */
module RootCmd {
  import opened Errors
  import opened Kind

  /** `int32`, the type of the `--verbosity` flag and of `log.Level`. */
  newtype int32 = x: int | -0x8000_0000 <= x < 0x8000_0000

  const MaxInt32: int32 := 0x7fff_ffff

  /** The root command's flags. */
  class Flagpole {
    var logLevel: string
    var verbosity: int32
    var quiet: bool

    constructor (logLevel: string, verbosity: int32, quiet: bool)
      ensures this.logLevel == logLevel && this.verbosity == verbosity && this.quiet == quiet
    {
      this.logLevel := logLevel;
      this.verbosity := verbosity;
      this.quiet := quiet;
    }
  }

  /**
   * The verbosity after the migration: only when `--loglevel` was given and
   * `--verbosity` was not, `debug` means 3 and `trace` the largest level.
   */
  function MigratedVerbosity(logLevel: string, verbosity: int32, setLogLevel: bool, setVerbosity: bool): int32
  {
    if setLogLevel && !setVerbosity then
      if logLevel == "debug" then 3
      else if logLevel == "trace" then MaxInt32
      else verbosity
    else verbosity
  }

  const DeprecationWarning: string := "WARNING: --loglevel is deprecated, please switch to -v and -q!"
  const ColoredDeprecationWarning: string := "\U{1b}[93mWARNING\U{1b}[0m: --loglevel is deprecated, please switch to -v and -q!"

  /** The warnings the pre-run logs: the deprecation notice when `--loglevel` was given, coloured if the logger is. */
  function PreRunWarnings(setLogLevel: bool, colorEnabled: bool): seq<string>
  {
    if !setLogLevel then []
    else if colorEnabled then [ColoredDeprecationWarning]
    else [DeprecationWarning]
  }

  /**
   * The migration rules: an explicit `--verbosity` or no `--loglevel` leaves
   * the verbosity as given; otherwise `debug` gives 3, `trace` 2147483647 and
   * any other level leaves it. Applying the migration again changes nothing.
   */
  lemma MigrationRules(logLevel: string, verbosity: int32, setLogLevel: bool, setVerbosity: bool)
    ensures var v := MigratedVerbosity(logLevel, verbosity, setLogLevel, setVerbosity);
      && (!setLogLevel || setVerbosity ==> v == verbosity)
      && (setLogLevel && !setVerbosity && logLevel == "debug" ==> v == 3)
      && (setLogLevel && !setVerbosity && logLevel == "trace" ==> v as int == 2147483647)
      && (logLevel != "debug" && logLevel != "trace" ==> v == verbosity)
      && MigratedVerbosity(logLevel, v, setLogLevel, setVerbosity) == v
  {
  }

  /** Exactly one warning is logged when `--loglevel` was given, none otherwise. */
  lemma WarnsIffLogLevelSet(setLogLevel: bool, colorEnabled: bool)
    ensures |PreRunWarnings(setLogLevel, colorEnabled)| == (if setLogLevel then 1 else 0)
    ensures setLogLevel ==> PreRunWarnings(setLogLevel, colorEnabled)[0] in {DeprecationWarning, ColoredDeprecationWarning}
  {
  }

  /**
   * `runE`: migrate `--loglevel`, silence the logger when quiet (if it can
   * take a writer), set its verbosity (if it can), warn about `--loglevel`,
   * and succeed. `setLogLevel` and `setVerbosity` say whether those flags
   * were given on the command line.
   */
  method RunE(logger: Logger, flags: Flagpole, setLogLevel: bool, setVerbosity: bool) returns (err: Status)
    modifies logger, flags
    ensures flags.verbosity == MigratedVerbosity(old(flags.logLevel), old(flags.verbosity), setLogLevel, setVerbosity)
    ensures flags.logLevel == old(flags.logLevel) && flags.quiet == old(flags.quiet)
    ensures logger.verbosity == if logger.canSetVerbosity then flags.verbosity as int else old(logger.verbosity)
    ensures logger.discarding == (old(logger.discarding) || (flags.quiet && logger.canSetWriter))
    ensures logger.warnings == old(logger.warnings) + PreRunWarnings(setLogLevel, logger.colorEnabled)
    ensures err == Ok
  {
    if setLogLevel && !setVerbosity {
      if flags.logLevel == "debug" {
        flags.verbosity := 3;
      } else if flags.logLevel == "trace" {
        flags.verbosity := MaxInt32;
      }
    }
    if flags.quiet && logger.canSetWriter {
      logger.DiscardOutput();
    }
    if logger.canSetVerbosity {
      logger.SetVerbosity(flags.verbosity as int);
    }
    if setLogLevel {
      if logger.colorEnabled {
        logger.Warn(ColoredDeprecationWarning);
      } else {
        logger.Warn(DeprecationWarning);
      }
    }
    return Ok;
  }
}
