/**
 * What building the edge image issues: the build container's name and
 * platform, where each built file goes in the image, and the command
 * sequence of `buildImage` from the pull of the base image to the removal of
 * the build container.
 */
module EdgeImagePlans {
  import opened Strings
  import opened Commands
  import opened Errors
  import opened Exec
  import opened Format
  import opened Paths

  /** Where the docker commands themselves run: the machine doing the build. */
  const Host: string := ""

  const BinaryDir: string := "/usr/local/bin/"
  const ServiceDir: string := "/etc/systemd/system/"

  /** `dockerBuildOsAndArch`: the docker platform of a Linux build for `arch`. */
  function DockerBuildOsAndArch(arch: string): (platform: string)
  {
    "linux/" + arch
  }

  /** The platform names the OS and gives back the architecture after `linux/`. */
  lemma PlatformNamesArch(arch: string)
    ensures StartsWith(DockerBuildOsAndArch(arch), "linux/")
    ensures DockerBuildOsAndArch(arch)[|"linux/"|..] == arch
  {
  }

  /** `supportedArch`: the architectures node images are nominally built for. */
  predicate SupportedArch(arch: string)
  {
    arch == "amd64" || arch == "arm64" || arch == "ppc64le"
  }

  /** The directory a file of this base name is put in: `.service` is tested first, then `.yaml`. */
  function DirFor(name: string): string
  {
    if Contains(name, ".service") then ServiceDir
    else if Contains(name, ".yaml") then CrdDir
    else BinaryDir
  }

  /**
   * Where a built file goes in the image: unit files into systemd's
   * directory, CRD manifests (`.yaml`) into the CRD directory, everything else
   * into `/usr/local/bin/`, under its own base name.
   */
  function Destination(binary: string): string
  {
    var name := Base(binary);
    DirFor(name) + name
  }

  /** The destination keeps the file's name, in one of the three directories. */
  lemma DestinationKeepsName(binary: string)
    requires Base(binary) != "/"
    ensures var d := Destination(binary);
      var name := Base(binary);
      && Base(d) == name
      && d[..|d| - |name|] in {ServiceDir, CrdDir, BinaryDir}
  {
    var name := Base(binary);
    var dir := DirFor(name);
    BaseShape(binary);
    assert dir in {ServiceDir, CrdDir, BinaryDir};
    assert dir[|dir| - 1] == '/';
    BaseOfJoin(dir, name);
    assert (dir + name)[..|dir|] == dir;
  }

  /** A `t` occurring in `s` brings its characters with it. */
  lemma ContainsKeepsChar(s: string, t: string, i: nat)
    requires i < |t| && Contains(s, t)
    ensures t[i] in s
  {
    ContainsIsInfix(s, t);
    var k :| 0 <= k <= |s| && StartsWith(s[k..], t);
    assert s[k + i] == t[i];
  }

  /** A file whose base name has no dot, as the built executables have, goes to `/usr/local/bin/`. */
  lemma DotlessNamesAreExecutables(binary: string)
    requires '.' !in Base(binary)
    ensures Destination(binary) == BinaryDir + Base(binary)
  {
    var name := Base(binary);
    if Contains(name, ".service") {
      ContainsKeepsChar(name, ".service", 0);
    }
    if Contains(name, ".yaml") {
      ContainsKeepsChar(name, ".yaml", 0);
    }
  }

  /** A file named `name` in any directory goes to the directory its name selects, under that name. */
  lemma DestinationOfJoin(dir: string, name: string)
    requires dir == [] || dir[|dir| - 1] == '/'
    requires name != [] && forall i :: 0 <= i < |name| ==> name[i] != '/'
    ensures Destination(dir + name) == DirFor(name) + name
  {
    BaseOfJoin(dir, name);
  }

  /** No `/` and no `.` in `s`. */
  predicate PlainName(s: string)
  {
    '/' !in s && '.' !in s
  }

  /** Two pieces without `/` make a name without `/`. */
  lemma NoSlashInConcat(a: string, b: string)
    requires '/' !in a && '/' !in b
    ensures forall i :: 0 <= i < |a + b| ==> (a + b)[i] != '/'
  {
    forall i | 0 <= i < |a + b|
      ensures (a + b)[i] != '/'
    {
      if i < |a| {
        assert (a + b)[i] == a[i] && a[i] in a;
      } else {
        assert (a + b)[i] == b[i - |a|] && b[i - |a|] in b;
      }
    }
  }

  /** A name whose only dot starts a short extension does not contain `.service`. */
  lemma ShortExtensionIsNotService(stem: string, ext: string)
    requires PlainName(stem) && PlainName(ext) && |ext| < 7
    ensures !Contains(stem + "." + ext, ".service")
  {
    var s := stem + "." + ext;
    ContainsIsInfix(s, ".service");
    assert forall j :: 0 <= j < |s| && j != |stem| ==> s[j] != '.' by {
      forall j | 0 <= j < |s| && j != |stem|
        ensures s[j] != '.'
      {
        if j < |stem| {
          assert s[j] == stem[j];
        } else {
          assert s[j] == ext[j - |stem| - 1];
        }
      }
    }
    forall k | 0 <= k <= |s|
      ensures !StartsWith(s[k..], ".service")
    {
      if k != |stem| && k < |s| {
        assert s[k..][0] == s[k];
      }
    }
  }

  /** A unit file `<stem>.service` goes to systemd's directory. */
  lemma UnitFilesGoToSystemd(dir: string, stem: string)
    requires dir == [] || dir[|dir| - 1] == '/'
    requires PlainName(stem)
    ensures Destination(dir + (stem + ".service")) == ServiceDir + (stem + ".service")
  {
    NoSlashInConcat(stem, ".service");
    DestinationOfJoin(dir, stem + ".service");
    ContainsConcat(stem, ".service", "");
    assert stem + ".service" + "" == stem + ".service";
  }

  /** A manifest `<stem>.yaml` goes to the directory `startCloudcore` creates CRDs from. */
  lemma ManifestsGoToCrdDir(dir: string, stem: string)
    requires dir == [] || dir[|dir| - 1] == '/'
    requires PlainName(stem)
    ensures Destination(dir + (stem + ".yaml")) == CrdDir + (stem + ".yaml")
  {
    NoSlashInConcat(stem, ".yaml");
    DestinationOfJoin(dir, stem + ".yaml");
    ManifestDir(stem);
  }

  /** The directory a manifest name selects. */
  lemma ManifestDir(stem: string)
    requires PlainName(stem)
    ensures DirFor(stem + ".yaml") == CrdDir
  {
    var manifest := stem + ".yaml";
    ContainsConcat(stem, ".yaml", "");
    assert stem + ".yaml" + "" == manifest;
    ShortExtensionIsNotService(stem, "yaml");
    assert stem + "." + "yaml" == manifest;
  }

  // ---- the build container's name ----

  const BuildContainerPrefix: string := "kind-build-"

  /** `kind-build-<unix time>-<random>`, as `fmt.Sprintf` writes it; `random` is a non-negative 31-bit draw. */
  function BuildContainerName(unixTime: int, random: nat): (id: string)
    ensures StartsWith(id, BuildContainerPrefix)
  {
    BuildContainerPrefix + Decimal(unixTime) + "-" + Decimal(random)
  }

  /** The index of the last `-` in `s`. */
  function LastDash(s: string): (r: Option<nat>)
    ensures r.Some? ==> r.value < |s| && s[r.value] == '-' && forall j :: r.value < j < |s| ==> s[j] != '-'
    ensures r.None? ==> forall j :: 0 <= j < |s| ==> s[j] != '-'
    decreases |s|
  {
    if s == [] then None
    else if s[|s| - 1] == '-' then Some(|s| - 1)
    else LastDash(s[..|s| - 1])
  }

  /** Read the time and the random number back out of a build container's name. */
  function ParseBuildContainerName(id: string): Option<(int, nat)>
  {
    if !StartsWith(id, BuildContainerPrefix) then None
    else
      var rest := id[|BuildContainerPrefix|..];
      match LastDash(rest)
      case None => None
      case Some(k) =>
        var t := ParseDecimal(rest[..k]);
        var r := rest[k + 1..];
        if t.Some? && IsDigits(r) then Some((t.value, ParseDigits(r))) else None
  }

  /** The name determines the time and the random number it was made from. */
  lemma BuildContainerNameRoundTrip(unixTime: int, random: nat)
    ensures ParseBuildContainerName(BuildContainerName(unixTime, random)) == Some((unixTime, random))
  {
    var id := BuildContainerName(unixTime, random);
    var t := Decimal(unixTime);
    var r := Decimal(random);
    var rest := id[|BuildContainerPrefix|..];
    assert rest == t + "-" + r;
    assert rest[|t|] == '-';
    assert forall j :: |t| < j < |rest| ==> rest[j] == r[j - |t| - 1];
    assert LastDash(rest) == Some(|t|);
    assert rest[..|t|] == t;
    assert rest[|t| + 1..] == r;
    DecimalRoundTrip(unixTime);
    DigitsRoundTrip(random);
  }

  /** Two builds started at different seconds or with different draws use different containers. */
  lemma BuildContainerNamesDistinct(t1: int, r1: nat, t2: int, r2: nat)
    requires (t1, r1) != (t2, r2)
    ensures BuildContainerName(t1, r1) != BuildContainerName(t2, r2)
  {
    BuildContainerNameRoundTrip(t1, r1);
    BuildContainerNameRoundTrip(t2, r2);
  }

  // ---- the steps of buildImage ----

  /** `docker run` of the base image for the target platform, sleeping forever; its error is wrapped. */
  function CreateContainerStep(baseImage: string, id: string, arch: string): Step
  {
    Step(Host, RunBuildContainer(baseImage, id, DockerBuildOsAndArch(arch)), ["failed to create build container"])
  }

  /** The three directories made in the build container before anything is copied. */
  function SetupPlan(id: string): seq<Step>
  {
    [ Step(id, MakeDir(false, "/kubeedge/"), []),
      Step(id, MakeDir(true, "/etc/kubeedge/config/"), []),
      Step(id, MakeDir(true, CrdDir), []) ]
  }

  /** Where each built file goes in the node image, in the order of the files. */
  function Destinations(bits: seq<string>): seq<string>
  {
    seq(|bits|, i requires 0 <= i < |bits| => Destination(bits[i]))
  }

  /** Step `j` (0, 1 or 2) of installing `binary` at `dest`. */
  function CopyStep(id: string, binary: string, dest: string, j: nat): Step
  {
    if j == 0 then Step(Host, CopyIn(binary, id, dest), [])
    else if j == 1 then Step(id, MakeExecutable(dest), [])
    else Step(id, ChownRoot(dest), [])
  }

  /** The files in order, three steps each; file `i` goes to `dests[i]`. */
  function InstallPlan(id: string, bits: seq<string>, dests: seq<string>): (r: seq<Step>)
    requires |dests| == |bits|
  {
    seq(3 * |bits|, k requires 0 <= k < 3 * |bits| => CopyStep(id, bits[k / 3], dests[k / 3], k % 3))
  }

  /** Commit the container as `image`, with the node entrypoint put back. */
  function CommitStep(id: string, image: string): Step
  {
    Step(Host, Commit(id, image), [])
  }

  /** Everything `buildImage` runs once the container exists: directories, files, commit. */
  function ImagePlan(id: string, bits: seq<string>, dests: seq<string>, image: string): (r: seq<Step>)
    requires |dests| == |bits|
    ensures |r| == 3 + 3 * |bits| + 1
  {
    SetupPlan(id) + InstallPlan(id, bits, dests) + [CommitStep(id, image)]
  }

  /** File `i`'s three steps in the whole container plan, which starts with the container's creation. */
  lemma ContainerPlanAt(baseImage: string, arch: string, id: string, bits: seq<string>, dests: seq<string>,
                        image: string, i: nat)
    requires |dests| == |bits| && i < |bits|
    ensures var plan := [CreateContainerStep(baseImage, id, arch)] + ImagePlan(id, bits, dests, image);
      && 6 + 3 * i < |plan|
      && plan[4 + 3 * i] == Step(Host, CopyIn(bits[i], id, dests[i]), [])
      && plan[5 + 3 * i] == Step(id, MakeExecutable(dests[i]), [])
      && plan[6 + 3 * i] == Step(id, ChownRoot(dests[i]), [])
  {
    var p := ImagePlan(id, bits, dests, image);
    var create := CreateContainerStep(baseImage, id, arch);
    ImagePlanAt(id, bits, dests, image, i);
    ConsIndex(create, p, 3 + 3 * i);
    ConsIndex(create, p, 4 + 3 * i);
    ConsIndex(create, p, 5 + 3 * i);
  }

  /** The container plan: the creation, the three directories, the files, and the commit last. */
  lemma ContainerPlanEnds(baseImage: string, arch: string, id: string, bits: seq<string>, dests: seq<string>,
                          image: string)
    requires |dests| == |bits|
    ensures var plan := [CreateContainerStep(baseImage, id, arch)] + ImagePlan(id, bits, dests, image);
      && |plan| == 5 + 3 * |bits|
      && plan[1] == Step(id, MakeDir(false, "/kubeedge/"), [])
      && plan[2] == Step(id, MakeDir(true, "/etc/kubeedge/config/"), [])
      && plan[3] == Step(id, MakeDir(true, CrdDir), [])
      && plan[4 + 3 * |bits|] == CommitStep(id, image)
  {
    var p := ImagePlan(id, bits, dests, image);
    var create := CreateContainerStep(baseImage, id, arch);
    ImagePlanEnds(id, bits, dests, image);
    assert p[0] == p[..3][0] && p[1] == p[..3][1] && p[2] == p[..3][2];
    ConsIndex(create, p, 0);
    ConsIndex(create, p, 1);
    ConsIndex(create, p, 2);
    ConsIndex(create, p, 3 + 3 * |bits|);
  }

  /**
   * What the step-by-step build relies on about its plan: step 0 creates
   * the container, steps 1 to 3 make the directories, file `i` takes steps
   * `4 + 3i` to `6 + 3i` with `dests[i]` as its place, and the commit is last.
   */
  predicate ContainerPlanShape(plan: seq<Step>, id: string, bits: seq<string>, dests: seq<string>, image: string)
  {
    && |dests| == |bits|
    && |plan| == 5 + 3 * |bits|
    && plan[1] == Step(id, MakeDir(false, "/kubeedge/"), [])
    && plan[2] == Step(id, MakeDir(true, "/etc/kubeedge/config/"), [])
    && plan[3] == Step(id, MakeDir(true, CrdDir), [])
    && (forall i :: 0 <= i < |bits| ==>
          && plan[4 + 3 * i] == Step(Host, CopyIn(bits[i], id, dests[i]), [])
          && plan[5 + 3 * i] == Step(id, MakeExecutable(dests[i]), [])
          && plan[6 + 3 * i] == Step(id, ChownRoot(dests[i]), []))
    && plan[4 + 3 * |bits|] == CommitStep(id, image)
  }

  lemma ContainerPlanHasShape(baseImage: string, arch: string, id: string, bits: seq<string>, dests: seq<string>,
                              image: string)
    requires |dests| == |bits|
    ensures ContainerPlanShape([CreateContainerStep(baseImage, id, arch)] + ImagePlan(id, bits, dests, image),
                               id, bits, dests, image)
  {
    ContainerPlanEnds(baseImage, arch, id, bits, dests, image);
    forall i | 0 <= i < |bits|
      ensures var plan := [CreateContainerStep(baseImage, id, arch)] + ImagePlan(id, bits, dests, image);
        && plan[4 + 3 * i] == Step(Host, CopyIn(bits[i], id, dests[i]), [])
        && plan[5 + 3 * i] == Step(id, MakeExecutable(dests[i]), [])
        && plan[6 + 3 * i] == Step(id, ChownRoot(dests[i]), [])
    {
      ContainerPlanAt(baseImage, arch, id, bits, dests, image, i);
    }
  }

  /** Index `j + 1` of `[x] + s` is `s[j]`. */
  lemma ConsIndex<T>(x: T, s: seq<T>, j: nat)
    requires j < |s|
    ensures ([x] + s)[j + 1] == s[j]
  {
  }

  /** The whole plan of a build in container `id`: its creation, then the image plan with every file at its destination. */
  function BuildPlan(baseImage: string, arch: string, image: string, id: string, bits: seq<string>): seq<Step>
  {
    [CreateContainerStep(baseImage, id, arch)] + ImagePlan(id, bits, Destinations(bits), image)
  }

  /**
   * `createBuildContainer` and `buildImage`: pull the base image (whatever
   * the pull returns), start the build container, run the image plan up to
   * the first failure, and remove the container in any case when its name is
   * not empty.
   */
  function BuildImageSpec(o: Oracle, h: seq<Issued>, baseImage: string, arch: string, image: string,
                          id: string, bits: seq<string>): Outcome
  {
    var pulled := h + [Issued(Host, PullImage(baseImage, DockerBuildOsAndArch(arch)))];
    var run := RunPlan(o, pulled, BuildPlan(baseImage, arch, image, id, bits));
    Outcome(if id != "" then run.trace + [Issued(Host, RemoveContainer(id))] else run.trace, run.status)
  }

  /** File `i` is copied to `dests[i]`, made executable and given to root at steps 3 + 3i .. 5 + 3i of the image plan. */
  lemma ImagePlanAt(id: string, bits: seq<string>, dests: seq<string>, image: string, i: nat)
    requires |dests| == |bits| && i < |bits|
    ensures var p := ImagePlan(id, bits, dests, image);
      && p[3 + 3 * i] == Step(Host, CopyIn(bits[i], id, dests[i]), [])
      && p[4 + 3 * i] == Step(id, MakeExecutable(dests[i]), [])
      && p[5 + 3 * i] == Step(id, ChownRoot(dests[i]), [])
  {
    var install := InstallPlan(id, bits, dests);
    var p := ImagePlan(id, bits, dests, image);
    var k := 3 * i;
    ThirdsOf(i);
    assert install[k] == CopyStep(id, bits[i], dests[i], 0);
    assert install[k + 1] == CopyStep(id, bits[i], dests[i], 1);
    assert install[k + 2] == CopyStep(id, bits[i], dests[i], 2);
    var setup, commit := SetupPlan(id), [CommitStep(id, image)];
    assert p == setup + install + commit && |setup| == 3;
    MiddleIndex(setup, install, commit, k);
    MiddleIndex(setup, install, commit, k + 1);
    MiddleIndex(setup, install, commit, k + 2);
  }

  /** Index `|a| + j` of `a + b + c` is `b[j]`. */
  lemma MiddleIndex<T>(a: seq<T>, b: seq<T>, c: seq<T>, j: nat)
    requires j < |b|
    ensures (a + b + c)[|a| + j] == b[j]
  {
  }

  /** Index `3i + j` of the install plan is step `j` of file `i`. */
  lemma ThirdsOf(i: nat)
    ensures (3 * i) / 3 == i && (3 * i) % 3 == 0
    ensures (3 * i + 1) / 3 == i && (3 * i + 1) % 3 == 1
    ensures (3 * i + 2) / 3 == i && (3 * i + 2) % 3 == 2
  {
  }

  /** The image plan starts with the three directories and ends with the commit. */
  lemma ImagePlanEnds(id: string, bits: seq<string>, dests: seq<string>, image: string)
    requires |dests| == |bits|
    ensures var p := ImagePlan(id, bits, dests, image);
      && p[..3] == SetupPlan(id)
      && p[3 + 3 * |bits|] == CommitStep(id, image)
  {
    var p := ImagePlan(id, bits, dests, image);
    assert p == SetupPlan(id) + InstallPlan(id, bits, dests) + [CommitStep(id, image)];
  }

  /**
   * Whatever the replies: the pull comes first, the container is created
   * next, and the last command removes the container (whose name is never
   * empty); the build succeeds iff every step of the image plan does, and
   * then every step was issued in order ending with the commit.
   */
  lemma BuildImageShape(o: Oracle, h: seq<Issued>, baseImage: string, arch: string, image: string,
                        unixTime: int, random: nat, bits: seq<string>)
    ensures var id := BuildContainerName(unixTime, random);
      var r := BuildImageSpec(o, h, baseImage, arch, image, id, bits);
      var plan := BuildPlan(baseImage, arch, image, id, bits);
      var pulled := h + [Issued(Host, PullImage(baseImage, DockerBuildOsAndArch(arch)))];
      && |h| + 3 <= |r.trace|
      && r.trace[..|h| + 2] == pulled + [Cmd(plan[0])]
      && r.trace[|r.trace| - 1] == Issued(Host, RemoveContainer(id))
      && (r.status.Ok? <==> FirstFailure(o, pulled, CommandsOf(plan)) == |plan|)
      && (r.status.Ok? ==> r.trace == pulled + CommandsOf(plan) + [Issued(Host, RemoveContainer(id))])
      && (r.status.Ok? ==> r.trace[|r.trace| - 2] == Issued(Host, Commit(id, image)))
  {
    var id := BuildContainerName(unixTime, random);
    var plan := BuildPlan(baseImage, arch, image, id, bits);
    var pulled := h + [Issued(Host, PullImage(baseImage, DockerBuildOsAndArch(arch)))];
    var run := RunPlan(o, pulled, plan);
    assert id != "";
    RunPlanAbortsAtFirstFailure(o, pulled, plan);
    var n := FirstFailure(o, pulled, CommandsOf(plan));
    if n == |plan| {
      assert run.trace == pulled + CommandsOf(plan);
    } else {
      assert run.trace == pulled + CommandsOf(plan)[..n + 1];
    }
    assert run.trace[..|h| + 2] == pulled + [Cmd(plan[0])];
  }

  /** The copy of file `i` is command `|pulled| + 4 + 3i` of a full run followed by the removal. */
  lemma CopyIssuedAt(pulled: seq<Issued>, baseImage: string, arch: string, id: string, bits: seq<string>,
                     dests: seq<string>, image: string, i: nat)
    requires |dests| == |bits| && i < |bits|
    ensures var plan := [CreateContainerStep(baseImage, id, arch)] + ImagePlan(id, bits, dests, image);
      var t := pulled + CommandsOf(plan) + [Issued(Host, RemoveContainer(id))];
      |pulled| + 4 + 3 * i < |t| && t[|pulled| + 4 + 3 * i] == Issued(Host, CopyIn(bits[i], id, dests[i]))
  {
    var plan := [CreateContainerStep(baseImage, id, arch)] + ImagePlan(id, bits, dests, image);
    var cmds := CommandsOf(plan);
    ContainerPlanAt(baseImage, arch, id, bits, dests, image, i);
    assert cmds[4 + 3 * i] == Cmd(plan[4 + 3 * i]);
    MiddleIndex(pulled, cmds, [Issued(Host, RemoveContainer(id))], 4 + 3 * i);
  }

  /** A successful build issued a copy of every built file to its destination, in the container it built in. */
  lemma BuildImageCopiesEveryFile(o: Oracle, h: seq<Issued>, baseImage: string, arch: string, image: string,
                                  unixTime: int, random: nat, bits: seq<string>)
    ensures var id := BuildContainerName(unixTime, random);
      var r := BuildImageSpec(o, h, baseImage, arch, image, id, bits);
      r.status.Ok? ==> forall i :: 0 <= i < |bits| ==> Issued(Host, CopyIn(bits[i], id, Destination(bits[i]))) in r.trace
  {
    var id := BuildContainerName(unixTime, random);
    var r := BuildImageSpec(o, h, baseImage, arch, image, id, bits);
    var dests := Destinations(bits);
    var plan := BuildPlan(baseImage, arch, image, id, bits);
    var pulled := h + [Issued(Host, PullImage(baseImage, DockerBuildOsAndArch(arch)))];
    if r.status.Ok? {
      RunPlanOk(o, pulled, plan);
      assert id != "";
      assert r.trace == pulled + CommandsOf(plan) + [Issued(Host, RemoveContainer(id))];
      forall i | 0 <= i < |bits|
        ensures Issued(Host, CopyIn(bits[i], id, Destination(bits[i]))) in r.trace
      {
        CopyIssuedAt(pulled, baseImage, arch, id, bits, dests, image, i);
        assert dests[i] == Destination(bits[i]);
      }
    }
  }

  /** Every copy in a container plan goes to one of `dests`: the plan copies nothing anywhere else. */
  lemma ContainerPlanCopiesOnlyTo(baseImage: string, arch: string, id: string, bits: seq<string>,
                                  dests: seq<string>, image: string)
    requires |dests| == |bits|
    ensures var plan := [CreateContainerStep(baseImage, id, arch)] + ImagePlan(id, bits, dests, image);
      forall k :: 0 <= k < |plan| ==> (plan[k].command.CopyIn? ==> plan[k].command.dest in dests)
  {
    var create := CreateContainerStep(baseImage, id, arch);
    var setup, install, commit := SetupPlan(id), InstallPlan(id, bits, dests), [CommitStep(id, image)];
    var plan := [create] + ImagePlan(id, bits, dests, image);
    assert plan == [create] + (setup + install + commit);
    forall k | 0 <= k < |plan|
      ensures plan[k].command.CopyIn? ==> plan[k].command.dest in dests
    {
      if k == 0 {
        assert plan[k] == create;
      } else if k < 4 {
        ConsIndex(create, setup + install + commit, k - 1);
        assert plan[k] == setup[k - 1];
      } else if k < 4 + 3 * |bits| {
        var j := k - 4;
        ConsIndex(create, setup + install + commit, k - 1);
        MiddleIndex(setup, install, commit, j);
        assert plan[k] == CopyStep(id, bits[j / 3], dests[j / 3], j % 3);
      } else {
        assert plan[k] == CommitStep(id, image);
      }
    }
  }

  /** Whatever the replies, every copy an image build issues goes to the destination of one of its files. */
  lemma BuildImageCopiesOnlyTo(o: Oracle, h: seq<Issued>, baseImage: string, arch: string, image: string,
                               id: string, bits: seq<string>)
    ensures var r := BuildImageSpec(o, h, baseImage, arch, image, id, bits);
      && |h| <= |r.trace| && r.trace[..|h|] == h
      && forall x :: x in r.trace[|h|..] ==> (x.command.CopyIn? ==> x.command.dest in Destinations(bits))
  {
    var r := BuildImageSpec(o, h, baseImage, arch, image, id, bits);
    var dests := Destinations(bits);
    var plan := BuildPlan(baseImage, arch, image, id, bits);
    var pull := Issued(Host, PullImage(baseImage, DockerBuildOsAndArch(arch)));
    var pulled := h + [pull];
    var run := RunPlan(o, pulled, plan);
    RunPlanExtends(o, pulled, plan);
    var ran := CommandsOf(plan)[..|run.trace| - |pulled|];
    var tail := if id != "" then [Issued(Host, RemoveContainer(id))] else [];
    assert r.trace == h + ([pull] + ran + tail);
    assert r.trace[|h|..] == [pull] + ran + tail;
    ContainerPlanCopiesOnlyTo(baseImage, arch, id, bits, dests, image);
    forall x | x in r.trace[|h|..]
      ensures x.command.CopyIn? ==> x.command.dest in dests
    {
      if x in ran {
        var k :| 0 <= k < |ran| && ran[k] == x;
        assert x == Cmd(plan[k]);
      }
    }
  }
}
