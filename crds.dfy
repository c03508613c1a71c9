/**
 * The CRD manifests the edge image carries against the ones the bootstrap
 * creates: the bootstrap reads each CRD from the image's CRD directory, so
 * each must have been installed there by the image build.
 */
module ImageCrds {
  import opened Paths
  import opened Commands
  import opened Errors
  import opened Exec
  import opened EdgeImagePlans
  import opened KubeEdgePlans
  import opened EdgeImage

  /**
   * The builder's list with the device CRDs the bootstrap creates (`v1beta1`)
   * in place of the `v1alpha2` ones; every other name is unchanged.
   */
  const BuiltNamesCorrected: seq<string> := [
    "keadm", "cloudcore", "edgecore",
    "devices_v1beta1_device.yaml", "devices_v1beta1_devicemodel.yaml",
    "cluster_objectsync_v1alpha1.yaml", "objectsync_v1alpha1.yaml",
    "router_v1_rule.yaml", "router_v1_ruleEndpoint.yaml",
    "edgecore.service", "cloudcore.service"
  ]

  /** The files a corrected builder returns, from the same directories as the builder's own. */
  function KubeEdgeBitsCorrected(kubeEdgeRoot: string, workDir: string): (r: seq<string>)
    ensures |r| == |BuiltNamesCorrected|
  {
    var dirs := BuilderDirs(kubeEdgeRoot, workDir);
    seq(|BuiltNamesCorrected|, i requires 0 <= i < |BuiltNamesCorrected| => Under(dirs[i], BuiltNamesCorrected[i]))
  }

  /** The correction touches the two device CRDs only. */
  lemma CorrectionTouchesDeviceCrdsOnly(kubeEdgeRoot: string, workDir: string)
    ensures var bits, fixed := KubeEdgeBits(kubeEdgeRoot, workDir), KubeEdgeBitsCorrected(kubeEdgeRoot, workDir);
      && |bits| == |fixed|
      && bits[3] != fixed[3] && bits[4] != fixed[4]
      && forall i :: 0 <= i < |bits| && i != 3 && i != 4 ==> bits[i] == fixed[i]
  {
    var bits, fixed := KubeEdgeBits(kubeEdgeRoot, workDir), KubeEdgeBitsCorrected(kubeEdgeRoot, workDir);
    var dirs := BuilderDirs(kubeEdgeRoot, workDir);
    assert BuiltNames[3] != BuiltNamesCorrected[3];
    assert BuiltNames[4] != BuiltNamesCorrected[4];
    assert bits[3] == (dirs[3] + "/") + BuiltNames[3] && fixed[3] == (dirs[3] + "/") + BuiltNamesCorrected[3];
    assert bits[4] == (dirs[4] + "/") + BuiltNames[4] && fixed[4] == (dirs[4] + "/") + BuiltNamesCorrected[4];
    SuffixDiffers(dirs[3] + "/", BuiltNames[3], BuiltNamesCorrected[3]);
    SuffixDiffers(dirs[4] + "/", BuiltNames[4], BuiltNamesCorrected[4]);
  }

  /** Two strings that differ after a common prefix differ. */
  lemma SuffixDiffers(p: string, a: string, b: string)
    requires a != b
    ensures p + a != p + b
  {
    assert (p + a)[|p|..] == a && (p + b)[|p|..] == b;
  }

  /** A file name without `/`: the last element of any path it ends. */
  predicate Element(name: string)
  {
    name != [] && '/' !in name
  }

  /** A file goes to the directory its name picks, under its own name, and nowhere its name does not end. */
  lemma InstalledUnderItsName(dir: string, name: string, target: string)
    requires Element(name) && Element(target)
    ensures Destination(Under(dir, name)) == DirFor(name) + name
    ensures Destination(Under(dir, name)) == CrdDir + target ==> name == target
  {
    assert forall i :: 0 <= i < |name| ==> name[i] in name;
    assert forall i :: 0 <= i < |target| ==> target[i] in target;
    DestinationOfJoin(dir + "/", name);
    BaseOfJoin(DirFor(name), name);
    BaseOfJoin(CrdDir, target);
  }

  /** Every name of the builder's list is one path element. */
  lemma BuiltNamesAreElements()
    ensures forall i :: 0 <= i < |BuiltNames| ==> Element(BuiltNames[i])
  {
  }

  /**
   * As written, no file of the image lands at the path the bootstrap's first
   * `kubectl create -f` reads (`/etc/kubeedge/crds/devices_v1beta1_device.yaml`).
   */
  lemma AsWrittenImageLacksDeviceCrd(kubeEdgeRoot: string, workDir: string)
    ensures var bits := KubeEdgeBits(kubeEdgeRoot, workDir);
      forall i :: 0 <= i < |bits| ==> Destination(bits[i]) != CrdDir + Crds[0]
  {
    var bits := KubeEdgeBits(kubeEdgeRoot, workDir);
    var dirs := BuilderDirs(kubeEdgeRoot, workDir);
    var target := Crds[0];
    BuiltNamesAreElements();
    assert Element(target);
    assert forall i :: 0 <= i < |BuiltNames| ==> BuiltNames[i] != target;
    forall i | 0 <= i < |bits|
      ensures Destination(bits[i]) != CrdDir + target
    {
      InstalledUnderItsName(dirs[i], BuiltNames[i], target);
    }
  }

  /**
   * As written, no build ever copies a file to that path: whatever the
   * replies, every copy the build issues goes to another destination.
   */
  lemma AsWrittenBuildNeverCopiesDeviceCrd(o: Oracle, h: seq<Issued>, s: Settings, findSource: Result<string>,
                                           compile: Builder -> Status, workDir: string, unixTime: int, random: nat)
    ensures var r := BuildSpec(o, h, s, findSource, compile, workDir, unixTime, random);
      && |h| <= |r.trace| && r.trace[..|h|] == h
      && forall x :: x in r.trace[|h|..] ==> (x.command.CopyIn? ==> x.command.dest != CrdDir + Crds[0])
  {
    var r := BuildSpec(o, h, s, findSource, compile, workDir, unixTime, random);
    if !(s.kubeEdgeRoot == "" && findSource.Failure?) {
      var root := if s.kubeEdgeRoot == "" then findSource.value else s.kubeEdgeRoot;
      if compile(Builder(root, s.arch)).Ok? {
        var bits := KubeEdgeBits(root, workDir);
        BuildImageCopiesOnlyTo(o, h, s.baseImage, s.arch, s.image, BuildContainerName(unixTime, random), bits);
        AsWrittenImageLacksDeviceCrd(root, workDir);
        var dests := Destinations(bits);
        assert forall i :: 0 <= i < |dests| ==> dests[i] != CrdDir + Crds[0];
        assert CrdDir + Crds[0] !in dests;
      }
    }
  }

  /** The bootstrap's CRDs without their `.yaml`. */
  const CrdStems: seq<string> := [
    "devices_v1beta1_device", "devices_v1beta1_devicemodel",
    "cluster_objectsync_v1alpha1", "objectsync_v1alpha1",
    "router_v1_rule", "router_v1_ruleEndpoint"
  ]

  /** The stems are plain names. */
  lemma CrdStemsArePlain()
    ensures |CrdStems| == |Crds|
    ensures forall j :: 0 <= j < |CrdStems| ==> PlainName(CrdStems[j])
  {
  }

  /** Each CRD is its stem with `.yaml`, listed at `3 + j` in the corrected list. */
  lemma CrdsAreManifests()
    ensures |CrdStems| == |Crds| && |BuiltNamesCorrected| == 3 + |Crds| + 2
    ensures forall j :: 0 <= j < |Crds| ==> Crds[j] == CrdStems[j] + ".yaml" == BuiltNamesCorrected[3 + j]
  {
  }

  /** CRD `j` of the bootstrap is file `3 + j` of the corrected list, and is installed where it is read from. */
  lemma CrdShipped(kubeEdgeRoot: string, workDir: string, j: nat)
    requires j < |Crds|
    ensures var bits := KubeEdgeBitsCorrected(kubeEdgeRoot, workDir);
      3 + j < |bits| && Destination(bits[3 + j]) == CrdDir + Crds[j]
  {
    var bits := KubeEdgeBitsCorrected(kubeEdgeRoot, workDir);
    var dir := BuilderDirs(kubeEdgeRoot, workDir)[3 + j] + "/";
    CrdStemsArePlain();
    CrdsAreManifests();
    var manifest := CrdStems[j] + ".yaml";
    assert bits[3 + j] == dir + manifest;
    ManifestsGoToCrdDir(dir, CrdStems[j]);
  }

  /**
   * With the corrected list, every CRD the bootstrap creates is installed at
   * the path it reads it from: CRD `j` by file `3 + j`.
   */
  lemma ImageShipsEveryCrd(kubeEdgeRoot: string, workDir: string)
    ensures var bits := KubeEdgeBitsCorrected(kubeEdgeRoot, workDir);
      && 3 + |Crds| <= |bits|
      && forall j :: 0 <= j < |Crds| ==> Destination(bits[3 + j]) == CrdDir + Crds[j]
  {
    forall j | 0 <= j < |Crds|
      ensures Destination(KubeEdgeBitsCorrected(kubeEdgeRoot, workDir)[3 + j]) == CrdDir + Crds[j]
    {
      CrdShipped(kubeEdgeRoot, workDir, j);
    }
  }

  /**
   * With the corrected list, a successful image build copies each CRD the
   * bootstrap creates into the container at the path the bootstrap reads it
   * from.
   */
  lemma BuiltImageHasEveryCrd(o: Oracle, h: seq<Issued>, baseImage: string, arch: string, image: string,
                              kubeEdgeRoot: string, workDir: string, unixTime: int, random: nat)
    ensures var id := BuildContainerName(unixTime, random);
      var bits := KubeEdgeBitsCorrected(kubeEdgeRoot, workDir);
      var r := BuildImageSpec(o, h, baseImage, arch, image, id, bits);
      r.status.Ok? ==> forall j :: 0 <= j < |Crds| ==> Issued(Host, CopyIn(bits[3 + j], id, CrdDir + Crds[j])) in r.trace
  {
    ImageShipsEveryCrd(kubeEdgeRoot, workDir);
    BuildImageCopiesEveryFile(o, h, baseImage, arch, image, unixTime, random, KubeEdgeBitsCorrected(kubeEdgeRoot, workDir));
  }
}
