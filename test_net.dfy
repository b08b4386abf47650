/** Argument checks, default output directory and dataset selection of the
    `__main__` block of tools/test_net.py. The global `cfg` is an explicit
    record passed in and returned. */
module TestNet {
  import opened Results

  /** The parsed command line, as far as these checks read it. */
  datatype Args = Args(
    dataset: Option<string>,
    loadCkpt: Option<string>,
    loadDetectron: Option<string>,
    outputDir: Option<string>,
    multiGpuTesting: bool)

  /** The fields of `cfg` that the dataset selection reads or writes:
      `TEST.DATASETS`, `MODEL.NUM_CLASSES`, `PIXEL_MEANS`,
      `TEST.FORCE_JSON_DATASET_EVAL`. */
  datatype TestConfig = TestConfig(
    testDatasets: seq<string>,
    numClasses: int,
    pixelMeans: seq<real>,
    forceJsonDatasetEval: bool)

  /** The exceptions the block raises before inference starts. */
  datatype TestNetError =
    | DeviceModeAssertion        // the device-count / multi-GPU assertion
    | CheckpointFlagAssertion    // exactly one of --load_ckpt and --load_detectron
    | UnknownDataset(name: string)  // ValueError for an unrecognised --dataset
    | EmptyDatasetsAssertion     // no --dataset and an empty TEST.DATASETS
    | DatasetNotIterable         // TypeError: the substring test applied to None

  /** What the block has settled when it reaches inference. */
  datatype TestRun = TestRun(outputDir: string, outputDirAutomaticallySet: bool, cfg: TestConfig)

  /** Python truthiness of an optional string argument: set and non-empty. */
  predicate Truthy(s: Option<string>) {
    s.Some? && s.value != ""
  }

  // ---------------------------------------------------------------------------
  // posixpath.dirname and posixpath.join

  /** `p.rfind('/') + 1`: the index just after the last '/', or 0. */
  function AfterLastSlash(p: string): (i: nat)
    ensures i <= |p|
    ensures i > 0 ==> p[i - 1] == '/'
    ensures '/' !in p[i..]
  {
    if |p| == 0 then 0
    else if p[|p| - 1] == '/' then |p|
    else
      var i := AfterLastSlash(p[..|p| - 1]);
      assert p[i..] == p[..|p| - 1][i..] + [p[|p| - 1]];
      i
  }

  predicate AllSlashes(s: string) {
    forall k :: 0 <= k < |s| ==> s[k] == '/'
  }

  /** `s.rstrip('/')`. */
  function RStripSlashes(s: string): (r: string)
    ensures r <= s && AllSlashes(s[|r|..])
    ensures r == "" || r[|r| - 1] != '/'
  {
    if |s| > 0 && s[|s| - 1] == '/' then
      var r := RStripSlashes(s[..|s| - 1]);
      assert s[|r|..] == s[..|s| - 1][|r|..] + ['/'];
      r
    else s
  }

  /** `os.path.dirname(p)`: everything up to the last '/', with trailing slashes
      removed unless nothing but slashes is left. */
  function Dirname(p: string): string {
    var head := p[..AfterLastSlash(p)];
    if head != "" && !AllSlashes(head) then RStripSlashes(head) else head
  }

  /** `os.path.join(a, b)` with two parts. */
  function PathJoin(a: string, b: string): string {
    if |b| > 0 && b[0] == '/' then b
    else if a == "" || a[|a| - 1] == '/' then a + b
    else a + "/" + b
  }

  /** Lines 78-79: `join(dirname(dirname(ckpt_path)), 'test')`. */
  function DefaultOutputDir(checkpointPath: string): string {
    PathJoin(Dirname(Dirname(checkpointPath)), "test")
  }

  // A path as a list of segments, the reference the string functions are
  // checked against.

  predicate IsSegment(s: string) {
    s != "" && '/' !in s
  }

  /** `'/'.join(segments)`. */
  function JoinSegments(segments: seq<string>): string {
    if |segments| == 0 then ""
    else if |segments| == 1 then segments[0]
    else JoinSegments(segments[..|segments| - 1]) + "/" + segments[|segments| - 1]
  }

  function DropLast(segments: seq<string>): seq<string> {
    if |segments| == 0 then [] else segments[..|segments| - 1]
  }

  /** A path of one or more segments is non-empty and ends in a non-slash. */
  lemma {:induction false} JoinSegmentsEnd(segments: seq<string>)
    requires |segments| > 0 && forall k :: 0 <= k < |segments| ==> IsSegment(segments[k])
    ensures var p := JoinSegments(segments); p != "" && p[|p| - 1] != '/'
  {
    var last := segments[|segments| - 1];
    assert IsSegment(last);
    assert last[|last| - 1] in last;
  }

  /** The conditions that pin down `p.rfind('/') + 1`. */
  lemma AfterLastSlashIs(p: string, i: nat)
    requires i <= |p| && (i > 0 ==> p[i - 1] == '/') && '/' !in p[i..]
    ensures AfterLastSlash(p) == i
  {
  }

  /** `dirname` of a bare root is the root itself. */
  lemma DirnameOfRoot(root: string)
    requires root == "" || root == "/"
    ensures Dirname(root) == root
  {
    AfterLastSlashIs(root, |root|);
  }

  /** `dirname` of a single segment under a root is the root. */
  lemma DirnameOfRootSegment(root: string, segment: string)
    requires root == "" || root == "/"
    requires IsSegment(segment)
    ensures Dirname(root + segment) == root
  {
    var p := root + segment;
    assert p[|root|..] == segment;
    AfterLastSlashIs(p, |root|);
    assert p[..|root|] == root;
  }

  /** `dirname` of `front/last` is `front` when `front` does not end in '/'. */
  lemma DirnameOfJoined(front: string, last: string)
    requires front != "" && front[|front| - 1] != '/'
    requires '/' !in last
    ensures Dirname(front + "/" + last) == front
  {
    var p := front + "/" + last;
    assert p[|front| + 1..] == last;
    AfterLastSlashIs(p, |front| + 1);
    var head := p[..|front| + 1];
    assert head == front + "/";
    assert head[|front| - 1] != '/';
    assert head[..|head| - 1] == front;
  }

  /** `dirname` removes the last segment of a relative or absolute path; the
      root of an absolute path stays. */
  lemma DirnameDropsLastSegment(root: string, segments: seq<string>)
    requires root == "" || root == "/"
    requires forall k :: 0 <= k < |segments| ==> IsSegment(segments[k])
    ensures Dirname(root + JoinSegments(segments)) == root + JoinSegments(DropLast(segments))
  {
    if |segments| == 0 {
      assert root + JoinSegments(segments) == root;
      DirnameOfRoot(root);
    } else if |segments| == 1 {
      DirnameOfRootSegment(root, segments[0]);
    } else {
      DirnameDropsLastOfMany(root, segments);
    }
  }

  /** The case of two or more segments: the root, then `init/last`. */
  lemma DirnameDropsLastOfMany(root: string, segments: seq<string>)
    requires root == "" || root == "/"
    requires |segments| >= 2
    requires forall k :: 0 <= k < |segments| ==> IsSegment(segments[k])
    ensures Dirname(root + JoinSegments(segments)) == root + JoinSegments(segments[..|segments| - 1])
  {
    var init := segments[..|segments| - 1];
    assert forall k :: 0 <= k < |init| ==> init[k] == segments[k];
    JoinSegmentsEnd(init);
    DirnameUnderRoot(root, JoinSegments(init), segments[|segments| - 1]);
  }

  lemma DirnameUnderRoot(root: string, joined: string, last: string)
    requires joined != "" && joined[|joined| - 1] != '/'
    requires IsSegment(last)
    ensures Dirname(root + (joined + "/" + last)) == root + joined
  {
    var front := root + joined;
    assert front[|front| - 1] == joined[|joined| - 1];
    assert root + (joined + "/" + last) == front + "/" + last;
    DirnameOfJoined(front, last);
  }

  /** Appending a segment to a list appends `/segment` to its path. */
  lemma JoinSegmentsSnoc(segments: seq<string>, last: string)
    ensures JoinSegments(segments + [last]) == if |segments| == 0 then last else JoinSegments(segments) + "/" + last
  {
    var longer := segments + [last];
    assert longer[..|longer| - 1] == segments;
  }

  /** `join(path, 'test')` appends `test` as one more segment. */
  lemma PathJoinAppendsSegment(root: string, segments: seq<string>)
    requires root == "" || root == "/"
    requires forall k :: 0 <= k < |segments| ==> IsSegment(segments[k])
    ensures PathJoin(root + JoinSegments(segments), "test") == root + JoinSegments(segments + ["test"])
  {
    JoinSegmentsSnoc(segments, "test");
    if |segments| > 0 {
      JoinSegmentsEnd(segments);
      PathJoinUnderRoot(root, JoinSegments(segments));
    } else {
      PathJoinOfRoot(root);
    }
  }

  lemma PathJoinOfRoot(root: string)
    requires root == "" || root == "/"
    ensures PathJoin(root + JoinSegments([]), "test") == root + "test"
  {
    assert root + JoinSegments([]) == root;
  }

  lemma PathJoinUnderRoot(root: string, joined: string)
    requires joined != "" && joined[|joined| - 1] != '/'
    ensures PathJoin(root + joined, "test") == root + (joined + "/" + "test")
  {
    var front := root + joined;
    assert front[|front| - 1] == joined[|joined| - 1];
    assert front + "/" + "test" == root + (joined + "/" + "test");
  }

  /** The default output directory is the checkpoint's path with its last two
      segments replaced by `test`. */
  lemma DefaultOutputDirOfSegments(root: string, segments: seq<string>)
    requires root == "" || root == "/"
    requires forall k :: 0 <= k < |segments| ==> IsSegment(segments[k])
    ensures DefaultOutputDir(root + JoinSegments(segments))
            == root + JoinSegments(DropLast(DropLast(segments)) + ["test"])
  {
    var parent := DropLast(segments);
    assert forall k :: 0 <= k < |parent| ==> parent[k] == segments[k];
    var grandparent := DropLast(parent);
    assert forall k :: 0 <= k < |grandparent| ==> grandparent[k] == parent[k];
    DirnameDropsLastSegment(root, segments);
    DirnameDropsLastSegment(root, parent);
    PathJoinAppendsSegment(root, grandparent);
  }

  // ---------------------------------------------------------------------------
  // The block itself

  /** Line 77: `load_ckpt` if it is truthy, else `load_detectron`. */
  function CheckpointPath(args: Args): string
    requires Truthy(args.loadCkpt) || Truthy(args.loadDetectron)
  {
    if Truthy(args.loadCkpt) then args.loadCkpt.value else args.loadDetectron.value
  }

  /** The recognised `--dataset` names and the `TEST.DATASETS` each selects. */
  const TEST_DATASETS: map<string, seq<string>> := map[
    "coco2017" := ["coco_2017_val"],
    "keypoints_coco2017" := ["keypoints_coco_2017_val"],
    "coco_2017_objectness" := ["coco_2017_val_objectness"],
    "flyingthings" := ["flyingthings3d_test"],
    "flyingthings_train" := ["flyingthings3d_train"],
    "flyingthings_estimatedflow" := ["flyingthings3d_estimatedflow_test"],
    "flyingthings_estimatedflow_train" := ["flyingthings3d_estimatedflow_train"],
    "fbms_flow" := ["fbms_flow_test"],
    "fbms_flow_train" := ["fbms_flow_train"],
    "davis_flow_moving" := ["davis_flow_moving_test"],
    "davis_flow_moving_train" := ["davis_flow_moving_train"]]

  /** Lines 118-145: the if/elif chain on `--dataset`. */
  function SelectDataset(cfg: TestConfig, dataset: Option<string>): Result<TestConfig, TestNetError> {
    match dataset
    case None =>
      if |cfg.testDatasets| == 0 then Err(EmptyDatasetsAssertion) else Ok(cfg)
    case Some(name) =>
      if name == "coco2017" then Ok(cfg.(testDatasets := ["coco_2017_val"], numClasses := 81))
      else if name == "keypoints_coco2017" then Ok(cfg.(testDatasets := ["keypoints_coco_2017_val"]))
      else if name == "coco_2017_objectness" then Ok(cfg.(testDatasets := ["coco_2017_val_objectness"], numClasses := 2))
      else if name == "flyingthings" then Ok(cfg.(testDatasets := ["flyingthings3d_test"]))
      else if name == "flyingthings_train" then Ok(cfg.(testDatasets := ["flyingthings3d_train"]))
      else if name == "flyingthings_estimatedflow" then Ok(cfg.(testDatasets := ["flyingthings3d_estimatedflow_test"]))
      else if name == "flyingthings_estimatedflow_train" then Ok(cfg.(testDatasets := ["flyingthings3d_estimatedflow_train"]))
      else if name == "fbms_flow" then Ok(cfg.(testDatasets := ["fbms_flow_test"]))
      else if name == "fbms_flow_train" then Ok(cfg.(testDatasets := ["fbms_flow_train"]))
      else if name == "davis_flow_moving" then Ok(cfg.(testDatasets := ["davis_flow_moving_test"]))
      else if name == "davis_flow_moving_train" then Ok(cfg.(testDatasets := ["davis_flow_moving_train"]))
      else Err(UnknownDataset(name))
  }

  /** `sub` occurs in `s` starting at index `i`. */
  predicate OccursAt(s: string, sub: string, i: int) {
    0 <= i <= |s| - |sub| && s[i..i + |sub|] == sub
  }

  /** Python's `sub in s` on strings. */
  predicate Contains(s: string, sub: string) {
    exists i :: 0 <= i <= |s| - |sub| && OccursAt(s, sub, i)
  }

  /** A string containing `sub` contains its first character. */
  lemma ContainsFirstChar(s: string, sub: string)
    requires sub != [] && Contains(s, sub)
    ensures sub[0] in s
  {
    var i :| 0 <= i <= |s| - |sub| && OccursAt(s, sub, i);
    assert s[i] == s[i..i + |sub|][0];
  }

  /** Line 147: the name mentions one of the moving-object datasets. */
  predicate IsMovingObjectDataset(name: string) {
    Contains(name, "flyingthings") || Contains(name, "fbms") || Contains(name, "davis")
  }

  /** `np.array([[[0, 0, 0]]])`, flattened. */
  const ZERO_PIXEL_MEANS: seq<real> := [0.0, 0.0, 0.0]

  /** Lines 147-150: the moving-object override; on `None` the substring test raises. */
  function ApplyMovingObjectOverride(cfg: TestConfig, dataset: Option<string>): Result<TestConfig, TestNetError> {
    match dataset
    case None => Err(DatasetNotIterable)
    case Some(name) =>
      if IsMovingObjectDataset(name) then
        Ok(cfg.(pixelMeans := ZERO_PIXEL_MEANS, numClasses := 2, forceJsonDatasetEval := true))
      else Ok(cfg)
  }

  /** Lines 118-150. */
  function ResolveDatasetConfig(cfg: TestConfig, dataset: Option<string>): Result<TestConfig, TestNetError> {
    match SelectDataset(cfg, dataset)
    case Err(e) => Err(e)
    case Ok(selected) => ApplyMovingObjectOverride(selected, dataset)
  }

  /** Lines 71-80 and 118-150, in the order the script runs them; `cfg` is the
      configuration after the config file and `--set` were merged. */
  function ResolveTestRun(deviceCount: nat, args: Args, cfg: TestConfig): Result<TestRun, TestNetError> {
    if (deviceCount == 1) == args.multiGpuTesting then Err(DeviceModeAssertion)
    else if Truthy(args.loadCkpt) == Truthy(args.loadDetectron) then Err(CheckpointFlagAssertion)
    else
      var outputDir := if args.outputDir.None? then DefaultOutputDir(CheckpointPath(args)) else args.outputDir.value;
      match ResolveDatasetConfig(cfg, args.dataset)
      case Err(e) => Err(e)
      case Ok(resolved) => Ok(TestRun(outputDir, args.outputDir.None?, resolved))
  }

  // ---------------------------------------------------------------------------
  // Properties

  /** The if/elif chain agrees with the table: a name is accepted exactly when
      it is in the table, with the dataset tuple listed for it; any other name
      raises `ValueError`. */
  lemma SelectDatasetMatchesTable(cfg: TestConfig, name: string)
    ensures SelectDataset(cfg, Some(name)).Ok? <==> name in TEST_DATASETS
    ensures name in TEST_DATASETS ==> SelectDataset(cfg, Some(name)).value.testDatasets == TEST_DATASETS[name]
    ensures name !in TEST_DATASETS ==> SelectDataset(cfg, Some(name)) == Err(UnknownDataset(name))
  {
  }

  /** Which of the recognised names take the moving-object override: all but the three COCO ones. */
  lemma MovingObjectNames(name: string)
    requires name in TEST_DATASETS
    ensures IsMovingObjectDataset(name) <==> name !in {"coco2017", "keypoints_coco2017", "coco_2017_objectness"}
  {
    if name in {"coco2017", "keypoints_coco2017", "coco_2017_objectness"} {
      if Contains(name, "flyingthings") { ContainsFirstChar(name, "flyingthings"); }
      if Contains(name, "fbms") { ContainsFirstChar(name, "fbms"); }
      if Contains(name, "davis") { ContainsFirstChar(name, "davis"); }
    } else if name[..4] == "fbms" {
      assert OccursAt(name, "fbms", 0);
    } else if name[..5] == "davis" {
      assert OccursAt(name, "davis", 0);
    } else {
      assert OccursAt(name, "flyingthings", 0);
    }
  }

  /** Lines 118-150 for a named dataset: an unknown name raises `ValueError`; a
      known one selects its tuple, and the moving-object names then force two
      classes, zero pixel means and JSON evaluation, overriding the chain. */
  lemma DatasetResolution(cfg: TestConfig, name: string)
    ensures name !in TEST_DATASETS ==> ResolveDatasetConfig(cfg, Some(name)) == Err(UnknownDataset(name))
    ensures name in TEST_DATASETS ==>
      var moving := name !in {"coco2017", "keypoints_coco2017", "coco_2017_objectness"};
      ResolveDatasetConfig(cfg, Some(name)) == Ok(TestConfig(
        TEST_DATASETS[name],
        if moving || name == "coco_2017_objectness" then 2
        else if name == "coco2017" then 81
        else cfg.numClasses,
        if moving then ZERO_PIXEL_MEANS else cfg.pixelMeans,
        moving || cfg.forceJsonDatasetEval))
  {
    SelectDatasetMatchesTable(cfg, name);
    if name in TEST_DATASETS {
      MovingObjectNames(name);
    }
  }

  /** Without `--dataset` the block never succeeds: the assertion fails on an
      empty `TEST.DATASETS`, and otherwise the substring test raises on `None`. */
  lemma NoDatasetFails(cfg: TestConfig)
    ensures ResolveDatasetConfig(cfg, None)
            == Err(if |cfg.testDatasets| == 0 then EmptyDatasetsAssertion else DatasetNotIterable)
  {
  }

  /** The block gets past its checks exactly when one of "single device" and
      "multi-GPU flag" holds, exactly one checkpoint flag is given and the
      dataset resolves; the output directory is then the given one, or is
      derived from the preferred checkpoint path and flagged as automatic. */
  lemma TestRunChecks(deviceCount: nat, args: Args, cfg: TestConfig)
    ensures ResolveTestRun(deviceCount, args, cfg).Ok? <==>
      && ((deviceCount == 1) != args.multiGpuTesting)
      && (Truthy(args.loadCkpt) != Truthy(args.loadDetectron))
      && ResolveDatasetConfig(cfg, args.dataset).Ok?
    ensures (deviceCount == 1) == args.multiGpuTesting ==>
      ResolveTestRun(deviceCount, args, cfg) == Err(DeviceModeAssertion)
    ensures (deviceCount == 1) != args.multiGpuTesting && Truthy(args.loadCkpt) == Truthy(args.loadDetectron) ==>
      ResolveTestRun(deviceCount, args, cfg) == Err(CheckpointFlagAssertion)
    ensures ResolveTestRun(deviceCount, args, cfg).Ok? ==>
      var run := ResolveTestRun(deviceCount, args, cfg).value;
      && run.cfg == ResolveDatasetConfig(cfg, args.dataset).value
      && run.outputDirAutomaticallySet == args.outputDir.None?
      && run.outputDir == if args.outputDir.Some? then args.outputDir.value
                          else DefaultOutputDir(if Truthy(args.loadCkpt) then args.loadCkpt.value
                                                else args.loadDetectron.value)
  {
  }

  /** With no `--output_dir` and a checkpoint at `root/s1/.../sn`, the results
      go to `root/s1/.../s(n-2)/test`: next to the checkpoint's folder
      `s(n-1)`. */
  lemma AutomaticOutputDir(deviceCount: nat, args: Args, cfg: TestConfig, root: string, segments: seq<string>)
    requires ResolveTestRun(deviceCount, args, cfg).Ok? && args.outputDir.None?
    requires root == "" || root == "/"
    requires forall k :: 0 <= k < |segments| ==> IsSegment(segments[k])
    requires root + JoinSegments(segments) == CheckpointPath(args)
    ensures ResolveTestRun(deviceCount, args, cfg).value.outputDirAutomaticallySet
    ensures ResolveTestRun(deviceCount, args, cfg).value.outputDir
            == root + JoinSegments(DropLast(DropLast(segments)) + ["test"])
  {
    assert ResolveTestRun(deviceCount, args, cfg).value.outputDir == DefaultOutputDir(CheckpointPath(args));
    DefaultOutputDirOfSegments(root, segments);
  }
}
