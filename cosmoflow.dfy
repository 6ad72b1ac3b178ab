/** The data-reader builders and the argument rules of the CosmoFlow training
    script (applications/physics/cosmology/cosmoflow/train_cosmoflow.py).

    Protobuf `Reader` messages are records whose unset optional fields are
    None.  The dataset object of the Python reader, the model, the trainer and
    the launcher are outside the model; the values the script reads from them
    or from the hosting environment (`os.getenv`, the script's own directory,
    the distconv environment it starts from, the profiling arguments) are
    parameters. */
module Cosmoflow {
  import opened Base
  import opened Arith
  import opened Text
  import L = Launcher

  /** The exceptions the modelled code can raise. */
  datatype ScriptError =
    | ValueError         // unsupported synthetic width
    | ZeroDivisionError  // `512 // 0` or a division by zero depth groups
    | AttributeError     // `None.strip()`

  /** A `lbann.reader_pb2.Reader` message. */
  datatype Reader = Reader(
    name: string,
    role: string,
    shuffle: bool,
    validationFraction: real,
    absoluteSampleCount: int,
    fractionOfDataToUse: real,
    numSamples: Option<int>,
    synthDimensions: Option<string>,
    synthResponseDimensions: Option<string>,
    dataFilename: Option<string>,
    dataFilePattern: Option<string>,
    hdf5KeyData: Option<string>,
    hdf5KeyResponses: Option<string>,
    numResponses: Option<int>,
    disableLabels: Option<bool>,
    disableResponses: Option<bool>,
    scalingFactorInt16: Option<real>)

  /** A reader with the common fields set and every optional field unset. */
  function NewReader(name: string, role: string): Reader {
    Reader(name, role, role != "test", 0.0, 0, 1.0,
      None, None, None, None, None, None, None, None, None, None, None)
  }

  /** A dataset directory together with the role it is read for. */
  datatype RoleDir = RoleDir(role: string, dir: string)

  /** Python truthiness of an optional string argument. */
  predicate Truthy(s: Option<string>) {
    s.Some? && s.value != ""
  }

  /** The order roles are listed in by every builder. */
  function RoleRank(role: string): nat {
    if role == "train" then 0 else if role == "validate" then 1 else 2
  }

  /** Each reader's role ranks strictly after the previous one's: train,
      validate, test, each at most once. */
  predicate RolesOrdered(roles: seq<string>) {
    forall i, j :: 0 <= i < j < |roles| ==> RoleRank(roles[i]) < RoleRank(roles[j])
  }

  /** The roles of a builder that keeps train, validate and test as the
      three flags say, in that order. */
  function KeptRoles(train: bool, validate: bool, test: bool): seq<string> {
    (if train then ["train"] else []) + (if validate then ["validate"] else []) + (if test then ["test"] else [])
  }

  lemma KeptRolesOrdered(train: bool, validate: bool, test: bool)
    ensures var roles := KeptRoles(train, validate, test);
      RolesOrdered(roles) &&
      ("train" in roles <==> train) && ("validate" in roles <==> validate) && ("test" in roles <==> test)
  {
    var roles := KeptRoles(train, validate, test);
    assert |roles| <= 3;
    if train && validate && test {
      assert roles == ["train", "validate", "test"];
    }
  }

  function RolesOf(inputs: seq<RoleDir>): (r: seq<string>)
    ensures |r| == |inputs|
    ensures forall i :: 0 <= i < |inputs| ==> r[i] == inputs[i].role
  {
    seq(|inputs|, i requires 0 <= i < |inputs| => inputs[i].role)
  }

  // -----------------------------------------------------------------------
  // create_synthetic_data_reader
  // -----------------------------------------------------------------------

  const SyntheticRoles := ["train", "validate", "test"]

  /** Samples per role for the full 512^3 volume. */
  const BaseSamples: map<string, int> := map["train" := 8010, "validate" := 1001, "test" := 1001]

  function Cube(x: int): int {
    x * x * x
  }

  /** The guard of the synthetic reader. */
  predicate WidthRejected(w: int) {
    w > 512 || w % 2 != 0
  }

  /** `int((512 // w)**3)`. */
  function SampleFactor(w: int): int
    requires w != 0
  {
    Cube(FloorDiv(512, w))
  }

  /** `f'{n} {w} {w} {w}'`. */
  function SynthDimensions(n: int, w: int): string {
    IntToString(n) + " " + IntToString(w) + " " + IntToString(w) + " " + IntToString(w)
  }

  /** The synthetic reader for one role. */
  function SyntheticReader(role: string, w: int, n: int): Reader
    requires w != 0 && role in BaseSamples
  {
    NewReader("synthetic", role).(
      numSamples := Some(BaseSamples[role] * SampleFactor(w)),
      synthDimensions := Some(SynthDimensions(n, w)),
      synthResponseDimensions := Some(IntToString(n)))
  }

  /** What `create_synthetic_data_reader(w, n)` returns or raises. */
  function SyntheticReaders(w: int, n: int): Result<seq<Reader>, ScriptError> {
    if WidthRejected(w) then Failure(ValueError)
    else if w == 0 then Failure(ZeroDivisionError)
    else Success(seq(3, i requires 0 <= i < 3 => SyntheticReader(SyntheticRoles[i], w, n)))
  }

  /** `create_synthetic_data_reader`: the width guard, then one reader per
      role.  A width of zero passes the guard and divides by zero. */
  method CreateSyntheticDataReader(inputWidth: int, numResponses: int) returns (r: Result<seq<Reader>, ScriptError>)
    ensures r == SyntheticReaders(inputWidth, numResponses)
    ensures r.Failure? <==> WidthRejected(inputWidth) || inputWidth == 0
    ensures r.Failure? ==> (r.error == ValueError <==> WidthRejected(inputWidth))
    ensures r.Success? ==> |r.value| == 3 && RolesOrdered(seq(3, i requires 0 <= i < 3 => r.value[i].role))
    ensures r.Success? ==> forall i :: 0 <= i < 3 ==>
      r.value[i].role == SyntheticRoles[i] &&
      r.value[i].shuffle == (i != 2) &&
      r.value[i].numSamples == Some([8010, 1001, 1001][i] * Cube(FloorDiv(512, inputWidth)))
  {
    if inputWidth > 512 || inputWidth % 2 != 0 {
      return Failure(ValueError);
    }
    if inputWidth == 0 {
      return Failure(ZeroDivisionError);
    }
    var sampleFactor := Cube(FloorDiv(512, inputWidth));
    var numSamples := BaseSamples;
    var readers: seq<Reader> := [];
    for i := 0 to 3
      invariant |readers| == i
      invariant forall k :: 0 <= k < i ==> readers[k] == SyntheticReader(SyntheticRoles[k], inputWidth, numResponses)
    {
      var role := SyntheticRoles[i];
      var reader := NewReader("synthetic", role).(
        numSamples := Some(numSamples[role] * sampleFactor),
        synthDimensions := Some(SynthDimensions(numResponses, inputWidth)),
        synthResponseDimensions := Some(IntToString(numResponses)));
      readers := readers + [reader];
    }
    r := Success(readers);
    assert r.value == seq(3, i requires 0 <= i < 3 => SyntheticReader(SyntheticRoles[i], inputWidth, numResponses));
  }

  lemma CubeMonotone(a: int, b: int)
    requires 0 <= a < b
    ensures Cube(a) < Cube(b)
  {
    assert a * a <= b * b;
    assert a * a * a <= b * b * a;
    assert b * b * a < b * b * b;
  }

  lemma CubeProduct(a: int, b: int)
    ensures Cube(a) * Cube(b) == Cube(a * b)
  {
    assert a * a * a * (b * b * b) == (a * b) * (a * b) * (a * b);
  }

  /** The samples cover the whole 512^3 volume (factor times w^3 equals
      512^3) exactly when the accepted width divides 512; any other accepted
      width, such as 96, covers less. */
  lemma SampleFactorExact(w: int)
    requires 0 < w <= 512
    ensures SampleFactor(w) * Cube(w) <= Cube(512)
    ensures SampleFactor(w) * Cube(w) == Cube(512) <==> 512 % w == 0
  {
    var q := FloorDiv(512, w);
    assert 0 <= q * w <= 512;
    CubeProduct(q, w);
    if 512 % w == 0 {
      assert q * w == 512;
    } else {
      assert q * w != 512;
      CubeMonotone(q * w, 512);
    }
  }

  /** Width 96 passes the guard with factor 125, though 96 does not divide
      512. */
  lemma Width96Accepted()
    ensures !WidthRejected(96) && SampleFactor(96) == 125
    ensures SampleFactor(96) * Cube(96) < Cube(512)
  {
    SampleFactorExact(96);
    assert FloorDiv(512, 96) == 5;
  }

  /** Every width 2^k with 1 <= k <= 9 is accepted and covers the volume. */
  lemma PowerOfTwoWidths(k: nat)
    requires 1 <= k <= 9
    ensures !WidthRejected(Pow2(k))
    ensures SampleFactor(Pow2(k)) * Cube(Pow2(k)) == Cube(512)
  {
    var w, q := Pow2(k), Pow2(9 - k);
    Pow2Add(9 - k, k);
    assert Pow2(9) == 512;
    assert q * w == 512;
    assert w == 2 * Pow2(k - 1);
    assert w <= 512 by {
      MulAtLeastOne(q, w);
    }
    ExactDivision(512, w, q);
    SampleFactorExact(w);
  }

  lemma NoSpaceInIntString(i: int)
    ensures ' ' !in IntToString(i)
  {
    IntToStringChars(i);
  }

  /** `synth_dimensions` splits on spaces into the response count followed by
      the width three times, each of which reads back. */
  lemma SynthDimensionsReadBack(n: int, w: int)
    ensures Split(' ', SynthDimensions(n, w)) == [IntToString(n), IntToString(w), IntToString(w), IntToString(w)]
    ensures ParseInt(IntToString(n)) == n && ParseInt(IntToString(w)) == w
  {
    var sn, sw := IntToString(n), IntToString(w);
    NoSpaceInIntString(n);
    NoSpaceInIntString(w);
    assert SynthDimensions(n, w) == sn + [' '] + (sw + [' '] + (sw + [' '] + sw));
    SplitAfter(' ', sn, sw + [' '] + (sw + [' '] + sw));
    SplitAfter(' ', sw, sw + [' '] + sw);
    SplitAfter(' ', sw, sw);
    SplitWhole(' ', sw);
    IntToStringRoundTrip(n);
    IntToStringRoundTrip(w);
  }

  // -----------------------------------------------------------------------
  // create_cosmoflow_data_reader (HDF5)
  // -----------------------------------------------------------------------

  /** The placeholder path that switches the validation or test reader off. */
  const NoneSentinel := "__none__"

  /** The directories the HDF5 builder keeps, in order. */
  function Hdf5Inputs(trainPath: Option<string>, valPath: Option<string>, testPath: Option<string>): seq<RoleDir> {
    (if Truthy(trainPath) then [RoleDir("train", trainPath.value)] else [])
    + (if Truthy(valPath) && valPath.value != NoneSentinel then [RoleDir("validate", valPath.value)] else [])
    + (if Truthy(testPath) && testPath.value != NoneSentinel then [RoleDir("test", testPath.value)] else [])
  }

  /** One `reader_arg` dict; an absent key is None. */
  datatype ReaderArgs = ReaderArgs(
    role: string,
    dataFilename: Option<string>,
    dataFilePattern: Option<string>,
    hdf5KeyData: Option<string>,
    hdf5KeyResponses: Option<string>,
    numResponses: Option<int>)

  /** The HDF5 reader for one directory. */
  function Hdf5Reader(input: RoleDir, numResponses: int): Reader {
    NewReader("hdf5", input.role).(
      dataFilePattern := Some(input.dir + "/*.hdf5"),
      hdf5KeyData := Some("full"),
      hdf5KeyResponses := Some("unitPar"),
      numResponses := Some(numResponses),
      disableLabels := Some(true),
      disableResponses := Some(false),
      scalingFactorInt16 := Some(1.0))
  }

  /** `reader_arg` after the first loop has filled it in. */
  function FilledArgs(input: RoleDir, numResponses: int): ReaderArgs {
    ReaderArgs(input.role, None, Some(input.dir + "/*.hdf5"), Some("full"), Some("unitPar"), Some(numResponses))
  }

  /** The argument dict a kept directory starts with. */
  function InitialArgs(input: RoleDir): ReaderArgs {
    ReaderArgs(input.role, Some(input.dir), None, None, None, None)
  }

  /** Lines 42-48: one argument dict per kept directory. */
  method CollectReaderArgs(trainPath: Option<string>, valPath: Option<string>, testPath: Option<string>)
    returns (readerArgs: seq<ReaderArgs>)
    ensures var inputs := Hdf5Inputs(trainPath, valPath, testPath);
      |readerArgs| == |inputs| && forall k :: 0 <= k < |inputs| ==> readerArgs[k] == InitialArgs(inputs[k])
  {
    readerArgs := [];
    if trainPath.Some? && trainPath.value != "" {
      readerArgs := readerArgs + [ReaderArgs("train", Some(trainPath.value), None, None, None, None)];
    }
    if valPath.Some? && valPath.value != "" && valPath.value != NoneSentinel {
      readerArgs := readerArgs + [ReaderArgs("validate", Some(valPath.value), None, None, None, None)];
    }
    if testPath.Some? && testPath.value != "" && testPath.value != NoneSentinel {
      readerArgs := readerArgs + [ReaderArgs("test", Some(testPath.value), None, None, None, None)];
    }
  }

  /** `create_cosmoflow_data_reader`: collects one argument dict per kept
      directory, fills each in place (adding the pattern and keys, popping
      the file name), then builds one reader from each. */
  method CreateCosmoflowDataReader(trainPath: Option<string>, valPath: Option<string>, testPath: Option<string>, numResponses: int)
    returns (readers: seq<Reader>)
    ensures var inputs := Hdf5Inputs(trainPath, valPath, testPath);
      |readers| == |inputs| &&
      forall i :: 0 <= i < |inputs| ==> readers[i] == Hdf5Reader(inputs[i], numResponses)
    ensures forall i :: 0 <= i < |readers| ==>
      readers[i].name == "hdf5" &&
      readers[i].shuffle == (readers[i].role != "test") &&
      readers[i].dataFilename.None? &&
      readers[i].hdf5KeyData == Some("full") && readers[i].hdf5KeyResponses == Some("unitPar") &&
      readers[i].numResponses == Some(numResponses)
  {
    ghost var inputs := Hdf5Inputs(trainPath, valPath, testPath);
    var readerArgs := CollectReaderArgs(trainPath, valPath, testPath);

    var i := 0;
    while i < |readerArgs|
      invariant 0 <= i <= |readerArgs| == |inputs|
      invariant forall k :: 0 <= k < i ==> readerArgs[k] == FilledArgs(inputs[k], numResponses)
      invariant forall k :: i <= k < |inputs| ==> readerArgs[k] == InitialArgs(inputs[k])
    {
      var arg := readerArgs[i];
      arg := arg.(dataFilePattern := Some(arg.dataFilename.value + "/*.hdf5"));
      arg := arg.(hdf5KeyData := Some("full"));
      arg := arg.(hdf5KeyResponses := Some("unitPar"));
      arg := arg.(numResponses := Some(numResponses));
      arg := arg.(dataFilename := None);
      readerArgs := readerArgs[i := arg];
      i := i + 1;
    }

    readers := [];
    for j := 0 to |readerArgs|
      invariant |readers| == j
      invariant forall k :: 0 <= k < j ==> readers[k] == Hdf5Reader(inputs[k], numResponses)
    {
      var arg := readerArgs[j];
      var reader := Reader("hdf5", arg.role, arg.role != "test", 0.0, 0, 1.0,
        None, None, None, arg.dataFilename, arg.dataFilePattern, arg.hdf5KeyData,
        arg.hdf5KeyResponses, arg.numResponses, Some(true), Some(false), Some(1.0));
      readers := readers + [reader];
    }
  }

  /** Which roles the HDF5 builder keeps: train whenever its path is
      nonempty, validate and test only when theirs is also not the
      sentinel; always in the order train, validate, test. */
  lemma Hdf5Roles(trainPath: Option<string>, valPath: Option<string>, testPath: Option<string>)
    ensures var roles := RolesOf(Hdf5Inputs(trainPath, valPath, testPath));
      RolesOrdered(roles) &&
      ("train" in roles <==> Truthy(trainPath)) &&
      ("validate" in roles <==> Truthy(valPath) && valPath.value != NoneSentinel) &&
      ("test" in roles <==> Truthy(testPath) && testPath.value != NoneSentinel)
  {
    var v := Truthy(valPath) && valPath.value != NoneSentinel;
    var s := Truthy(testPath) && testPath.value != NoneSentinel;
    assert RolesOf(Hdf5Inputs(trainPath, valPath, testPath)) == KeptRoles(Truthy(trainPath), v, s);
    KeptRolesOrdered(Truthy(trainPath), v, s);
  }

  /** Each kept directory is read through the pattern of HDF5 files in it. */
  lemma Hdf5Pattern(trainPath: Option<string>, valPath: Option<string>, testPath: Option<string>, numResponses: int, i: nat)
    requires i < |Hdf5Inputs(trainPath, valPath, testPath)|
    ensures var input := Hdf5Inputs(trainPath, valPath, testPath)[i];
      Hdf5Reader(input, numResponses).dataFilePattern == Some(input.dir + "/*.hdf5") &&
      (input.role == "train" ==> input.dir == trainPath.value) &&
      (input.role == "validate" ==> input.dir == valPath.value) &&
      (input.role == "test" ==> input.dir == testPath.value)
  {
  }

  // -----------------------------------------------------------------------
  // create_python_dataset_reader (roles only)
  // -----------------------------------------------------------------------

  /** The directories the Python-dataset builder keeps, in order. */
  function PythonInputs(trainDir: Option<string>, valDir: Option<string>, testDir: Option<string>): seq<RoleDir> {
    (if Truthy(trainDir) then [RoleDir("train", trainDir.value)] else [])
    + (if Truthy(valDir) then [RoleDir("validate", valDir.value)] else [])
    + (if Truthy(testDir) then [RoleDir("test", testDir.value)] else [])
  }

  /** `create_python_dataset_reader`: one dataset reader per nonempty
      directory, with the `val` argument read for the `validate` role.  The
      dataset object is external; its reader is represented by its role and
      directory. */
  method CreatePythonDatasetReader(trainDir: Option<string>, valDir: Option<string>, testDir: Option<string>)
    returns (readers: seq<RoleDir>)
    ensures readers == PythonInputs(trainDir, valDir, testDir)
  {
    var args := [("train", trainDir), ("val", valDir), ("test", testDir)];
    readers := [];
    for i := 0 to 3
      invariant readers == PythonPrefix(args, i)
    {
      var role := args[i].0;
      var roleDir := args[i].1;
      if !(roleDir.Some? && roleDir.value != "") {
        continue;
      }
      if role == "val" {
        role := "validate";
      }
      readers := readers + [RoleDir(role, roleDir.value)];
    }
    PythonPrefixAll(trainDir, valDir, testDir);
  }

  /** The Python builder keeps exactly the nonempty directories, each under
      its own role, in the order train, validate, test. */
  lemma PythonRoles(trainDir: Option<string>, valDir: Option<string>, testDir: Option<string>)
    ensures var roles := RolesOf(PythonInputs(trainDir, valDir, testDir));
      RolesOrdered(roles) &&
      ("train" in roles <==> Truthy(trainDir)) &&
      ("validate" in roles <==> Truthy(valDir)) &&
      ("test" in roles <==> Truthy(testDir))
    ensures forall r :: r in PythonInputs(trainDir, valDir, testDir) ==> r.dir != ""
  {
    assert RolesOf(PythonInputs(trainDir, valDir, testDir)) == KeptRoles(Truthy(trainDir), Truthy(valDir), Truthy(testDir));
    KeptRolesOrdered(Truthy(trainDir), Truthy(valDir), Truthy(testDir));
  }

  /** The readers the Python builder's loop has produced after `n` of its
      arguments. */
  function PythonPrefix(args: seq<(string, Option<string>)>, n: nat): seq<RoleDir>
    requires n <= |args|
  {
    if n == 0 then []
    else
      var (role, dir) := args[n - 1];
      PythonPrefix(args, n - 1)
      + (if Truthy(dir) then [RoleDir(if role == "val" then "validate" else role, dir.value)] else [])
  }

  lemma PythonPrefixAll(trainDir: Option<string>, valDir: Option<string>, testDir: Option<string>)
    ensures PythonPrefix([("train", trainDir), ("val", valDir), ("test", testDir)], 3) == PythonInputs(trainDir, valDir, testDir)
  {
    var args := [("train", trainDir), ("val", valDir), ("test", testDir)];
    var t := if Truthy(trainDir) then [RoleDir("train", trainDir.value)] else [];
    var v := if Truthy(valDir) then [RoleDir("validate", valDir.value)] else [];
    var s := if Truthy(testDir) then [RoleDir("test", testDir.value)] else [];
    assert PythonPrefix(args, 1) == t;
    assert PythonPrefix(args, 2) == t + v;
    assert PythonPrefix(args, 3) == t + v + s;
  }

  /** `'__none__'` with its `'__none__'` meaning removed. */
  function DropSentinel(p: Option<string>): Option<string> {
    if p == Some(NoneSentinel) then None else p
  }

  /** The two builders keep the same directories except that only the HDF5
      builder treats `'__none__'` as absent for validate and test. */
  lemma SentinelOnlyInHdf5(trainPath: Option<string>, valPath: Option<string>, testPath: Option<string>)
    ensures Hdf5Inputs(trainPath, valPath, testPath) == PythonInputs(trainPath, DropSentinel(valPath), DropSentinel(testPath))
    ensures valPath == Some(NoneSentinel) ==>
      RoleDir("validate", NoneSentinel) in PythonInputs(trainPath, valPath, testPath) &&
      "validate" !in RolesOf(Hdf5Inputs(trainPath, valPath, testPath))
  {
    if valPath == Some(NoneSentinel) {
      Hdf5Roles(trainPath, valPath, testPath);
      var t := if Truthy(trainPath) then [RoleDir("train", trainPath.value)] else [];
      assert PythonInputs(trainPath, valPath, testPath)[|t|] == RoleDir("validate", NoneSentinel);
    }
  }

  // -----------------------------------------------------------------------
  // The main block
  // -----------------------------------------------------------------------

  /** The mini-batch size after the distconv adjustment: when a mini-batch
      has fewer sample partitions (`mbs * depth_groups`) than the trainer has
      processes, it becomes `int((nodes * ppn) / depth_groups)`. */
  function DistconvMiniBatch(useDistconv: bool, miniBatchSize: int, depthGroups: int, nodes: int, procsPerNode: int): (r: Result<int, ScriptError>)
    ensures r.Failure? <==> useDistconv && depthGroups == 0 && 0 < nodes * procsPerNode
    ensures r.Success? && !(useDistconv && miniBatchSize * depthGroups < nodes * procsPerNode) ==>
      r.value == miniBatchSize
    ensures r.Success? && useDistconv && miniBatchSize * depthGroups < nodes * procsPerNode ==>
      r.value == TruncDiv(nodes * procsPerNode, depthGroups) &&
      Abs(r.value * depthGroups) <= Abs(nodes * procsPerNode) < Abs(r.value * depthGroups) + Abs(depthGroups) &&
      (nodes * procsPerNode >= 0 ==> r.value * depthGroups >= 0) &&
      (nodes * procsPerNode <= 0 ==> r.value * depthGroups <= 0)
    ensures r.Failure? ==> r.error == ZeroDivisionError
  {
    if useDistconv && miniBatchSize * depthGroups < nodes * procsPerNode then
      if depthGroups == 0 then Failure(ZeroDivisionError)
      else Success(TruncDiv(nodes * procsPerNode, depthGroups))
    else Success(miniBatchSize)
  }

  /** With a positive number of depth groups the adjustment never shrinks
      the mini-batch, and when the process count is a multiple of the depth
      groups it makes the partitions match the processes exactly. */
  lemma DistconvBumpGrows(miniBatchSize: int, depthGroups: int, nodes: int, procsPerNode: int)
    requires depthGroups > 0
    ensures var r := DistconvMiniBatch(true, miniBatchSize, depthGroups, nodes, procsPerNode);
      r.Success? && r.value >= miniBatchSize &&
      (miniBatchSize * depthGroups < nodes * procsPerNode && (nodes * procsPerNode) % depthGroups == 0 ==>
        r.value * depthGroups == nodes * procsPerNode)
  {
    var p := nodes * procsPerNode;
    if miniBatchSize * depthGroups < p {
      TruncBump(miniBatchSize, depthGroups, p);
    }
  }

  lemma TruncBump(m: int, d: int, p: int)
    requires d > 0 && m * d < p
    ensures TruncDiv(p, d) >= m
    ensures p % d == 0 ==> TruncDiv(p, d) * d == p
  {
    var q := TruncDiv(p, d);
    var k := p / d;
    assert p == k * d + p % d;
    if p >= 0 {
      assert q * d <= p < q * d + d;
      assert (m - q - 1) * d == m * d - q * d - d;
      SignOfProduct(m - q - 1, d);
      if p % d == 0 {
        FloorUnique(p, d, q);
        FloorUnique(p, d, k);
      }
    } else {
      assert q * d - d < p <= q * d;
      assert (m - q) * d == m * d - q * d;
      SignOfProduct(m - q, d);
      if p % d == 0 {
        assert (q - 1) * d == q * d - d;
        CeilUnique(p, d, q);
        assert (k - 1) * d == k * d - d;
        CeilUnique(p, d, k);
      }
    }
  }

  lemma SignOfProduct(x: int, d: int)
    requires d > 0 && x * d < 0
    ensures x < 0
  {
  }

  /** The adjusted size can still leave fewer partitions than processes:
      two nodes of five processes with four depth groups give 2, and
      2 * 4 < 10. */
  lemma DistconvBumpCanFallShort()
    ensures DistconvMiniBatch(true, 1, 4, 2, 5) == Success(2)
    ensures 2 * 4 < 2 * 5
  {
    assert TruncDiv(10, 4) == 2;
  }

  /** Where the trainer's samples come from. */
  datatype DataReader =
    | ProtoReaders(readers: seq<Reader>)
    | PythonDatasets(datasets: seq<RoleDir>)

  /** The reader precedence of lines 320-332: synthetic data, else the
      Python dataset, else the HDF5 files; only the last serialises I/O. */
  method SetupDataReader(synthetic: bool, pythonDataset: bool, inputWidth: int, numSecrets: int,
                         trainDir: Option<string>, valDir: Option<string>, testDir: Option<string>)
    returns (r: Result<(DataReader, bool), ScriptError>)
    ensures synthetic ==> (r.Failure? <==> SyntheticReaders(inputWidth, numSecrets).Failure?)
    ensures synthetic && r.Success? ==> r.value.0 == ProtoReaders(SyntheticReaders(inputWidth, numSecrets).value)
    ensures !synthetic ==> r.Success?
    ensures !synthetic && pythonDataset ==> r.value.0 == PythonDatasets(PythonInputs(trainDir, valDir, testDir))
    ensures !synthetic && !pythonDataset ==> (r.value.0.ProtoReaders? &&
      |r.value.0.readers| == |Hdf5Inputs(trainDir, valDir, testDir)| &&
      forall i :: 0 <= i < |r.value.0.readers| ==>
        r.value.0.readers[i] == Hdf5Reader(Hdf5Inputs(trainDir, valDir, testDir)[i], numSecrets))
    ensures r.Success? ==> (r.value.1 <==> !synthetic && !pythonDataset)
  {
    var serializeIo := false;
    var dataReader;
    if synthetic {
      var readers :- CreateSyntheticDataReader(inputWidth, numSecrets);
      dataReader := ProtoReaders(readers);
    } else if pythonDataset {
      var datasets := CreatePythonDatasetReader(trainDir, valDir, testDir);
      dataReader := PythonDatasets(datasets);
    } else {
      var readers := CreateCosmoflowDataReader(trainDir, valDir, testDir, numSecrets);
      dataReader := ProtoReaders(readers);
      serializeIo := true;
    }
    r := Success((dataReader, serializeIo));
  }

  const KeepErrorSignals := "LBANN_KEEP_ERROR_SIGNALS"
  const JitVerbose := "DISTCONV_JIT_VERBOSE"
  const JitCachePath := "DISTCONV_JIT_CACHEPATH"

  /** The runtime environment of lines 343-355, starting from the distconv
      environment `base`: the error-signal flag is always overwritten, and
      with distconv and DaCe the two JIT variables are taken from the hosting
      environment or defaulted (the cache below the script's directory
      `applicationPath`). */
  method RuntimeEnvironment(base: L.Environment, reclaimErrorSignals: bool, useDistconv: bool, dace: bool,
                            ambient: L.Ambient, applicationPath: string)
    returns (environment: L.Environment)
    ensures environment.Keys == base.Keys + {KeepErrorSignals} + (if useDistconv && dace then {JitVerbose, JitCachePath} else {})
    ensures environment[KeepErrorSignals] == L.Int(if reclaimErrorSignals then 0 else 1)
    ensures useDistconv && dace ==>
      environment[JitVerbose] == (if JitVerbose in ambient then L.Str(ambient[JitVerbose]) else L.Int(1)) &&
      environment[JitCachePath] ==
        L.Str(if JitCachePath in ambient then ambient[JitCachePath] else applicationPath + "/DaCe_kernels/.dacecache")
    ensures forall k :: k in base && k != KeepErrorSignals && (!(useDistconv && dace) || (k != JitVerbose && k != JitCachePath)) ==>
      environment[k] == base[k]
  {
    environment := base;
    if reclaimErrorSignals {
      environment := environment[KeepErrorSignals := L.Int(0)];
    } else {
      environment := environment[KeepErrorSignals := L.Int(1)];
    }
    if useDistconv && dace {
      var verbose := if JitVerbose in ambient then L.Str(ambient[JitVerbose]) else L.Int(1);
      environment := environment[JitVerbose := verbose];
      var cache := if JitCachePath in ambient then ambient[JitCachePath] else applicationPath + "/DaCe_kernels/.dacecache";
      environment := environment[JitCachePath := L.Str(cache)];
    }
  }

  /** The LBANN arguments of lines 357-361: one I/O flag, then the profiling
      arguments. */
  function LbannArgs(synthetic: bool, noDatastore: bool, profileArgs: seq<string>): (r: seq<string>)
    ensures |r| == 1 + |profileArgs| && r[1..] == profileArgs
    ensures r[0] == "--use_data_store" <==> !synthetic && !noDatastore
    ensures r[0] == "--use_data_store" || r[0] == "--num_io_threads=8"
  {
    (if synthetic || noDatastore then ["--num_io_threads=8"] else ["--use_data_store"]) + profileArgs
  }

  /** Lines 362-364 as written: the command is stripped to test for
      blankness, so the default None raises. A blank command becomes None;
      any other is kept as given. */
  function ProfilerCmdAsWritten(cmd: Option<string>): (r: Result<Option<string>, ScriptError>)
    ensures r.Failure? <==> cmd.None?
    ensures r.Success? ==> (r.value.None? <==> AllSpace(cmd.value)) && (r.value.Some? ==> r.value == cmd)
  {
    match cmd
    case None => Failure(AttributeError)
    case Some(c) =>
      StripEmpty(c);
      Success(if Strip(c) == "" then None else cmd)
  }

  /** The profiler rule as evidently intended: no command and a blank
      command both mean no profiler. */
  function ProfilerCmd(cmd: Option<string>): (r: Option<string>)
    ensures r.None? <==> cmd.None? || AllSpace(cmd.value)
    ensures r.Some? ==> r == cmd
  {
    match cmd
    case None => None
    case Some(c) =>
      StripEmpty(c);
      if Strip(c) == "" then None else cmd
  }

  /** The script fails without `--profiler-cmd`; with it, the as-written
      rule and the intended one agree. */
  lemma ProfilerDefaultRaises(cmd: Option<string>)
    ensures ProfilerCmdAsWritten(None) == Failure(AttributeError) && ProfilerCmd(None) == None
    ensures cmd.Some? ==> ProfilerCmdAsWritten(cmd) == Success(ProfilerCmd(cmd))
  {
  }

  lemma ProfilerCmdIdempotent(cmd: Option<string>)
    ensures ProfilerCmd(ProfilerCmd(cmd)) == ProfilerCmd(cmd)
  {
  }

  /** A nonempty command without leading or trailing whitespace. */
  predicate IsStrippedCommand(x: string) {
    x != [] && !IsSpace(x[0]) && !IsSpace(x[|x| - 1])
  }

  /** `[x for x in xs if len(x) > 0]`. */
  function DropEmpty(xs: seq<string>): (r: seq<string>)
    ensures |r| <= |xs|
  {
    if xs == [] then [] else (if |xs[0]| > 0 then [xs[0]] else []) + DropEmpty(xs[1..])
  }

  lemma {:induction false} DropEmptyMembers(xs: seq<string>)
    ensures forall x :: x in DropEmpty(xs) <==> x in xs && x != []
  {
    if xs != [] {
      DropEmptyMembers(xs[1..]);
      assert forall x :: x in xs <==> x == xs[0] || x in xs[1..];
    }
  }

  lemma {:induction false} DropEmptyAppend(a: seq<string>, b: seq<string>)
    ensures DropEmpty(a + b) == DropEmpty(a) + DropEmpty(b)
  {
    if a == [] {
      assert a + b == b;
    } else {
      var head := if |a[0]| > 0 then [a[0]] else [];
      DropEmptyAppend(a[1..], b);
      assert (a + b)[0] == a[0] && (a + b)[1..] == a[1..] + b;
      Assoc3(head, DropEmpty(a[1..]), DropEmpty(b));
    }
  }

  lemma Assoc3(a: seq<string>, b: seq<string>, c: seq<string>)
    ensures a + (b + c) == (a + b) + c
  {
  }

  /** A list without empty strings is kept as it is. */
  lemma {:induction false} DropEmptyNone(xs: seq<string>)
    requires forall i :: 0 <= i < |xs| ==> xs[i] != []
    ensures DropEmpty(xs) == xs
  {
    if xs != [] {
      DropEmptyNone(xs[1..]);
    }
  }

  /** Every command stripped, blank ones included. */
  function StripAll(cmds: seq<string>): (r: seq<string>)
    ensures |r| == |cmds|
    ensures forall i :: 0 <= i < |cmds| ==> r[i] == Strip(cmds[i])
  {
    seq(|cmds|, i requires 0 <= i < |cmds| => Strip(cmds[i]))
  }

  /** `[c.strip() for c in cmds if len(c.strip()) > 0]`. */
  function StrippedCommands(cmds: seq<string>): seq<string> {
    DropEmpty(StripAll(cmds))
  }

  /** The preamble commands of lines 367-371. */
  function PreambleCommands(pre: Option<seq<string>>): (r: seq<string>)
    ensures pre.None? ==> r == []
    ensures pre.Some? ==> r == StrippedCommands(pre.value)
  {
    if pre.Some? && |pre.value| > 0 then StrippedCommands(pre.value) else []
  }

  /** Every surviving command is nonempty, with no whitespace at either
      end. */
  lemma StrippedCommandsStripped(cmds: seq<string>)
    ensures forall x :: x in StrippedCommands(cmds) ==> IsStrippedCommand(x)
  {
    DropEmptyMembers(StripAll(cmds));
    forall x | x in StrippedCommands(cmds)
      ensures IsStrippedCommand(x)
    {
      var i :| 0 <= i < |cmds| && x == StripAll(cmds)[i];
      StripSpec(cmds[i]);
    }
  }

  /** Filtering keeps the order of the commands: it distributes over
      concatenation. */
  lemma StrippedCommandsAppend(a: seq<string>, b: seq<string>)
    ensures StrippedCommands(a + b) == StrippedCommands(a) + StrippedCommands(b)
  {
    assert StripAll(a + b) == StripAll(a) + StripAll(b);
    DropEmptyAppend(StripAll(a), StripAll(b));
  }

  /** Exactly the non-blank commands survive, each stripped. */
  lemma StrippedCommandsMembers(cmds: seq<string>)
    ensures forall c :: c in cmds && !AllSpace(c) ==> Strip(c) in StrippedCommands(cmds)
    ensures forall x :: x in StrippedCommands(cmds) ==> exists c :: c in cmds && !AllSpace(c) && x == Strip(c)
  {
    DropEmptyMembers(StripAll(cmds));
    forall c | c in cmds
      ensures !AllSpace(c) <==> Strip(c) != []
    {
      StripEmpty(c);
    }
  }

  /** Filtering an already filtered list changes nothing. */
  lemma StrippedCommandsIdempotent(cmds: seq<string>)
    ensures StrippedCommands(StrippedCommands(cmds)) == StrippedCommands(cmds)
  {
    var r := StrippedCommands(cmds);
    StrippedCommandsStripped(cmds);
    forall i | 0 <= i < |r|
      ensures Strip(r[i]) == r[i] && r[i] != []
    {
      assert r[i] in r;
      StripUnchanged(r[i]);
    }
    assert StripAll(r) == r;
    DropEmptyNone(r);
  }
}
