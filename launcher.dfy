/** The LC batch-script configurator (`make_batch_script` in
    python/lbann/contrib/lc/launcher.py): given a system name, a process count
    per node, a scheduler, the caller's launcher arguments and environment, it
    appends system-specific launcher flags and fills in environment defaults
    without overriding what the caller or the hosting environment already set.

    The hosting environment (`os.environ`) is the parameter `ambient`; the
    facts `has_gpu(system)` and `cores_per_node(system)` are parameters too.
    Instead of handing the result to the generic script builder, the model
    returns it. */
module Launcher {
  import opened Base
  import opened Arith
  import opened Bits
  import opened Text

  /** A value of the job environment: the script stores strings and integers. */
  datatype Value = Str(s: string) | Int(i: int)

  type Environment = map<string, Value>

  /** The hosting process's environment variables. */
  type Ambient = map<string, string>

  /** The exceptions `make_batch_script` can raise. */
  datatype LaunchError =
    | ZeroDivisionError  // `//` by a process count of zero
    | TypeError          // `prefix + ":" + x` where `x` is None or an int

  /** Launcher arguments and environment as they are being assembled. */
  datatype Config = Config(launcherArgs: seq<string>, environment: Environment)

  /** What is handed on to the generic batch-script builder. */
  datatype BatchScript = BatchScript(
    procsPerNode: nat,
    scheduler: string,
    launcherArgs: seq<string>,
    environment: Environment)

  const LdLibraryPath := "LD_LIBRARY_PATH"
  const AlProgress := "AL_PROGRESS_RANKS_PER_NUMA_NODE"

  // -----------------------------------------------------------------------
  // The two closures
  // -----------------------------------------------------------------------

  /** The precedence rule: the caller's value, else the hosting
      environment's, else the literal default. */
  function Resolve(env: Environment, ambient: Ambient, key: string, default: Value): Value {
    if key in env then env[key]
    else if key in ambient then Str(ambient[key])
    else default
  }

  /** `set_environment(key, default)`. */
  function SetEnvironment(env: Environment, ambient: Ambient, key: string, default: Value): (r: Environment)
    ensures r.Keys == env.Keys + {key}
    ensures r[key] == Resolve(env, ambient, key, default)
    ensures forall k :: k in env ==> r[k] == env[k]
  {
    if key !in env then env[key := if key in ambient then Str(ambient[key]) else default]
    else env
  }

  /** The string `prepend_environment_path` puts the prefix in front of:
      the value already in the map, else the hosting environment's; None
      when that is missing or is not a string. */
  function Previous(env: Environment, ambient: Ambient, key: string): Option<string> {
    if key in env then (if env[key].Str? then Some(env[key].s) else None)
    else if key in ambient then Some(ambient[key])
    else None
  }

  /** `prepend_environment_path(key, prefix)`. */
  function PrependEnvironmentPath(env: Environment, ambient: Ambient, key: string, prefix: string): (r: Result<Environment, LaunchError>)
    ensures r.Failure? <==> Previous(env, ambient, key).None?
    ensures r.Failure? ==> r.error == TypeError
    ensures r.Success? ==> r.value.Keys == env.Keys + {key}
    ensures r.Success? ==> r.value[key] == Str(prefix + ":" + Previous(env, ambient, key).value)
    ensures r.Success? ==> forall k :: k in env && k != key ==> r.value[k] == env[k]
  {
    if key !in env then
      if key in ambient then Success(env[key := Str(prefix + ":" + ambient[key])])
      else Failure(TypeError)
    else if env[key].Str? then Success(env[key := Str(prefix + ":" + env[key].s)])
    else Failure(TypeError)
  }

  /** A second `set_environment` of the same key changes nothing: the first
      writer wins. */
  lemma SetEnvironmentFirstWins(env: Environment, ambient: Ambient, key: string, d1: Value, d2: Value)
    ensures SetEnvironment(SetEnvironment(env, ambient, key, d1), ambient, key, d2)
         == SetEnvironment(env, ambient, key, d1)
  {
  }

  /** Defaults for different keys may be set in either order. */
  lemma SetEnvironmentCommutes(env: Environment, ambient: Ambient, k1: string, d1: Value, k2: string, d2: Value)
    requires k1 != k2
    ensures SetEnvironment(SetEnvironment(env, ambient, k1, d1), ambient, k2, d2)
         == SetEnvironment(SetEnvironment(env, ambient, k2, d2), ambient, k1, d1)
  {
  }

  /** Two prepends stack: the later prefix ends up in front. */
  lemma PrependTwice(env: Environment, ambient: Ambient, key: string, p1: string, p2: string)
    requires PrependEnvironmentPath(env, ambient, key, p1).Success?
    ensures var e1 := PrependEnvironmentPath(env, ambient, key, p1).value;
      PrependEnvironmentPath(e1, ambient, key, p2)
        == Success(e1[key := Str(p2 + ":" + p1 + ":" + Previous(env, ambient, key).value)])
  {
    var e1 := PrependEnvironmentPath(env, ambient, key, p1).value;
    var prev := Previous(env, ambient, key).value;
    assert Previous(e1, ambient, key) == Some(p1 + ":" + prev);
    assert p2 + ":" + (p1 + ":" + prev) == p2 + ":" + p1 + ":" + prev;
  }

  // -----------------------------------------------------------------------
  // The defaults as a table
  // -----------------------------------------------------------------------

  /** The environment after setting every default of `defaults` with
      `set_environment`: keys already present keep their value, the others
      come from the hosting environment or from the table. */
  function Overlay(env: Environment, ambient: Ambient, defaults: map<string, Value>): (r: Environment)
    ensures r.Keys == env.Keys + defaults.Keys
  {
    map k | k in env.Keys + defaults.Keys ::
      if k in env then env[k] else if k in ambient then Str(ambient[k]) else defaults[k]
  }

  /** One more `set_environment` of a key the table does not have yet
      extends the table by that key. */
  lemma SetEnvironmentExtends(env: Environment, ambient: Ambient, defaults: map<string, Value>, key: string, default: Value)
    requires key !in defaults
    ensures SetEnvironment(Overlay(env, ambient, defaults), ambient, key, default)
         == Overlay(env, ambient, defaults[key := default])
  {
  }

  lemma OverlayEmpty(env: Environment, ambient: Ambient)
    ensures Overlay(env, ambient, map[]) == env
  {
  }

  lemma SetEnvironmentIsOverlay(env: Environment, ambient: Ambient, key: string, default: Value)
    ensures SetEnvironment(env, ambient, key, default) == Overlay(env, ambient, map[key := default])
  {
  }

  /** Overlaying `d1` and then `d2` is overlaying their union in which `d1`
      wins (Dafny's `d2 + d1` lets its right operand win): first writer wins. */
  lemma OverlayCompose(env: Environment, ambient: Ambient, d1: map<string, Value>, d2: map<string, Value>)
    ensures Overlay(Overlay(env, ambient, d1), ambient, d2) == Overlay(env, ambient, d2 + d1)
  {
  }

  const Mv2Defaults: map<string, Value> := map[
    "MV2_USE_RDMA_CM" := Int(0),
    "MV2_HOMOGENEOUS_CLUSTER" := Int(1),
    "MV2_USE_THREAD_WARNING" := Int(0)]

  /** `f'{tmpdir}'` where `tmpdir = os.environ.get('TMPDIR')`: Python prints
      an unset value as `None`. */
  function TmpDirText(ambient: Ambient): string {
    if "TMPDIR" in ambient then ambient["TMPDIR"] else "None"
  }

  function MiopenDefaults(ambient: Ambient): map<string, Value> {
    map[
      "MIOPEN_DEBUG_DISABLE_FIND_DB" := Str("0"),
      "MIOPEN_DISABLE_CACHE" := Str("0"),
      "MIOPEN_USER_DB_PATH" := Str(TmpDirText(ambient) + "/MIOpen_user_db"),
      "MIOPEN_CUSTOM_CACHE_DIR" := Str(TmpDirText(ambient) + "/MIOpen_custom_cache")]
  }

  function PascalDefaults(procsPerNode: nat): map<string, Value> {
    map[AlProgress := Int(procsPerNode)]
  }

  function TiogaDefaults(ambient: Ambient): map<string, Value> {
    MiopenDefaults(ambient) + map["NCCL_NET_GDR_LEVEL" := Str("3")]
  }

  function CoronaDefaults(ambient: Ambient): map<string, Value> {
    MiopenDefaults(ambient) + map["IBV_FORK_SAFE" := Int(1), "OMPI_MCA_mpi_warn_on_fork" := Int(0)]
  }

  function SierraDefaults(procsPerNode: nat): map<string, Value> {
    SierraFabricDefaults + map[AlProgress := Int((procsPerNode + 1) / 2)]
  }

  /** Sierra's InfiniBand, HCOLL, PAMI and NVSHMEM settings. */
  const SierraFabricDefaults: map<string, Value> :=
    map[
      "IBV_FORK_SAFE" := Int(1),
      "HCOLL_ENABLE_SHARP" := Int(0),
      "OMPI_MCA_coll_hcoll_enable" := Int(0),
      "PAMI_MAX_NUM_CACHED_PAGES" := Int(0),
      "NVSHMEM_MPI_LIB_NAME" := Str("libmpi_ibm.so")]

  // -----------------------------------------------------------------------
  // System dispatch
  // -----------------------------------------------------------------------

  predicate IsTioga(system: string) {
    system in ["tioga", "rzvernal", "elcap", "tuolumne", "rzadams"]
  }

  /** `system in ('corona')`: the parentheses make no tuple, so this asks
      whether `system` is a substring of "corona". */
  predicate IsCorona(system: string) {
    IsSubstring(system, "corona")
  }

  predicate IsSierra(system: string) {
    system in ["sierra", "lassen", "rzansel"]
  }

  /** Every character of a substring occurs in the string. */
  lemma {:induction false} SubstringChars(sub: string, s: string)
    requires IsSubstring(sub, s)
    ensures forall i :: 0 <= i < |sub| ==> sub[i] in s
  {
    if !(sub <= s) {
      SubstringChars(sub, s[1..]);
    } else {
      assert forall i :: 0 <= i < |sub| ==> sub[i] == s[i];
    }
  }

  /** The named systems fall into at most one of the branches: each Tioga,
      Sierra or Pascal name has a letter that "corona" lacks. */
  lemma BranchesExclusive(system: string)
    ensures IsTioga(system) ==> !IsCorona(system) && !IsSierra(system) && system != "pascal"
    ensures IsSierra(system) ==> !IsCorona(system) && system != "pascal"
    ensures system == "pascal" ==> !IsCorona(system)
  {
    // 't', 'e', 's', 'p' and 'z' do not occur in "corona"
    if system in ["tioga", "elcap", "tuolumne", "sierra", "lassen", "pascal"] {
      ForeignChar(system, "corona", if system == "lassen" then 2 else 0);
    } else if system in ["rzvernal", "rzadams", "rzansel"] {
      ForeignChar(system, "corona", 1);
    }
  }

  /** A string with a character that `s` lacks is no substring of `s`. */
  lemma ForeignChar(sub: string, s: string, i: nat)
    requires i < |sub| && sub[i] !in s
    ensures !IsSubstring(sub, s)
  {
    if IsSubstring(sub, s) {
      SubstringChars(sub, s);
    }
  }

  /** The quirk of the Corona test: every piece of the name "corona", even
      the empty name, selects the Corona branch. */
  lemma CoronaMatchesSubstrings()
    ensures IsCorona("corona") && IsCorona("rona") && IsCorona("c") && IsCorona("")
    ensures !IsCorona("coronas")
  {
    assert "corona"[2..] == "rona";
    SubstringAt("rona", "corona", 2);
    SubstringAt("c", "corona", 0);
  }

  /** Every default the configurator may set for a system, as one table.
      Blocks that run later come first: with `+` the right operand wins,
      and here the earliest `set_environment` of a key must win. */
  function Defaults(system: string, procsPerNode: nat, ambient: Ambient): map<string, Value> {
    BranchDefaults(system, procsPerNode, ambient) + CommonDefaults(system, procsPerNode)
  }

  /** The defaults set before the system-specific blocks. */
  function CommonDefaults(system: string, procsPerNode: nat): map<string, Value> {
    Mv2Defaults + (if system == "pascal" then PascalDefaults(procsPerNode) else map[])
  }

  /** The defaults of the system-specific block that applies, if any. */
  function BranchDefaults(system: string, procsPerNode: nat, ambient: Ambient): map<string, Value> {
    if IsTioga(system) then TiogaDefaults(ambient)
    else if IsCorona(system) then CoronaDefaults(ambient)
    else if IsSierra(system) then SierraDefaults(procsPerNode)
    else map[]
  }

  /** `os.path.join(os.getenv('ROCM_PATH'), 'llvm', 'lib')`. */
  function RocmLibDir(rocm: string): string {
    PathJoin(PathJoin(rocm, "llvm"), "lib")
  }

  /** The ROCm library directory is `llvm/lib` under ROCM_PATH, with exactly
      one separator after a non-empty ROCM_PATH and none before an empty one. */
  lemma RocmLibDirShape(rocm: string)
    ensures rocm == "" ==> RocmLibDir(rocm) == "llvm/lib"
    ensures rocm != "" && rocm[|rocm| - 1] == '/' ==> RocmLibDir(rocm) == rocm + "llvm/lib"
    ensures rocm != "" && rocm[|rocm| - 1] != '/' ==> RocmLibDir(rocm) == rocm + "/llvm/lib"
  {
    var inner := PathJoin(rocm, "llvm");
    assert inner[|inner| - 1] == 'm';
  }

  /** The prefixes put in front of LD_LIBRARY_PATH, in the order the
      prepends happen. */
  function LdPrefixes(system: string, ambient: Ambient): seq<string> {
    if IsTioga(system) then TiogaLdPrefixes(ambient)
    else if IsCorona(system) then CoronaLdPrefixes(ambient)
    else []
  }

  /** Tioga prepends the Cray libraries, ROCm's LLVM libraries and an
      alternative OFI plugin, each only when the hosting environment names
      it. */
  function TiogaLdPrefixes(ambient: Ambient): seq<string> {
    (if "CRAY_LD_LIBRARY_PATH" in ambient then [ambient["CRAY_LD_LIBRARY_PATH"]] else [])
    + (if "ROCM_PATH" in ambient then [RocmLibDir(ambient["ROCM_PATH"])] else [])
    + (if "LBANN_USE_THIS_OFI_PLUGIN" in ambient then [ambient["LBANN_USE_THIS_OFI_PLUGIN"]] else [])
  }

  function CoronaLdPrefixes(ambient: Ambient): seq<string> {
    if "ROCM_PATH" in ambient then [RocmLibDir(ambient["ROCM_PATH"])] else []
  }

  function Reverse<T>(s: seq<T>): (r: seq<T>)
    ensures |r| == |s|
  {
    if s == [] then [] else Reverse(s[1..]) + [s[0]]
  }

  /** The search path after prepending each of `prefixes` in turn to
      `previous`: the newest prefix first, the old value last. */
  function PrependedPath(previous: string, prefixes: seq<string>): string {
    Join(":", Reverse(prefixes) + [previous])
  }

  /** One more prepend puts its prefix at the front of the joined path. */
  lemma PrependedPathStep(previous: string, prefixes: seq<string>, p: string)
    ensures p + ":" + PrependedPath(previous, prefixes) == PrependedPath(previous, prefixes + [p])
  {
    var ps := prefixes + [p];
    assert ps[1..] + [ps[0]] == ps[1..] + [ps[0]];
    ReverseSnoc(prefixes, p);
    assert Reverse(ps) + [previous] == [p] + (Reverse(prefixes) + [previous]);
  }

  lemma {:induction false} ReverseSnoc<T>(s: seq<T>, x: T)
    ensures Reverse(s + [x]) == [x] + Reverse(s)
  {
    if s != [] {
      assert (s + [x])[1..] == s[1..] + [x];
      ReverseSnoc(s[1..], x);
    }
  }

  /** No table sets LD_LIBRARY_PATH: it is only ever prepended to. */
  lemma LdPathNotDefaulted(system: string, procsPerNode: nat, ambient: Ambient)
    ensures LdLibraryPath !in Defaults(system, procsPerNode, ambient)
  {
    LdPathNotInTables(procsPerNode, ambient);
  }

  lemma LdPathNotInTables(procsPerNode: nat, ambient: Ambient)
    ensures LdLibraryPath !in TiogaDefaults(ambient) && LdLibraryPath !in CoronaDefaults(ambient)
    ensures LdLibraryPath !in SierraDefaults(procsPerNode) && LdLibraryPath !in Mv2Defaults
    ensures LdLibraryPath !in PascalDefaults(procsPerNode)
  {
    LdPathNotInMiopen(ambient);
  }

  lemma LdPathNotInMiopen(ambient: Ambient)
    ensures LdLibraryPath !in MiopenDefaults(ambient)
  {
  }

  /** Filling in defaults for other keys does not change what a prepend to
      `key` builds on. */
  lemma PreviousOverlay(env: Environment, ambient: Ambient, defaults: map<string, Value>, key: string)
    requires key !in defaults
    ensures Previous(Overlay(env, ambient, defaults), ambient, key) == Previous(env, ambient, key)
  {
  }

  /** Whether `make_batch_script` raises for these inputs. */
  predicate Fails(system: string, procsPerNode: nat, env: Environment, ambient: Ambient) {
    (system == "pascal" && procsPerNode == 0)
    || (IsSierra(system) && procsPerNode == 0)
    || (LdPrefixes(system, ambient) != [] && Previous(env, ambient, LdLibraryPath).None?)
  }

  /** The environment `make_batch_script` hands on: the caller's map with
      every default of the system's table filled in, and LD_LIBRARY_PATH
      extended by the system's prefixes. */
  function ExpectedEnvironment(system: string, procsPerNode: nat, env: Environment, ambient: Ambient): Environment {
    WithLdPrefixes(Overlay(env, ambient, Defaults(system, procsPerNode, ambient)), env, ambient, LdPrefixes(system, ambient))
  }

  // -----------------------------------------------------------------------
  // Pascal CPU masks
  // -----------------------------------------------------------------------

  /** Mask `i` of Pascal's `--cpu_bind` list in closed form: process `i`
      owns `coresPerProc` consecutive cores starting at `i * coresPerProc`
      and their hyperthread siblings `2 * coresPerSocket` positions higher. */
  function PascalMask(coresPerProc: nat, coresPerSocket: nat, i: nat): nat {
    ShiftLeft(BitOr(LowMask(coresPerProc), ShiftLeft(LowMask(coresPerProc), 2 * coresPerSocket)), i * coresPerProc)
  }

  /** `max(1, n)`: Pascal's mask list is never empty. */
  function Max1(n: nat): (r: nat)
    ensures r >= 1 && r >= n
  {
    if n < 1 then 1 else n
  }

  /** The mask list of lines 79-81: the first mask, then each one shifted
      left by `coresPerProc` until there is one per process. */
  method PascalMasks(coresPerProc: nat, coresPerSocket: nat, procsPerNode: nat) returns (masks: seq<nat>)
    ensures |masks| == Max1(procsPerNode)
    ensures forall i :: 0 <= i < |masks| ==> masks[i] == PascalMask(coresPerProc, coresPerSocket, i)
  {
    var low := LowMask(coresPerProc);
    masks := [BitOr(low, ShiftLeft(low, 2 * coresPerSocket))];
    assert masks[0] == PascalMask(coresPerProc, coresPerSocket, 0);
    while |masks| < procsPerNode
      invariant 1 <= |masks| <= Max1(procsPerNode)
      invariant forall i :: 0 <= i < |masks| ==> masks[i] == PascalMask(coresPerProc, coresPerSocket, i)
    {
      var n := |masks|;
      ShiftShift(masks[0], (n - 1) * coresPerProc, coresPerProc);
      assert (n - 1) * coresPerProc + coresPerProc == n * coresPerProc;
      masks := masks + [ShiftLeft(masks[n - 1], coresPerProc)];
    }
  }

  /** The bits of Pascal mask `i`: two runs of `coresPerProc` cores. */
  lemma PascalMaskBits(coresPerProc: nat, coresPerSocket: nat, i: nat, k: nat)
    requires coresPerProc <= 2 * coresPerSocket
    ensures Bit(PascalMask(coresPerProc, coresPerSocket, i), k) <==>
      ((i * coresPerProc <= k < (i + 1) * coresPerProc)
       || (2 * coresPerSocket + i * coresPerProc <= k < 2 * coresPerSocket + (i + 1) * coresPerProc))
  {
    var c, s := coresPerProc, 2 * coresPerSocket;
    var m0 := BitOr(LowMask(c), ShiftLeft(LowMask(c), s));
    BitShift(m0, i * c, k);
    if k >= i * c {
      var k0 := k - i * c;
      BitOrBit(LowMask(c), ShiftLeft(LowMask(c), s), k0);
      BitLowMask(c, k0);
      BitShift(LowMask(c), s, k0);
      if k0 >= s {
        BitLowMask(c, k0 - s);
      }
      assert (i + 1) * c == i * c + c;
    }
  }

  /** The masks of two different processes share no core (Pascal's cores
      per process, `(cores_per_node // 2) // procs_per_node`, fit in a
      socket). */
  lemma PascalMasksDisjoint(coresPerNode: nat, procsPerNode: nat, i: nat, j: nat, k: nat)
    requires 1 <= procsPerNode && i < j < procsPerNode
    ensures var cps := coresPerNode / 2;
      var cpp := cps / procsPerNode;
      !(Bit(PascalMask(cpp, cps, i), k) && Bit(PascalMask(cpp, cps, j), k))
  {
    var cps := coresPerNode / 2;
    var cpp := cps / procsPerNode;
    CoreRangesOrdered(cps, procsPerNode, i, j);
    PascalMaskBits(cpp, cps, i, k);
    PascalMaskBits(cpp, cps, j, k);
    RangesDisjoint(i * cpp, (i + 1) * cpp, j * cpp, (j + 1) * cpp, 2 * cps, k);
  }

  /** Process i's cores end where process j's begin at the latest, and
      process j's end within the first socket. */
  lemma CoreRangesOrdered(cps: nat, procsPerNode: nat, i: nat, j: nat)
    requires 1 <= procsPerNode && i < j < procsPerNode
    ensures var cpp := cps / procsPerNode;
      0 <= i * cpp <= (i + 1) * cpp <= j * cpp <= (j + 1) * cpp <= cps
  {
    var cpp := cps / procsPerNode;
    assert cpp == FloorDiv(cps, procsPerNode);
    MulLe(i, i + 1, cpp);
    MulLe(i + 1, j, cpp);
    MulLe(j, j + 1, cpp);
    MulLe(j + 1, procsPerNode, cpp);
  }

  /** Two ordered ranges below `shift`, each also copied `shift` higher,
      share no point. */
  lemma RangesDisjoint(lo1: int, hi1: int, lo2: int, hi2: int, shift: int, k: int)
    requires 0 <= lo1 <= hi1 <= lo2 <= hi2 <= shift
    ensures !(((lo1 <= k < hi1) || (shift + lo1 <= k < shift + hi1))
           && ((lo2 <= k < hi2) || (shift + lo2 <= k < shift + hi2)))
  {
  }

  lemma MulLe(a: nat, b: nat, c: nat)
    requires a <= b
    ensures a * c <= b * c
  {
  }

  /** The `hex()` numerals of the masks, one per process. */
  function MaskNumerals(coresPerProc: nat, coresPerSocket: nat, procsPerNode: nat): (r: seq<string>)
    ensures |r| == Max1(procsPerNode)
  {
    seq(Max1(procsPerNode), i requires 0 <= i < Max1(procsPerNode) => Hex(PascalMask(coresPerProc, coresPerSocket, i)))
  }

  const CpuBindPrefix := "--cpu_bind=mask_cpu:"

  /** `--cpu_bind=mask_cpu:` followed by the comma-joined `hex()` of
      every mask, in closed form. */
  function CpuBindArg(coresPerProc: nat, coresPerSocket: nat, procsPerNode: nat): string {
    CpuBindPrefix + Join(",", MaskNumerals(coresPerProc, coresPerSocket, procsPerNode))
  }

  /** The mask list can be read back from the flag: splitting its tail on
      commas gives one `hex()` numeral per process, each of which parses
      back to its mask. */
  lemma CpuBindArgReadsBack(coresPerProc: nat, coresPerSocket: nat, procsPerNode: nat, i: nat)
    requires i < Max1(procsPerNode)
    ensures var numerals := Split(',', CpuBindArg(coresPerProc, coresPerSocket, procsPerNode)[|CpuBindPrefix|..]);
      |numerals| == Max1(procsPerNode)
      && |numerals[i]| >= 3 && numerals[i][..2] == "0x"
      && ParseDigits(numerals[i][2..], 16) == PascalMask(coresPerProc, coresPerSocket, i)
  {
    var parts := MaskNumerals(coresPerProc, coresPerSocket, procsPerNode);
    forall j | 0 <= j < |parts|
      ensures ',' !in parts[j]
    {
      HexHasNoComma(PascalMask(coresPerProc, coresPerSocket, j));
    }
    SplitJoin(',', parts);
    assert CpuBindArg(coresPerProc, coresPerSocket, procsPerNode)[|CpuBindPrefix|..] == Join(",", parts);
    HexRoundTrip(PascalMask(coresPerProc, coresPerSocket, i));
  }

  lemma HexHasNoComma(n: nat)
    ensures ',' !in Hex(n)
  {
    DigitsRoundTrip(n, 16);
    var h := Hex(n);
    forall i | 0 <= i < |h| ensures h[i] != ',' {
      if i >= 2 {
        assert h[i] == Digits(n, 16)[i - 2];
      }
    }
  }

  // -----------------------------------------------------------------------
  // The configurator, block by block
  // -----------------------------------------------------------------------

  /** The launcher arguments `make_batch_script` appends, in closed form. */
  function AppendedArgs(system: string, procsPerNode: nat, scheduler: string, hasGpu: bool, coresPerNode: nat): seq<string> {
    GpuArgs(scheduler, hasGpu)
    + PascalArgs(system, procsPerNode, scheduler, coresPerNode)
    + CoronaArgs(system)
    + SierraArgs(system, procsPerNode, scheduler)
  }

  function GpuArgs(scheduler: string, hasGpu: bool): seq<string> {
    if scheduler == "slurm" && hasGpu then ["--mpibind=off"] else []
  }

  function PascalArgs(system: string, procsPerNode: nat, scheduler: string, coresPerNode: nat): seq<string> {
    if system == "pascal" && scheduler == "slurm" && procsPerNode > 0
    then [CpuBindArg((coresPerNode / 2) / procsPerNode, coresPerNode / 2, procsPerNode)] else []
  }

  function CoronaArgs(system: string): seq<string> {
    if IsCorona(system) then ["-o pmi=pmix"] else []
  }

  function SierraArgs(system: string, procsPerNode: nat, scheduler: string): seq<string> {
    if IsSierra(system) && scheduler == "lsf" && procsPerNode > 0
    then ["--bind packed:" + IntToString(16 / ((procsPerNode + 1) / 2)), "--smpiargs=\"-gpu\""] else []
  }

  /** Lines 73-83: Pascal's thread affinity. */
  method ConfigurePascal(cfg: Config, ambient: Ambient, procsPerNode: nat, scheduler: string, coresPerNode: nat)
    returns (r: Result<Config, LaunchError>)
    ensures r.Failure? <==> procsPerNode == 0
    ensures r.Failure? ==> r.error == ZeroDivisionError
    ensures r.Success? ==> r.value.environment == Overlay(cfg.environment, ambient, PascalDefaults(procsPerNode))
    ensures r.Success? ==> (r.value.launcherArgs == cfg.launcherArgs
      + (if scheduler == "slurm" then [CpuBindArg((coresPerNode / 2) / procsPerNode, coresPerNode / 2, procsPerNode)] else []))
  {
    var environment, launcherArgs := cfg.environment, cfg.launcherArgs;
    var coresPerSocket := coresPerNode / 2;
    if procsPerNode == 0 {
      return Failure(ZeroDivisionError);
    }
    var coresPerProc := coresPerSocket / procsPerNode;
    environment := SetEnvironment(environment, ambient, AlProgress, Int(procsPerNode));
    SetEnvironmentIsOverlay(cfg.environment, ambient, AlProgress, Int(procsPerNode));
    if scheduler == "slurm" {
      var masks := PascalMasks(coresPerProc, coresPerSocket, procsPerNode);
      var hexes := seq(|masks|, i requires 0 <= i < |masks| => Hex(masks[i]));
      assert hexes == MaskNumerals(coresPerProc, coresPerSocket, procsPerNode);
      launcherArgs := launcherArgs + ["--cpu_bind=mask_cpu:" + Join(",", hexes)];
    }
    return Success(Config(launcherArgs, environment));
  }

  /** Lines 89-94: the MVAPICH2 defaults, set for every system. */
  method ConfigureMvapich(env: Environment, ambient: Ambient) returns (r: Environment)
    ensures r == Overlay(env, ambient, Mv2Defaults)
  {
    OverlayEmpty(env, ambient);
    r := SetEnvironment(env, ambient, "MV2_USE_RDMA_CM", Int(0));
    SetEnvironmentExtends(env, ambient, map[], "MV2_USE_RDMA_CM", Int(0));
    r := SetEnvironment(r, ambient, "MV2_HOMOGENEOUS_CLUSTER", Int(1));
    SetEnvironmentExtends(env, ambient, map["MV2_USE_RDMA_CM" := Int(0)], "MV2_HOMOGENEOUS_CLUSTER", Int(1));
    r := SetEnvironment(r, ambient, "MV2_USE_THREAD_WARNING", Int(0));
    SetEnvironmentExtends(env, ambient, map["MV2_USE_RDMA_CM" := Int(0), "MV2_HOMOGENEOUS_CLUSTER" := Int(1)],
      "MV2_USE_THREAD_WARNING", Int(0));
  }

  /** The MIOpen defaults shared by the Tioga and Corona blocks. */
  method ConfigureMiopen(env: Environment, ambient: Ambient) returns (r: Environment)
    ensures r == Overlay(env, ambient, MiopenDefaults(ambient))
  {
    var tmpdir := if "TMPDIR" in ambient then Some(ambient["TMPDIR"]) else None;
    var tmpdirText := if tmpdir.Some? then tmpdir.value else "None";
    var userDb, customCache := Str(tmpdirText + "/MIOpen_user_db"), Str(tmpdirText + "/MIOpen_custom_cache");
    OverlayEmpty(env, ambient);
    r := SetEnvironment(env, ambient, "MIOPEN_DEBUG_DISABLE_FIND_DB", Str("0"));
    SetEnvironmentExtends(env, ambient, map[], "MIOPEN_DEBUG_DISABLE_FIND_DB", Str("0"));
    r := SetEnvironment(r, ambient, "MIOPEN_DISABLE_CACHE", Str("0"));
    SetEnvironmentExtends(env, ambient, map["MIOPEN_DEBUG_DISABLE_FIND_DB" := Str("0")], "MIOPEN_DISABLE_CACHE", Str("0"));
    r := SetEnvironment(r, ambient, "MIOPEN_USER_DB_PATH", userDb);
    SetEnvironmentExtends(env, ambient,
      map["MIOPEN_DEBUG_DISABLE_FIND_DB" := Str("0"), "MIOPEN_DISABLE_CACHE" := Str("0")],
      "MIOPEN_USER_DB_PATH", userDb);
    r := SetEnvironment(r, ambient, "MIOPEN_CUSTOM_CACHE_DIR", customCache);
    SetEnvironmentExtends(env, ambient,
      map["MIOPEN_DEBUG_DISABLE_FIND_DB" := Str("0"), "MIOPEN_DISABLE_CACHE" := Str("0"), "MIOPEN_USER_DB_PATH" := userDb],
      "MIOPEN_CUSTOM_CACHE_DIR", customCache);
  }

  /** Prepends each prefix in turn to LD_LIBRARY_PATH. */
  method PrependLdPrefixes(env: Environment, ambient: Ambient, prefixes: seq<string>) returns (r: Result<Environment, LaunchError>)
    ensures r.Failure? <==> prefixes != [] && Previous(env, ambient, LdLibraryPath).None?
    ensures r.Failure? ==> r.error == TypeError
    ensures r.Success? && prefixes == [] ==> r.value == env
    ensures r.Success? && prefixes != [] ==> (
      r.value == env[LdLibraryPath := Str(PrependedPath(Previous(env, ambient, LdLibraryPath).value, prefixes))])
  {
    if prefixes == [] {
      return Success(env);
    }
    var environment :- PrependEnvironmentPath(env, ambient, LdLibraryPath, prefixes[0]);
    var previous := Previous(env, ambient, LdLibraryPath).value;
    assert PrependedPath(previous, []) == previous;
    PrependedPathStep(previous, [], prefixes[0]);
    assert prefixes[..1] == [prefixes[0]];
    var i := 1;
    while i < |prefixes|
      invariant 1 <= i <= |prefixes|
      invariant environment == env[LdLibraryPath := Str(PrependedPath(previous, prefixes[..i]))]
    {
      environment := PrependEnvironmentPath(environment, ambient, LdLibraryPath, prefixes[i]).value;
      PrependedPathStep(previous, prefixes[..i], prefixes[i]);
      assert prefixes[..i] + [prefixes[i]] == prefixes[..i + 1];
      i := i + 1;
    }
    assert prefixes[..i] == prefixes;
    return Success(environment);
  }

  /** Lines 97-111: Tioga-like systems. */
  method ConfigureTioga(env: Environment, ambient: Ambient) returns (r: Result<Environment, LaunchError>)
    ensures r.Failure? <==> Previous(env, ambient, LdLibraryPath).None? && TiogaLdPrefixes(ambient) != []
    ensures r.Failure? ==> r.error == TypeError
    ensures r.Success? ==> r.value == WithLdPrefixes(Overlay(env, ambient, TiogaDefaults(ambient)), env, ambient, TiogaLdPrefixes(ambient))
  {
    OverlayEmpty(env, ambient);
    var environment := SetEnvironment(env, ambient, "NCCL_NET_GDR_LEVEL", Str("3"));
    SetEnvironmentExtends(env, ambient, map[], "NCCL_NET_GDR_LEVEL", Str("3"));
    environment := ConfigureMiopen(environment, ambient);
    OverlayCompose(env, ambient, map["NCCL_NET_GDR_LEVEL" := Str("3")], MiopenDefaults(ambient));
    var prefixes: seq<string> := [];
    if "CRAY_LD_LIBRARY_PATH" in ambient {
      prefixes := prefixes + [ambient["CRAY_LD_LIBRARY_PATH"]];
    }
    if "ROCM_PATH" in ambient {
      prefixes := prefixes + [RocmLibDir(ambient["ROCM_PATH"])];
    }
    var differentOfiPlugin := if "LBANN_USE_THIS_OFI_PLUGIN" in ambient then Some(ambient["LBANN_USE_THIS_OFI_PLUGIN"]) else None;
    if differentOfiPlugin.Some? {
      prefixes := prefixes + [differentOfiPlugin.value];
    }
    assert prefixes == TiogaLdPrefixes(ambient);
    LdPathNotInTables(0, ambient);
    PreviousOverlay(env, ambient, TiogaDefaults(ambient), LdLibraryPath);
    r := PrependLdPrefixes(environment, ambient, prefixes);
  }

  /** The environment after LD_LIBRARY_PATH of `base` is extended by
      `prefixes` on top of the value the caller's map (or the hosting
      environment) had. */
  function WithLdPrefixes(base: Environment, env: Environment, ambient: Ambient, prefixes: seq<string>): Environment {
    var previous := Previous(env, ambient, LdLibraryPath);
    if prefixes == [] || previous.None? then base
    else base[LdLibraryPath := Str(PrependedPath(previous.value, prefixes))]
  }

  /** Lines 114-137: Corona (and, by the substring quirk, any piece of its
      name). */
  method ConfigureCorona(cfg: Config, ambient: Ambient) returns (r: Result<Config, LaunchError>)
    ensures r.Failure? <==> Previous(cfg.environment, ambient, LdLibraryPath).None? && CoronaLdPrefixes(ambient) != []
    ensures r.Failure? ==> r.error == TypeError
    ensures r.Success? ==> (r.value.environment
      == WithLdPrefixes(Overlay(cfg.environment, ambient, CoronaDefaults(ambient)), cfg.environment, ambient, CoronaLdPrefixes(ambient)))
    ensures r.Success? ==> r.value.launcherArgs == cfg.launcherArgs + ["-o pmi=pmix"]
  {
    var env := cfg.environment;
    OverlayEmpty(env, ambient);
    var environment := SetEnvironment(env, ambient, "IBV_FORK_SAFE", Int(1));
    SetEnvironmentExtends(env, ambient, map[], "IBV_FORK_SAFE", Int(1));
    environment := SetEnvironment(environment, ambient, "OMPI_MCA_mpi_warn_on_fork", Int(0));
    SetEnvironmentExtends(env, ambient, map["IBV_FORK_SAFE" := Int(1)], "OMPI_MCA_mpi_warn_on_fork", Int(0));
    environment := ConfigureMiopen(environment, ambient);
    OverlayCompose(env, ambient, map["IBV_FORK_SAFE" := Int(1), "OMPI_MCA_mpi_warn_on_fork" := Int(0)], MiopenDefaults(ambient));
    var prefixes: seq<string> := [];
    if "ROCM_PATH" in ambient {
      prefixes := prefixes + [RocmLibDir(ambient["ROCM_PATH"])];
    }
    LdPathNotInTables(0, ambient);
    PreviousOverlay(env, ambient, CoronaDefaults(ambient), LdLibraryPath);
    var newEnv :- PrependLdPrefixes(environment, ambient, prefixes);
    return Success(Config(cfg.launcherArgs + ["-o pmi=pmix"], newEnv));
  }

  /** Lines 140-173: Sierra-like systems. */
  method ConfigureSierra(cfg: Config, ambient: Ambient, procsPerNode: nat, scheduler: string) returns (r: Result<Config, LaunchError>)
    ensures r.Failure? <==> procsPerNode == 0
    ensures r.Failure? ==> r.error == ZeroDivisionError
    ensures r.Success? ==> r.value.environment == Overlay(cfg.environment, ambient, SierraDefaults(procsPerNode))
    ensures r.Success? ==> (r.value.launcherArgs == cfg.launcherArgs
      + (if scheduler == "lsf" then ["--bind packed:" + IntToString(16 / ((procsPerNode + 1) / 2)), "--smpiargs=\"-gpu\""] else []))
  {
    var env := cfg.environment;
    var launcherArgs := cfg.launcherArgs;
    var coresPerSocket := 16;
    var procsPerSocket := (procsPerNode + 1) / 2;
    if procsPerSocket == 0 {
      return Failure(ZeroDivisionError);
    }
    var coresPerProc := coresPerSocket / procsPerSocket;
    OverlayEmpty(env, ambient);
    var environment := SetEnvironment(env, ambient, AlProgress, Int(procsPerSocket));
    SetEnvironmentExtends(env, ambient, map[], AlProgress, Int(procsPerSocket));
    if scheduler == "lsf" {
      launcherArgs := launcherArgs + ["--bind packed:" + IntToString(coresPerProc)];
      launcherArgs := launcherArgs + ["--smpiargs=\"-gpu\""];
    }
    environment := ConfigureSierraFabric(environment, ambient);
    OverlayCompose(env, ambient, map[AlProgress := Int(procsPerSocket)], SierraFabricDefaults);
    return Success(Config(launcherArgs, environment));
  }

  /** Which block's table and prefixes apply to a system. */
  lemma Dispatch(system: string, procsPerNode: nat, ambient: Ambient)
    ensures IsTioga(system) ==> (BranchDefaults(system, procsPerNode, ambient) == TiogaDefaults(ambient)
                             && LdPrefixes(system, ambient) == TiogaLdPrefixes(ambient))
    ensures IsCorona(system) ==> (BranchDefaults(system, procsPerNode, ambient) == CoronaDefaults(ambient)
                              && LdPrefixes(system, ambient) == CoronaLdPrefixes(ambient))
    ensures IsSierra(system) ==> (BranchDefaults(system, procsPerNode, ambient) == SierraDefaults(procsPerNode)
                              && LdPrefixes(system, ambient) == [])
    ensures !IsTioga(system) && !IsCorona(system) && !IsSierra(system) ==> (
      BranchDefaults(system, procsPerNode, ambient) == map[] && LdPrefixes(system, ambient) == [])
  {
    BranchesExclusive(system);
  }

  lemma UnionEmpty(m: map<string, Value>)
    ensures map[] + m == m
  {
  }

  /** Lines 61-94: the GPU binding flag, the Pascal block and the
      MVAPICH2 defaults. */
  method ConfigureCommon(cfg: Config, ambient: Ambient, system: string, procsPerNode: nat, scheduler: string, hasGpu: bool, coresPerNode: nat)
    returns (r: Result<Config, LaunchError>)
    ensures r.Failure? <==> system == "pascal" && procsPerNode == 0
    ensures r.Failure? ==> r.error == ZeroDivisionError
    ensures r.Success? ==> (r.value.launcherArgs
      == cfg.launcherArgs + GpuArgs(scheduler, hasGpu) + PascalArgs(system, procsPerNode, scheduler, coresPerNode))
    ensures r.Success? ==> r.value.environment == Overlay(cfg.environment, ambient, CommonDefaults(system, procsPerNode))
  {
    var next := cfg;
    if scheduler == "slurm" && hasGpu {
      next := next.(launcherArgs := next.launcherArgs + ["--mpibind=off"]);
    }
    // `early` is the table of defaults set before the MVAPICH2 block
    ghost var early: map<string, Value> := map[];
    if system == "pascal" {
      next :- ConfigurePascal(next, ambient, procsPerNode, scheduler, coresPerNode);
      early := PascalDefaults(procsPerNode);
    } else {
      OverlayEmpty(cfg.environment, ambient);
    }
    var env := ConfigureMvapich(next.environment, ambient);
    OverlayCompose(cfg.environment, ambient, early, Mv2Defaults);
    return Success(next.(environment := env));
  }

  /** Lines 96-173: the blocks for Tioga-like, Corona and Sierra-like
      systems, at most one of which applies. */
  method ConfigureSystem(cfg: Config, ambient: Ambient, system: string, procsPerNode: nat, scheduler: string)
    returns (r: Result<Config, LaunchError>)
    ensures r.Failure? <==> ((IsSierra(system) && procsPerNode == 0)
      || (LdPrefixes(system, ambient) != [] && Previous(cfg.environment, ambient, LdLibraryPath).None?))
    ensures r.Failure? ==> (r.error == ZeroDivisionError <==> IsSierra(system) && procsPerNode == 0)
    ensures r.Success? ==> (r.value.launcherArgs
      == cfg.launcherArgs + CoronaArgs(system) + SierraArgs(system, procsPerNode, scheduler))
    ensures r.Success? ==> (r.value.environment
      == WithLdPrefixes(Overlay(cfg.environment, ambient, BranchDefaults(system, procsPerNode, ambient)),
                        cfg.environment, ambient, LdPrefixes(system, ambient)))
  {
    BranchesExclusive(system);
    Dispatch(system, procsPerNode, ambient);
    OverlayEmpty(cfg.environment, ambient);
    var next := cfg;
    if IsTioga(system) {
      var tioga :- ConfigureTioga(next.environment, ambient);
      next := next.(environment := tioga);
    }
    if IsCorona(system) {
      next :- ConfigureCorona(next, ambient);
    }
    if IsSierra(system) {
      next :- ConfigureSierra(next, ambient, procsPerNode, scheduler);
    }
    return Success(next);
  }

  lemma ConcatAssoc(a: seq<string>, b: seq<string>, c: seq<string>, d: seq<string>, e: seq<string>)
    ensures a + b + c + d + e == a + (b + c + d + e)
  {
  }

  /** Lines 157-166: the Sierra fabric defaults. */
  method ConfigureSierraFabric(env: Environment, ambient: Ambient) returns (r: Environment)
    ensures r == Overlay(env, ambient, SierraFabricDefaults)
  {
    // `done` records which defaults have been set so far
    ghost var done: map<string, Value> := map[];
    OverlayEmpty(env, ambient);
    r := SetEnvironment(env, ambient, "IBV_FORK_SAFE", Int(1));
    SetEnvironmentExtends(env, ambient, done, "IBV_FORK_SAFE", Int(1));
    done := done["IBV_FORK_SAFE" := Int(1)];
    r := SetEnvironment(r, ambient, "HCOLL_ENABLE_SHARP", Int(0));
    SetEnvironmentExtends(env, ambient, done, "HCOLL_ENABLE_SHARP", Int(0));
    done := done["HCOLL_ENABLE_SHARP" := Int(0)];
    r := SetEnvironment(r, ambient, "OMPI_MCA_coll_hcoll_enable", Int(0));
    SetEnvironmentExtends(env, ambient, done, "OMPI_MCA_coll_hcoll_enable", Int(0));
    done := done["OMPI_MCA_coll_hcoll_enable" := Int(0)];
    r := SetEnvironment(r, ambient, "PAMI_MAX_NUM_CACHED_PAGES", Int(0));
    SetEnvironmentExtends(env, ambient, done, "PAMI_MAX_NUM_CACHED_PAGES", Int(0));
    done := done["PAMI_MAX_NUM_CACHED_PAGES" := Int(0)];
    r := SetEnvironment(r, ambient, "NVSHMEM_MPI_LIB_NAME", Str("libmpi_ibm.so"));
    SetEnvironmentExtends(env, ambient, done, "NVSHMEM_MPI_LIB_NAME", Str("libmpi_ibm.so"));
    done := done["NVSHMEM_MPI_LIB_NAME" := Str("libmpi_ibm.so")];
    assert done == SierraFabricDefaults;
  }

  /** `make_batch_script` (lines 21-184). */
  method MakeBatchScript(
    system: string, procsPerNode: nat, scheduler: string,
    hasGpu: bool, coresPerNode: nat,
    launcherArgs: seq<string>, environment: Environment, ambient: Ambient)
    returns (r: Result<BatchScript, LaunchError>)
    ensures r.Failure? <==> Fails(system, procsPerNode, environment, ambient)
    ensures r.Failure? ==> (r.error == ZeroDivisionError <==> (system == "pascal" || IsSierra(system)) && procsPerNode == 0)
    ensures r.Success? ==> r.value.procsPerNode == procsPerNode && r.value.scheduler == scheduler
    ensures r.Success? ==> (r.value.launcherArgs
      == launcherArgs + AppendedArgs(system, procsPerNode, scheduler, hasGpu, coresPerNode))
    ensures r.Success? ==> r.value.environment == ExpectedEnvironment(system, procsPerNode, environment, ambient)
  {
    BranchesExclusive(system);
    var cfg := Config(launcherArgs, environment);
    cfg :- ConfigureCommon(cfg, ambient, system, procsPerNode, scheduler, hasGpu, coresPerNode);
    LdPathNotInTables(procsPerNode, ambient);
    PreviousOverlay(environment, ambient, CommonDefaults(system, procsPerNode), LdLibraryPath);
    cfg :- ConfigureSystem(cfg, ambient, system, procsPerNode, scheduler);
    OverlayCompose(environment, ambient, CommonDefaults(system, procsPerNode), BranchDefaults(system, procsPerNode, ambient));
    ConcatAssoc(launcherArgs, GpuArgs(scheduler, hasGpu), PascalArgs(system, procsPerNode, scheduler, coresPerNode),
      CoronaArgs(system), SierraArgs(system, procsPerNode, scheduler));
    return Success(BatchScript(procsPerNode, scheduler, cfg.launcherArgs, cfg.environment));
  }

  // -----------------------------------------------------------------------
  // Properties of the result
  // -----------------------------------------------------------------------

  /** Looking up any key but LD_LIBRARY_PATH in the result: the caller's
      value, else the hosting environment's, else the table's. */
  lemma ExpectedAt(system: string, procsPerNode: nat, env: Environment, ambient: Ambient, k: string)
    requires k != LdLibraryPath
    ensures var e := ExpectedEnvironment(system, procsPerNode, env, ambient);
      var d := Defaults(system, procsPerNode, ambient);
      (k in e <==> k in env || k in d)
      && (k in e ==> e[k] == if k in env then env[k] else if k in ambient then Str(ambient[k]) else d[k])
  {
  }

  /** The caller's own settings survive, except that LD_LIBRARY_PATH may be
      extended. */
  lemma CallerSettingsKept(system: string, procsPerNode: nat, env: Environment, ambient: Ambient, k: string)
    requires k in env && k != LdLibraryPath
    ensures k in ExpectedEnvironment(system, procsPerNode, env, ambient)
    ensures ExpectedEnvironment(system, procsPerNode, env, ambient)[k] == env[k]
  {
    ExpectedAt(system, procsPerNode, env, ambient, k);
  }

  /** LD_LIBRARY_PATH is the caller's (or missing) unless the system has
      prefixes for it; then it is the prefixes, newest first, in front of
      the value it had. */
  lemma LdLibraryPathResult(system: string, procsPerNode: nat, env: Environment, ambient: Ambient)
    requires !Fails(system, procsPerNode, env, ambient)
    ensures var e := ExpectedEnvironment(system, procsPerNode, env, ambient);
      if LdPrefixes(system, ambient) == [] then
        (LdLibraryPath in e <==> LdLibraryPath in env) && (LdLibraryPath in env ==> e[LdLibraryPath] == env[LdLibraryPath])
      else
        LdLibraryPath in e
        && e[LdLibraryPath] == Str(PrependedPath(Previous(env, ambient, LdLibraryPath).value, LdPrefixes(system, ambient)))
  {
    LdPathNotDefaulted(system, procsPerNode, ambient);
  }

  lemma Mv2KeysNotInTables(k: string, procsPerNode: nat, ambient: Ambient)
    requires k in Mv2Defaults
    ensures k !in TiogaDefaults(ambient) && k !in CoronaDefaults(ambient) && k !in SierraDefaults(procsPerNode)
    ensures k != AlProgress && k != LdLibraryPath
  {
  }

  /** Every system gets the three MVAPICH2 settings, resolved by the
      precedence rule. */
  lemma Mvapich2AlwaysSet(system: string, procsPerNode: nat, env: Environment, ambient: Ambient, k: string)
    requires k in Mv2Defaults
    ensures k in ExpectedEnvironment(system, procsPerNode, env, ambient)
    ensures ExpectedEnvironment(system, procsPerNode, env, ambient)[k] == Resolve(env, ambient, k, Mv2Defaults[k])
  {
    Mv2KeysNotInTables(k, procsPerNode, ambient);
    ExpectedAt(system, procsPerNode, env, ambient, k);
    var d := Defaults(system, procsPerNode, ambient);
    assert k !in BranchDefaults(system, procsPerNode, ambient);
    assert k in d && d[k] == Mv2Defaults[k];
  }

  /** A system of no branch is not passed through unchanged: it gets
      exactly the three MVAPICH2 settings on top of the caller's map, and
      no extra launcher argument beyond the GPU binding. */
  lemma UnknownSystem(system: string, procsPerNode: nat, scheduler: string, hasGpu: bool, coresPerNode: nat, env: Environment, ambient: Ambient)
    requires system != "pascal" && !IsTioga(system) && !IsCorona(system) && !IsSierra(system)
    ensures !Fails(system, procsPerNode, env, ambient)
    ensures ExpectedEnvironment(system, procsPerNode, env, ambient) == Overlay(env, ambient, Mv2Defaults)
    ensures ExpectedEnvironment(system, procsPerNode, env, ambient).Keys
         == env.Keys + {"MV2_USE_RDMA_CM", "MV2_HOMOGENEOUS_CLUSTER", "MV2_USE_THREAD_WARNING"}
    ensures AppendedArgs(system, procsPerNode, scheduler, hasGpu, coresPerNode)
         == GpuArgs(scheduler, hasGpu)
  {
    assert map[] + Mv2Defaults == Mv2Defaults;
    assert Mv2Defaults + map[] == Mv2Defaults;
  }

  /** On SLURM with a GPU system the first argument appended after the
      caller's is `--mpibind=off`. */
  lemma MpibindFirst(system: string, procsPerNode: nat, hasGpu: bool, coresPerNode: nat)
    requires hasGpu
    ensures |AppendedArgs(system, procsPerNode, "slurm", hasGpu, coresPerNode)| >= 1
    ensures AppendedArgs(system, procsPerNode, "slurm", hasGpu, coresPerNode)[0] == "--mpibind=off"
  {
  }

  /** Sierra-like systems: the Aluminum progress-rank default is half the
      processes rounded up, and under LSF the processes are bound packed to
      16 cores shared among them. */
  lemma SierraSettings(system: string, procsPerNode: nat, hasGpu: bool, coresPerNode: nat, env: Environment, ambient: Ambient)
    requires IsSierra(system) && procsPerNode > 0
    ensures AlProgress in ExpectedEnvironment(system, procsPerNode, env, ambient)
    ensures ExpectedEnvironment(system, procsPerNode, env, ambient)[AlProgress]
         == Resolve(env, ambient, AlProgress, Int((procsPerNode + 1) / 2))
    ensures AppendedArgs(system, procsPerNode, "lsf", hasGpu, coresPerNode)
         == ["--bind packed:" + IntToString(16 / ((procsPerNode + 1) / 2)), "--smpiargs=\"-gpu\""]
  {
    BranchesExclusive(system);
    Dispatch(system, procsPerNode, ambient);
    AlProgressNotMv2(ambient);
    ExpectedAt(system, procsPerNode, env, ambient, AlProgress);
  }

  lemma AlProgressNotMv2(ambient: Ambient)
    ensures AlProgress !in Mv2Defaults && AlProgress != LdLibraryPath
  {
  }

  lemma UserDbKey(ambient: Ambient)
    ensures "MIOPEN_USER_DB_PATH" in TiogaDefaults(ambient)
    ensures TiogaDefaults(ambient)["MIOPEN_USER_DB_PATH"] == Str(TmpDirText(ambient) + "/MIOpen_user_db")
    ensures "MIOPEN_USER_DB_PATH" !in Mv2Defaults && "MIOPEN_USER_DB_PATH" != LdLibraryPath
  {
  }

  /** With TMPDIR unset, the MIOpen paths default to ones under `None/`. */
  lemma MiopenPathsWithoutTmpdir(system: string, procsPerNode: nat, env: Environment, ambient: Ambient)
    requires IsTioga(system) && "TMPDIR" !in ambient
    requires "MIOPEN_USER_DB_PATH" !in env && "MIOPEN_USER_DB_PATH" !in ambient
    ensures "MIOPEN_USER_DB_PATH" in ExpectedEnvironment(system, procsPerNode, env, ambient)
    ensures ExpectedEnvironment(system, procsPerNode, env, ambient)["MIOPEN_USER_DB_PATH"]
         == Str("None" + "/MIOpen_user_db")
  {
    BranchesExclusive(system);
    Dispatch(system, procsPerNode, ambient);
    UserDbKey(ambient);
    ExpectedAt(system, procsPerNode, env, ambient, "MIOPEN_USER_DB_PATH");
  }
}
