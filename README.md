# LBANN launcher, CosmoFlow driver and pooling layer in Dafny

This project models three parts of the LBANN deep-learning toolkit and proves
properties of each.

- **LC batch-script launcher** (`make_batch_script` for the Livermore Computing
  systems). It copies the caller's launcher arguments and environment. It then
  applies the system-specific settings with the precedence "caller's value,
  then the process environment, then a built-in default". It prepends
  library directories to `LD_LIBRARY_PATH`. It computes Pascal CPU masks and
  Sierra core binding. It returns the arguments it would pass to the generic
  batch-script maker.
  Module `Launcher` (`launcher.dfy`).
- **CosmoFlow training driver**. It covers the three data-reader builders
  (synthetic, HDF5 directories and Python datasets) and the reader choice in
  the main block. It also covers the distconv mini-batch bump, the runtime
  environment, the LBANN arguments, the profiler command and the preamble
  commands.
  Module `Cosmoflow` (`cosmoflow.dfy`).
- **Pooling layer**. It covers the constructor (pool size, per-GPU mini-batch
  size), `setup` (output dimensions), the cuDNN descriptor arithmetic in
  `setup_gpu` (packed strides, mode mapping) and the CPU max-pooling kernels
  over the im2col matrix. The kernels are the forward maximum and the backward
  routing of the error signal to the first maximum.
  Module `Pooling` (`pooling.dfy`).

Shared modules:

- `Base`: Option and Result.
- `Arith`: Python floor division, C++ truncating division and the ceiling,
  with the bounds that define them.
- `Bits`: bit tests, `|`, `<<` and `2**k - 1` masks on natural numbers.
- `Text`: `str`, `hex`, `join`, `split`, `strip`, `in` on strings and
  `posixpath.join`.

Python's dynamic environment values are modelled by `Launcher.Value`, which
is either a string or an integer, because the launcher stores both.
`os.getenv`, `os.environ`, `system()`, `procs_per_node()`, `scheduler()`,
`has_gpu()` and `cores_per_node()` become parameters: the map `ambient` and
plain arguments. A Python exception is a `Failure`. Both `ZeroDivisionError`
and the `TypeError` from concatenating `None` are reachable from valid inputs.

The im2col matrix is the three-dimensional array `im2col[c, i, j]`. It holds
entry `i` of the pooling window of output position `j` in channel `c`, which
is row `c * pool_size + i` of the source's matrix. The activations and the
error signal are one sample's column, as an `array<int>` and a `seq<int>`.

Three places where this model follows the code rather than its description:

- The synthetic reader's description says widths that do not divide 512 are
  rejected. The guard only rejects widths above 512 and odd widths.
  `Cosmoflow.Width96Accepted` shows that 96 passes with factor 125, which
  covers fewer samples than 512³. A width of 0 passes the guard and divides
  by zero. The model returns `Failure(ZeroDivisionError)` for it instead of
  requiring a positive width, so every width is covered.
- `system in ('corona')` tests a substring, because `('corona')` is a
  string, not a tuple. `Launcher.CoronaMatchesSubstrings` shows that `""`,
  `"c"` and `"rona"` select the Corona branch and `"coronas"` does not.
- The distconv bump `int((nodes * procs_per_node) / depth_groups)` truncates.
  `Cosmoflow.DistconvBumpCanFallShort` shows that the bumped mini-batch can
  still be below `nodes * procs_per_node / depth_groups` (1, 4, 2, 5 gives 2,
  and 2·4 < 10).

## Model

| member | source | states |
|---|---|---|
| Launcher.SetEnvironment | python/lbann/contrib/lc/launcher.py:45-47 | only `key` is added; every key already set keeps its value; the new value is the caller's, else the process environment's, else the default |
| Launcher.SetEnvironmentFirstWins | python/lbann/contrib/lc/launcher.py:45-47 | a second `set_environment` of the same key changes nothing |
| Launcher.SetEnvironmentCommutes | python/lbann/contrib/lc/launcher.py:45-47 | `set_environment` calls on different keys commute |
| Launcher.Overlay | python/lbann/contrib/lc/launcher.py:45-47 | applying a table of defaults yields exactly the caller's keys plus the table's keys |
| Launcher.SetEnvironmentIsOverlay | python/lbann/contrib/lc/launcher.py:45-47 | one `set_environment` is the overlay of a one-entry table |
| Launcher.SetEnvironmentExtends | python/lbann/contrib/lc/launcher.py:45-47 | a `set_environment` after an overlay is the overlay of the extended table |
| Launcher.OverlayCompose | python/lbann/contrib/lc/launcher.py:45-47 | two overlays in a row are one overlay in which the earlier table wins |
| Launcher.PrependEnvironmentPath | python/lbann/contrib/lc/launcher.py:49-53 | fails with TypeError exactly when the key has no previous string value (caller's first, else the process environment); otherwise sets `prefix:previous` and leaves every other key alone |
| Launcher.PrependTwice | python/lbann/contrib/lc/launcher.py:49-53 | two prepends stack with the newest prefix first |
| Launcher.PrependedPathStep | python/lbann/contrib/lc/launcher.py:49-53 | prepending one more prefix to a joined path is the join with that prefix in front |
| Launcher.PreviousOverlay | python/lbann/contrib/lc/launcher.py:49-53 | overlaying defaults that do not mention a key leaves that key's previous value unchanged |
| Launcher.BranchesExclusive | python/lbann/contrib/lc/launcher.py:97-140 | the Tioga, Corona, Sierra and Pascal branches never select the same system name twice |
| Launcher.CoronaMatchesSubstrings | python/lbann/contrib/lc/launcher.py:114 | the Corona test is substring containment: `corona`, `rona`, `c` and the empty name pass, `coronas` fails |
| Launcher.RocmLibDirShape | python/lbann/contrib/lc/launcher.py:108 | the ROCm library directory is `ROCM_PATH` followed by `llvm/lib`, with exactly one separator after a non-empty path |
| Launcher.LdPathNotDefaulted | python/lbann/contrib/lc/launcher.py:96-173 | no default table sets `LD_LIBRARY_PATH`; it only changes through prepends |
| Launcher.Mv2KeysNotInTables | python/lbann/contrib/lc/launcher.py:89-173 | the MVAPICH2 keys appear in no system table |
| Launcher.PascalMasks | python/lbann/contrib/lc/launcher.py:79-81 | the loop yields max(1, procs_per_node) masks, the i-th being the first mask shifted by i·cores_per_proc |
| Launcher.PascalMaskBits | python/lbann/contrib/lc/launcher.py:79-81 | bit k of mask i is set exactly for k in process i's core range or in that range shifted up by two sockets |
| Launcher.PascalMasksDisjoint | python/lbann/contrib/lc/launcher.py:73-81 | different processes' Pascal masks share no bit |
| Launcher.CpuBindArgReadsBack | python/lbann/contrib/lc/launcher.py:82-83 | splitting the `--cpu_bind=mask_cpu:` list on commas gives one `0x` numeral per process, and each reads back to that process's mask |
| Launcher.HexHasNoComma | python/lbann/contrib/lc/launcher.py:82 | a `hex` numeral never contains the separator |
| Launcher.ConfigurePascal | python/lbann/contrib/lc/launcher.py:73-83 | fails with ZeroDivisionError exactly when procs_per_node is 0; otherwise sets the Aluminum progress ranks and, under slurm, appends the CPU-mask argument |
| Launcher.ConfigureMvapich | python/lbann/contrib/lc/launcher.py:89-94 | the environment is the overlay of the three MVAPICH2 defaults |
| Launcher.ConfigureMiopen | python/lbann/contrib/lc/launcher.py:100-104 | the environment is the overlay of the four MIOpen defaults, with paths under `TMPDIR` (the same four settings are at lines 129-133) |
| Launcher.PrependLdPrefixes | python/lbann/contrib/lc/launcher.py:105-111 | the branch's successive `prepend_environment_path` calls, in order: they fail with TypeError exactly when there is a prefix and no previous value; otherwise `LD_LIBRARY_PATH` is the prefixes newest-first, then the previous value |
| Launcher.ConfigureTioga | python/lbann/contrib/lc/launcher.py:97-111 | the environment is the Tioga table overlaid, then the Cray, ROCm and OFI-plugin prefixes; fails exactly when one of those is prepended onto nothing |
| Launcher.ConfigureCorona | python/lbann/contrib/lc/launcher.py:114-137 | the environment is the Corona table overlaid with the ROCm prefix; `-o pmi=pmix` is appended; failure is stated as for Tioga |
| Launcher.ConfigureSierra | python/lbann/contrib/lc/launcher.py:140-173 | fails with ZeroDivisionError exactly when procs_per_node is 0; sets `(ppn+1)//2` progress ranks and the fabric defaults; under lsf appends `--bind packed:<16//procs_per_socket>` and `--smpiargs="-gpu"` |
| Launcher.ConfigureSierraFabric | python/lbann/contrib/lc/launcher.py:162-173 | the environment is the overlay of the five fabric settings |
| Launcher.ConfigureCommon | python/lbann/contrib/lc/launcher.py:61-94 | `--mpibind=off` for slurm with GPUs, the Pascal settings and the MVAPICH2 settings, with failure exactly for Pascal with 0 processes per node |
| Launcher.Dispatch | python/lbann/contrib/lc/launcher.py:96-173 | for each system family, the default table and the prefixes chosen are that family's; other systems get none |
| Launcher.ConfigureSystem | python/lbann/contrib/lc/launcher.py:96-173 | the branch output for any system: appended arguments, overlaid branch table with the library prefixes, and the failure condition |
| Launcher.MakeBatchScript | python/lbann/contrib/lc/launcher.py:21-184 | fails exactly under `Fails`, with ZeroDivisionError exactly for Pascal or Sierra with 0 processes per node and TypeError otherwise; otherwise forwards procs_per_node and scheduler, appends `AppendedArgs` to the caller's arguments and returns `ExpectedEnvironment` |
| Launcher.ExpectedAt | python/lbann/contrib/lc/launcher.py:42-47 | every key other than `LD_LIBRARY_PATH` is present exactly when the caller or a default sets it, and holds the caller's value, else the process environment's, else the default |
| Launcher.CallerSettingsKept | python/lbann/contrib/lc/launcher.py:38-47 | a setting the caller passed (other than `LD_LIBRARY_PATH`) is returned unchanged |
| Launcher.LdLibraryPathResult | python/lbann/contrib/lc/launcher.py:105-135 | without prefixes `LD_LIBRARY_PATH` is the caller's; with prefixes it is the prefixes newest-first followed by the previous value |
| Launcher.Mvapich2AlwaysSet | python/lbann/contrib/lc/launcher.py:89-94 | on every system each MVAPICH2 key is set and follows the precedence rule |
| Launcher.UnknownSystem | python/lbann/contrib/lc/launcher.py:61-94 | a system outside every family never fails, gains exactly the three MVAPICH2 keys and at most `--mpibind=off` |
| Launcher.MpibindFirst | python/lbann/contrib/lc/launcher.py:61-62 | with slurm and a GPU system the first appended argument is `--mpibind=off` |
| Launcher.SierraSettings | python/lbann/contrib/lc/launcher.py:147-153 | Sierra sets `(ppn+1)//2` progress ranks by precedence and, under lsf, the two binding arguments |
| Launcher.UserDbKey | python/lbann/contrib/lc/launcher.py:103 | the Tioga table sets the MIOpen user database under `TMPDIR` |
| Launcher.MiopenPathsWithoutTmpdir | python/lbann/contrib/lc/launcher.py:102-103 | without `TMPDIR` the MIOpen user database path is `None/MIOpen_user_db`, the f-string of `None` |
| Cosmoflow.CreateSyntheticDataReader | applications/physics/cosmology/cosmoflow/train_cosmoflow.py:75-105 | fails with ValueError exactly for widths above 512 or odd, and with ZeroDivisionError for 0; otherwise three readers train, validate, test, shuffled except test, with base count times (512//w)³ |
| Cosmoflow.SampleFactorExact | applications/physics/cosmology/cosmoflow/train_cosmoflow.py:87 | the scaled volume never exceeds 512³, and equals it exactly when the width divides 512 |
| Cosmoflow.Width96Accepted | applications/physics/cosmology/cosmoflow/train_cosmoflow.py:85-87 | width 96 passes the guard with factor 125, covering less than 512³ |
| Cosmoflow.PowerOfTwoWidths | applications/physics/cosmology/cosmoflow/train_cosmoflow.py:85-87 | every power of two from 2 to 512 passes and covers exactly 512³ |
| Cosmoflow.SynthDimensionsReadBack | applications/physics/cosmology/cosmoflow/train_cosmoflow.py:101-102 | the synthetic dimension string splits on spaces into the four numbers, which read back to the responses and the width |
| Cosmoflow.CollectReaderArgs | applications/physics/cosmology/cosmoflow/train_cosmoflow.py:42-48 | one argument set per given path, in role order, with the `__none__` sentinel skipped for validate and test |
| Cosmoflow.CreateCosmoflowDataReader | applications/physics/cosmology/cosmoflow/train_cosmoflow.py:33-72 | one HDF5 reader per kept role, with the `<dir>/*.hdf5` pattern, the `full` and `unitPar` keys, the response count, shuffle except for test and no file name |
| Cosmoflow.Hdf5Roles | applications/physics/cosmology/cosmoflow/train_cosmoflow.py:43-48 | the roles are in train, validate, test order, and each appears exactly when its path is non-empty and not the sentinel (train has no sentinel test) |
| Cosmoflow.Hdf5Pattern | applications/physics/cosmology/cosmoflow/train_cosmoflow.py:49-51 | each reader's pattern is its own role's directory followed by `/*.hdf5` |
| Cosmoflow.CreatePythonDatasetReader | applications/physics/cosmology/cosmoflow/train_cosmoflow.py:17-31 | the loop keeps one dataset per non-empty role directory, renaming `val` to `validate` |
| Cosmoflow.PythonRoles | applications/physics/cosmology/cosmoflow/train_cosmoflow.py:21-26 | Python-dataset roles are ordered, each appears exactly when its directory is non-empty, and no kept directory is empty |
| Cosmoflow.SentinelOnlyInHdf5 | applications/physics/cosmology/cosmoflow/train_cosmoflow.py:23-47 | HDF5 selection is Python-dataset selection after dropping the `__none__` sentinel; the Python-dataset builder keeps a sentinel directory |
| Cosmoflow.DistconvMiniBatch | applications/physics/cosmology/cosmoflow/train_cosmoflow.py:266-271 | fails with ZeroDivisionError exactly when the bump divides by zero depth groups; unchanged unless distconv needs the bump; after a bump, the value is the truncated quotient `TruncDiv(nodes·procs_per_node, depth_groups)`: times depth_groups it is within one depth_groups of nodes·procs_per_node, never larger in magnitude and of the same sign |
| Cosmoflow.DistconvBumpGrows | applications/physics/cosmology/cosmoflow/train_cosmoflow.py:267-270 | with positive depth groups the bump never shrinks the mini-batch and is exact when the division is |
| Cosmoflow.DistconvBumpCanFallShort | applications/physics/cosmology/cosmoflow/train_cosmoflow.py:267-270 | 1, 4, 2 and 5 bump to 2, whose product with 4 is still below 10 |
| Cosmoflow.SetupDataReader | applications/physics/cosmology/cosmoflow/train_cosmoflow.py:320-332 | synthetic first, then Python dataset, then HDF5; only the synthetic builder can fail; I/O is serialised exactly for HDF5 |
| Cosmoflow.RuntimeEnvironment | applications/physics/cosmology/cosmoflow/train_cosmoflow.py:343-355 | adds `LBANN_KEEP_ERROR_SIGNALS` (0 when reclaiming, else 1) and, for distconv with DaCe, the JIT keys from the process environment or their defaults; every other key is kept |
| Cosmoflow.LbannArgs | applications/physics/cosmology/cosmoflow/train_cosmoflow.py:357-361 | `--use_data_store` exactly when neither synthetic nor no-datastore, otherwise `--num_io_threads=8`, followed by the profile arguments |
| Cosmoflow.ProfilerCmdAsWritten | applications/physics/cosmology/cosmoflow/train_cosmoflow.py:362-364 | fails exactly when no command was given; a blank command becomes None and any other is kept |
| Cosmoflow.ProfilerCmd | applications/physics/cosmology/cosmoflow/train_cosmoflow.py:362-364 | no command or a blank one gives None; any other is kept unchanged |
| Cosmoflow.ProfilerDefaultRaises | applications/physics/cosmology/cosmoflow/train_cosmoflow.py:244-248 | under the argument default None the code as written raises, while the corrected one gives None; the two agree on every given command |
| Cosmoflow.ProfilerCmdIdempotent | applications/physics/cosmology/cosmoflow/train_cosmoflow.py:364 | normalising the profiler command twice is normalising it once |
| Cosmoflow.PreambleCommands | applications/physics/cosmology/cosmoflow/train_cosmoflow.py:367-371 | no `--pre` gives no commands; otherwise each command stripped, with blanks dropped, in order |
| Cosmoflow.StrippedCommandsStripped | applications/physics/cosmology/cosmoflow/train_cosmoflow.py:368 | every kept command is non-empty and neither starts nor ends with whitespace |
| Cosmoflow.StrippedCommandsMembers | applications/physics/cosmology/cosmoflow/train_cosmoflow.py:368 | a command is kept (stripped) exactly when it is not all whitespace |
| Cosmoflow.StrippedCommandsAppend | applications/physics/cosmology/cosmoflow/train_cosmoflow.py:368 | cleaning distributes over concatenation, so order is preserved |
| Cosmoflow.StrippedCommandsIdempotent | applications/physics/cosmology/cosmoflow/train_cosmoflow.py:368 | cleaning cleaned commands changes nothing |
| Text.IntToStringRoundTrip | applications/physics/cosmology/cosmoflow/train_cosmoflow.py:101-102 | `str` of an integer reads back to that integer |
| Text.HexRoundTrip | python/lbann/contrib/lc/launcher.py:82 | `hex(n)` is `0x` followed by a base-16 numeral that reads back to n |
| Text.SplitJoin | python/lbann/contrib/lc/launcher.py:82 | joining on a separator no part contains is undone by splitting on it |
| Text.StripSpec | applications/physics/cosmology/cosmoflow/train_cosmoflow.py:364 | the stripped string neither starts nor ends with whitespace, and only whitespace was cut off |
| Text.StripEmpty | applications/physics/cosmology/cosmoflow/train_cosmoflow.py:364 | a string strips to `''` exactly when it is all whitespace |
| Text.StripIdempotent | applications/physics/cosmology/cosmoflow/train_cosmoflow.py:368 | stripping twice is stripping once |
| Text.SubstringAt | python/lbann/contrib/lc/launcher.py:114 | a string occurring at any offset is found by `in` |
| Text.SubstringOffset | python/lbann/contrib/lc/launcher.py:114 | conversely, a string found by `in` occurs at some offset |
| Text.PathJoin | python/lbann/contrib/lc/launcher.py:108 | an absolute second part replaces the first; otherwise exactly one `/` is put between a non-empty first part that lacks one and the second |
| Arith.FloorDiv | python/lbann/contrib/lc/launcher.py:74-75 | Python `//`: the quotient times the divisor is at most the dividend and within one divisor of it, for either divisor sign |
| Arith.TruncDiv | include/lbann/layers/transform/pooling.hpp:166-167 | C++ `/`: the product is within one divisor of the dividend, never larger in magnitude, and never of the opposite sign |
| Arith.TruncCeilIdiom | include/lbann/layers/transform/pooling.hpp:114-115 | `(a + b - 1) / b` is the ceiling of a/b whenever the numerator is not negative |
| Arith.CeilDivNested | include/lbann/layers/transform/pooling.hpp:113-115 | rounding up by the processes and then by the GPUs is rounding up by their product |
| Bits.BitOrBit | python/lbann/contrib/lc/launcher.py:79 | a bit of `a \| b` is set exactly when it is set in a or in b |
| Bits.BitShift | python/lbann/contrib/lc/launcher.py:79-81 | bit k of `a << s` is bit k-s of a, and clear below s |
| Bits.BitLowMask | python/lbann/contrib/lc/launcher.py:79 | `2**c - 1` has exactly the bits below c |
| Pooling.ProductAppend | include/lbann/layers/transform/pooling.hpp:90-93 | the product of two concatenated lists is the product of their products |
| Pooling.ProductPositive | include/lbann/layers/transform/pooling.hpp:90-93 | a list of positive dimensions has a positive product |
| Pooling.PoolingLayer.constructor | include/lbann/layers/transform/pooling.hpp:70-119 | keeps the first num_data_dims window dimensions, pads and strides; pool size is their product; with cuDNN, per-GPU mini-batch is the nested ceiling |
| Pooling.PerGpuMiniBatch | include/lbann/layers/transform/pooling.hpp:113-115 | for a non-negative mini-batch it is the ceiling of mini-batch over processes·GPUs: the fewest columns per GPU that cover the mini-batch |
| Pooling.OutputDim | include/lbann/layers/transform/pooling.hpp:164-167 | with a positive stride the output dimension is the ceiling of effective dimension over stride whenever the numerator is not negative |
| Pooling.OutputDimCountsWindows | include/lbann/layers/transform/pooling.hpp:164-167 | when a window fits, it is the number of window positions: the last one fits inside the padded input and one more would not |
| Pooling.OutputDimNoWindow | include/lbann/layers/transform/pooling.hpp:164-167 | when no window fits, it is at most 0, and exactly 0 unless the window overshoots by a whole stride |
| Pooling.OutputDims | include/lbann/layers/transform/pooling.hpp:160-168 | keeps the channel count and gives each spatial dimension its `OutputDim` |
| Pooling.PoolingLayer.Setup | include/lbann/layers/transform/pooling.hpp:156-172 | the loop sets the neuron dimensions to `OutputDims` and the neuron count to their product; the pooling parameters are unchanged |
| Pooling.NeuronsPerChannel | include/lbann/layers/transform/pooling.hpp:382-383 | the neuron count is channels times the spatial product, so the per-channel division is exact |
| Pooling.PerChannelFits | include/lbann/layers/transform/pooling.hpp:382-386 | channels times the truncated per-channel count never exceeds the neuron count, so the kernel rows fit the activations |
| Pooling.PackedStrides | include/lbann/layers/transform/pooling.hpp:201-205 | the backward loop gives the last stride 1, each stride the next times the next dimension, which is the suffix products |
| Pooling.SuffixProductsStep | include/lbann/layers/transform/pooling.hpp:201-205 | the suffix products end in 1 and satisfy the stride recurrence |
| Pooling.StridesCoverTensor | include/lbann/layers/transform/pooling.hpp:201-205 | the outermost stride times the outermost dimension is the element count |
| Pooling.SuffixProductsTail | include/lbann/layers/transform/pooling.hpp:252-256 | dropping the outermost dimension drops the outermost stride and leaves the rest |
| Pooling.SuffixProductsBatch | include/lbann/layers/transform/pooling.hpp:198-205 | putting the mini-batch in front adds one stride, the per-sample size, and keeps the per-sample strides |
| Pooling.CudnnMode | include/lbann/layers/transform/pooling.hpp:214-223 | every mode except an unknown one maps to a cuDNN mode; the unknown one raises "no GPU implementation" |
| Pooling.ModeSupport | include/lbann/layers/transform/pooling.hpp:214-223 | every CPU mode has a GPU mode, average-without-padding is the only GPU-only mode, and the mapping is injective |
| Pooling.PoolingLayer.SetupGpu | include/lbann/layers/transform/pooling.hpp:197-256 | fails exactly for an unknown mode; otherwise the input and output descriptors are the per-GPU mini-batch in front of the dimensions, with packed strides whose tail is the per-sample strides |
| Pooling.SeqMax | include/lbann/layers/transform/pooling.hpp:409-412 | the maximum bounds every window entry and is one of them |
| Pooling.WindowMax | include/lbann/layers/transform/pooling.hpp:408-412 | the running maximum from −∞ over the window is the window's maximum |
| Pooling.OutputIndex | include/lbann/layers/transform/pooling.hpp:413 | `j + c * num_per_output_channel` stays inside the channels·positions rows |
| Pooling.OutputIndexInjective | include/lbann/layers/transform/pooling.hpp:413 | distinct (channel, position) pairs have distinct rows, so no output is written twice |
| Pooling.MaxPoolForward | include/lbann/layers/transform/pooling.hpp:403-416 | every output row holds its window's maximum; rows beyond the windows are untouched |
| Pooling.PoolingLayer.FpComputeIm2col | include/lbann/layers/transform/pooling.hpp:369-416 | fails exactly for a mode other than max and average and then writes nothing; in max mode each output is its window's maximum and the rows beyond the windows are untouched |
| Pooling.FirstMaxIndexIsFirstMax | include/lbann/layers/transform/pooling.hpp:487-496 | the strict `>` scan keeps the first position that holds the maximum; every earlier entry is smaller |
| Pooling.FirstMaxIndexUnique | include/lbann/layers/transform/pooling.hpp:487-496 | the first position holding the maximum is the one the scan returns |
| Pooling.RoutedConservesError | include/lbann/layers/transform/pooling.hpp:487-499 | a routed window sums to the error signal and is non-zero only where the input held the maximum |
| Pooling.RouteWindow | include/lbann/layers/transform/pooling.hpp:486-499 | the window is cleared and gets the error at its first maximum; all other windows are untouched |
| Pooling.MaxPoolBackward | include/lbann/layers/transform/pooling.hpp:484-501 | every window becomes its routed error signal, taken from that window's own output row |
| Pooling.PoolingLayer.BpComputeIm2col | include/lbann/layers/transform/pooling.hpp:442-501 | fails exactly for a mode other than max and average and then leaves the matrix alone; in max mode each window gets its error at its first maximum |

## Left out

- The deprecated `run` wrapper (launcher.py:6-19) only forwards to another module's function, which is not part of this model.
- `lbann.launcher.make_batch_script` (launcher.py:177-184): the model returns the procs_per_node, scheduler, launcher arguments and environment that would be passed to it, as `Launcher.BatchScript`.
- `make_iterable` and the shallow copies (launcher.py:38-40): Dafny values are immutable, so the caller's list and map are never changed.
- The `lbann.contrib.lc.systems` functions, `os.getenv` and `os.environ.get` become parameters, as described above.
- Launcher.MakeBatchScript: `procs_per_node` is a natural number, so a negative value is not modelled; the Python code accepts one.
- Argument parsing (train_cosmoflow.py:108-262) is left out: the parsed options are parameters. As written, lines 146-147 have no comma between the `type=` lambda and `default=None`, so the file does not parse. The `"None"`-to-None conversion intended there is what the `Option<string>` directory parameters are.
- The model, trainer, optimizer and callbacks, `get_parallel_strategy_args`, `get_distconv_environment`, `get_profile_args`, `get_scheduler_kwargs`, the random seed argument and `lbann.contrib.launcher.run` in train_cosmoflow.py are calls into code that is not part of this model. The distconv environment and the profile arguments are parameters.
- `CosmoFlowDataset` and `construct_python_dataset_reader` (train_cosmoflow.py:27-28) are not part of this model. Each Python-dataset reader is represented by its role and directory.
- `os.path.abspath(os.path.dirname(__file__))` (train_cosmoflow.py:353) is the parameter `applicationPath`.
- Protocol-buffer messages are records; the `validation_fraction` and `fraction_of_data_to_use` floats are kept as Dafny reals.
- The `print` warnings at train_cosmoflow.py:268-271 are output only.
- Cosmoflow.DistconvMiniBatch: `int((nodes * procs_per_node) / depth_groups)` divides in floating point. The model uses exact truncating integer division, so it does not capture the rounding that can change the result once the product exceeds 2^53.
- Pooling arithmetic uses unbounded integers: 32-bit `int` overflow in products and strides is not modelled.
- `DataType` is modelled as `int`: NaN and other floating-point behaviour are not modelled, and `-INFINITY` is the empty running maximum (`None`).
- Pooling.MaxPoolForward: requires a pool size of at least 1. With an empty window the source writes `-INFINITY`, which has no integer value.
- Pooling.PoolingLayer.FpComputeIm2col: requires a pool size of at least 1, for the same reason as `Pooling.MaxPoolForward`.
- Pooling.MaxPoolBackward: requires a pool size of at least 1. With m_pool_size 0 the source (pooling.hpp:486-498) still writes the error signal at `max_index = 0`, which lies outside the empty window; the model does not capture that write.
- Pooling.PoolingLayer.BpComputeIm2col: requires a pool size of at least 1, for the same reason as `Pooling.MaxPoolBackward`.
- Pooling.PoolingLayer.FpComputeIm2col: states nothing about average mode (pooling.hpp:420-435), whose division needs floating point.
- Pooling.PoolingLayer.BpComputeIm2col: states nothing about average mode (pooling.hpp:506-519), for the same reason.
- `im2col` and `col2im` are defined in a header that is not part of this model. With the loop over samples (pooling.hpp:389-400, 463-477, 524-531) they are left out: the kernels take one sample's im2col matrix as given.
- The `#pragma omp parallel for` loops are modelled sequentially. Their iterations write disjoint windows or rows (`Pooling.OutputIndexInjective`, the frame of `Pooling.RouteWindow`).
- cuDNN calls, descriptor creation and destruction, the destructor (pooling.hpp:121-148), GPU memory and the cuDNN forward and backward paths (pooling.hpp:305-366) are foreign library calls and are left out. `setup_gpu` is modelled up to the descriptor values.
- The `LBANN_DEBUG` check of cuDNN's output dimensions (pooling.hpp:234-247) queries cuDNN. The model follows the non-debug branch (lines 248-250).
- The `#ifndef __LIB_CUDNN` throw in `setup_gpu`: the layer's GPU methods require `usingGpus`.
- `get_num_gpus` and `get_procs_per_model` are the `GpuInfo` parameter of the constructor.
- `Zeros` on the activations (pooling.hpp:182), `Layer::setup` and `initialize_distributed_matrices` belong to the base layer, which is not part of this model.
- The `fp_compute` and `bp_compute` dispatch (pooling.hpp:286-300) selects the cuDNN path or the im2col path by `m_using_gpus`; only the im2col path is modelled.
- Pooling.PoolingLayer.Setup: requires non-zero strides. A zero stride is undefined behaviour in the source.

## Findings

| source | as written | input that shows it | evidently intended | confidence | as-written member | corrected member |
|---|---|---|---|---|---|---|
| applications/physics/cosmology/cosmoflow/train_cosmoflow.py:362-364 | `profiler_cmd.strip()` is called on the value of `--profiler-cmd`, whose default is None | running the script without `--profiler-cmd` raises AttributeError on `None.strip()` | an absent profiler command means no profiler, like a blank one | high, not executed | Cosmoflow.ProfilerCmdAsWritten | Cosmoflow.ProfilerCmd |
