# SpargeAttn build configuration, modelled in Dafny

`setup.py` of SpargeAttn builds two CUDA extensions, `spas_sage_attn._qattn` and
`spas_sage_attn._fused`. Before it calls `setup()`, it runs a small, deterministic
configuration pass:

1. It resolves the compute capabilities to build for. The `TORCH_CUDA_ARCH_LIST`
   override comes first (`get_torch_arch_list`). When the override is unset, the script
   probes the local GPUs.
2. It reads the CUDA version from `nvcc -V`.
3. It refuses an empty capability set and a toolchain that is too old.
4. It appends one `-gencode` pair per capability to the nvcc flags, and the `-DHAS_SM90`
   define and the `HAS_SM90` switch for SM90 capabilities.
5. It assembles the qattn source list from the fixed kernels and the generated
   instantiation files. The SM90 sources are added only when `HAS_SM90` is on.
6. It builds the two targets over the shared flag lists.

The project models that pass. The modules follow the script's stages:

| module | file | models |
|---|---|---|
| `Outcomes` | outcomes.dfy | the script's `RuntimeError`s as an `Error` datatype, plus `Option`, `Result` and `Outcome` |
| `Strings` | strings.dfy | the Python string built-ins the script uses: `replace`, `split(sep)`, `split()`, `str(n)`, `startswith`, `endswith` and `os.path.join`, plus the reading of a decimal digit group that `packaging.version.parse` does |
| `ArchList` | arch_list.dfy | `get_torch_arch_list`, the device probe and how the two combine |
| `NvccVersion` | nvcc_version.dfy | how `get_nvcc_cuda_version` finds the version token, and the version it parses |
| `Toolchain` | toolchain.dfy | the CUDA 12.0 and 12.4 gates |
| `Gencode` | gencode.dfy | the base flag lists, the ABI define, and what each capability appends |
| `Sources` | sources.dfy | `get_instantiations`, the qattn source list and the two targets |
| `Configuration` | configuration.dfy | the module-level script |

In `Configuration`, the script's globals become the fields of class `BuildConfig`:

- `CXX_FLAGS` is `cxxFlags`.
- `NVCC_FLAGS` is `nvccFlags`.
- `HAS_SM90` is `hasSm90`.
- `compute_capabilities` is `capabilities`.

Its methods update those fields in place, as the script does:

- the constructor sets up the base lists and the ABI define;
- `ProbeDevices` is the device probe loop;
- `AddFlagsOf` is one turn of the flag loop, and `AddCapabilityFlags` is the whole loop;
- `ResolveCapabilities`, `RunChecks`, `Run` and `BuildTargets` sequence the stages.

Each method is proved against a function: `Probe`, `Resolve`, `Precheck`, `GencodeAll`,
`Sm90Defines`, `QattnSources` and `Targets`. Lemmas then state the script's properties
about those functions.

Python iterates over a set in an order that depends on string hashing. The flag loop
therefore picks each capability arbitrarily (`:|`), and it returns the order it used as a
ghost value. The properties of the flags are stated either for every such order or as
counts, which the model proves independent of the order.

Inputs that come from outside the script are parameters:

- the `TORCH_CUDA_ARCH_LIST` value, as an `Option<string>`;
- the devices' `(major, minor)` capabilities, as `seq<Device>`;
- the text `nvcc -V` prints;
- the value of `torch._C._GLIBCXX_USE_CXX11_ABI`, as a `bool`;
- for each instantiation directory, its recursive walk, as a sequence of
  `Entry(relPath, isFile, suffix)`.

Behaviour of `setup.py` worth noting:

- The discovered sources are not sorted. They stay in walk order.
- `-DHAS_SM90` is appended once per SM90 capability. With both `9.0` and `9.0+PTX` it
  appears twice (`Gencode.BothSm90Forms`).
- Both targets are always built, with the same flag lists, whatever the source list holds.
- The flag loop appends into the two shared lists in place, one capability at a time.
- A comma does not separate entries in the override, although the comment at
  setup.py:88-89 suggests it does (`ArchList.ParseCommaIsNotASeparator`).
- An override that is set but empty fails (`ArchList.ParseEmptyValue`). The `if not
  torch_arch_list` branch at setup.py:100-101 can never be taken, because `split` always
  returns at least one piece (`ArchList.TokensNonEmpty`).
- On the probe path a capability such as 10.0 is accepted. Its flags take characters 0 and
  2, so nvcc is asked for architecture `1.` (`Configuration.BuildForTwoDigitMajor`).

## Model

| member | source | states |
|---|---|---|
| Strings.Replace | setup.py:99 | `replace(" ", ";")`: same length, and every occurrence of the one character becomes the other |
| Strings.Split | setup.py:99 | `split(";")`: never empty, no piece holds the separator, and the first piece is a prefix that ends at the first separator |
| Strings.JoinSplit | setup.py:99 | the split loses nothing: joining the pieces with the separator gives back the string |
| Strings.SplitJoin | setup.py:84 | splitting a join of separator-free pieces gives back the pieces |
| Strings.Words | setup.py:82 | `split()` yields only non-empty words free of whitespace; its exact result on whitespace runs is stated by `WordsAfterSpace`, `WordsOfWordThenSpace` and `WordsOfLastWord` |
| Strings.WordsAfterSpace | setup.py:82 | leading whitespace, of any kind and length, adds no word |
| Strings.WordsOfWordThenSpace | setup.py:82 | a word followed by a non-empty whitespace run is the first word, and the rest is split on its own |
| Strings.WordsOfLastWord | setup.py:82 | a word followed only by whitespace splits into that one word |
| Strings.WordsJoinWords | setup.py:82 | splitting a space-joined list of words gives back the words |
| Strings.NatToString | setup.py:132 | `str(n)` is non-empty, all digits, one character long exactly when n < 10, and has no leading zero |
| Strings.DecimalValue | setup.py:84 | the value of a digit group is below 10 to the power of its length, and its last digit is the value's last decimal digit |
| Strings.DecimalValueOfNatToString | setup.py:132 | reading `str(n)` back as a decimal gives n |
| Strings.JoinPath | setup.py:45 | `os.path.join` keeps an absolute second part as it is; otherwise the result starts with the first part and ends with the second |
| ArchList.Tokens | setup.py:99 | no entry of the override holds a space or a semicolon |
| ArchList.ParseArchList | setup.py:87-119 | unset gives the empty set; accepted entries are valid architectures; an error names the variable's value |
| ArchList.TokensNonEmpty | setup.py:99-101 | a set override always has at least one entry, so the empty-list branch is dead |
| ArchList.ParseArchListOfSetVariable | setup.py:99-119 | with the variable set: an error exactly when no entry is valid; otherwise exactly the valid entries are accepted, exactly the others are warned about, and the result is never empty |
| ArchList.ParsedArchsAreCatalogEntries | setup.py:104-105 | every accepted entry is a supported architecture, optionally followed by "+PTX" |
| ArchList.InvalidBesideValidOnlyWarns | setup.py:107-119 | an invalid entry beside a valid one is only warned about: the parse succeeds, keeps the valid entry and rejects the invalid one |
| ArchList.CapabilityName | setup.py:132 | the name a device adds has at least the three characters the flag loop indexes |
| ArchList.Probe | setup.py:126-132 | fails with the "below 8.0" error exactly when some device has major below 8; otherwise the capabilities are exactly the devices' names |
| ArchList.Resolve | setup.py:122-132 | every resolved capability has at least three characters; its exact result is stated by `ResolveWithOverride` and `ResolveWithoutOverride` |
| ArchList.ResolveWithOverride | setup.py:122-123 | a set override resolves to exactly what `get_torch_arch_list` returns for it, error included |
| ArchList.ResolveIgnoresDevicesWhenSet | setup.py:122-123 | a set override never looks at the devices |
| ArchList.ResolveWithoutOverride | setup.py:123-132 | without the override: a device below major 8 is an error and nothing else is; otherwise the capabilities are exactly the devices' names, empty only when there is no device |
| ArchList.CapabilityNameInjective | setup.py:132 | different devices give different names |
| ArchList.ValidArchsListed | setup.py:104 | the ten valid entries, written out |
| ArchList.TokensOfJoin | setup.py:99 | a value that reads as entries joined by semicolons has exactly those entries |
| ArchList.ParseDeterminedByTokens | setup.py:99-119 | the parse of a set override depends on its entries alone |
| ArchList.ParseOneSupported | setup.py:99-119 | "8.0" is accepted with no warning |
| ArchList.ParseTwoSupported | setup.py:99-119 | "8.0;9.0" gives both entries with no warning |
| ArchList.ParseSupportedAndUnsupported | setup.py:99-119 | "8.0 7.5": a space separates entries, 8.0 is kept, 7.5 is warned about |
| ArchList.ParseOnlyUnsupported | setup.py:107-111 | "7.5" alone raises the "none supported" error |
| ArchList.ParseEmptyValue | setup.py:99-111 | a set but empty override raises the "none supported" error |
| ArchList.ParseCommaIsNotASeparator | setup.py:88-111 | "8.0,8.6" is one unsupported entry, so it raises |
| NvccVersion.IndexOf | setup.py:83 | `index`: no position exactly when the word is absent, otherwise the first position holding it |
| NvccVersion.CutAtComma | setup.py:84 | `split(",")[0]`: a comma-free prefix that ends at the first comma |
| NvccVersion.VersionToken | setup.py:82-84 | the token has no comma |
| NvccVersion.NvccCudaVersionWithoutRelease | setup.py:83 | output with no "release" word is an error |
| NvccVersion.VersionTokenAfterFirstRelease | setup.py:82-84 | the token is the word after the first "release", cut at its first comma; a "release" with no word after it is an error |
| NvccVersion.ParseVersion | setup.py:84 | a rejected token is named in the error |
| NvccVersion.ParseVersionOfRelease | setup.py:84 | "M.m" in decimal parses to version M.m |
| NvccVersion.ParseVersionRejectsNonDigits | setup.py:84 | a token holding any character other than digits and dots is rejected |
| NvccVersion.NvccCudaVersion | setup.py:75-85 | every failure is a missing "release", a missing token or an invalid version |
| NvccVersion.NvccCudaVersionOfReleaseLine | setup.py:80-85 | any output whose words are some words without "release", then "release", then "M.m," and more words yields version M.m |
| NvccVersion.NvccCudaVersionAcrossLines | setup.py:80-85 | "release", whitespace of any kind (newlines included), "M.m,", whitespace, another word and trailing whitespace yield version M.m |
| NvccVersion.NvccCudaVersionExample | setup.py:80-85 | the CUDA 12.1 banner "Cuda compilation tools, release 12.1, V12.1.105" yields 12.1 |
| Toolchain.CheckToolchain | setup.py:139-147 | every failure is one of the two toolchain errors |
| Toolchain.CheckToolchainPassesIff | setup.py:139-147 | the gate passes exactly when the version is at least 12.0 and, if it is below 12.4, no capability starts with "8.9" or "9.0" |
| Toolchain.CheckToolchainErrors | setup.py:139-147 | below 12.0 the global error; between 12.0 and 12.4 the 8.9 error exactly when some capability starts with "8.9", and the 9.0 error exactly when none does and some starts with "9.0" |
| Toolchain.CheckToolchainMonotone | setup.py:139-147 | a newer toolchain or fewer capabilities never turn a pass into a failure |
| Toolchain.CheckToolchainFrom124 | setup.py:139-147 | from 12.4 on the gate always passes |
| Toolchain.CheckToolchainOf80 | setup.py:139-147 | CUDA 12.1 passes the gate for capability 8.0 |
| Toolchain.CheckToolchainExamples | setup.py:139-147 | 11.8 fails for 8.0; 12.0 fails for 8.9; 12.2 fails for 9.0+PTX with the 9.0 error; 12.1 passes for 8.0 and 8.6+PTX; 12.4 passes for 8.9 and 9.0 |
| Gencode.AbiDefine | setup.py:66-69 | the ABI define is `-D_GLIBCXX_USE_CXX11_ABI=` followed by 1 when the C++11 ABI is on and by 0 otherwise |
| Gencode.Digits | setup.py:151 | the architecture digits are always two characters |
| Gencode.ArchNumber | setup.py:151-153 | digits "90" become "90a"; any other digits are kept |
| Gencode.GencodeFlags | setup.py:156-158 | one capability appends four nvcc flags when it ends in "+PTX", two otherwise |
| Gencode.Sm90Flags | setup.py:152-155 | one capability appends at most one host flag, the SM90 define, and does so exactly when it is SM90 |
| Gencode.GencodeAll | setup.py:150-158 | the loop appends two nvcc flags per capability and two more per "+PTX" capability |
| Gencode.FlagLoopStep | setup.py:150-158 | one more turn of the loop appends exactly that capability's nvcc flags and host flags |
| Gencode.Sm90Defines | setup.py:152-155 | the host flags the loop appends are the SM90 define, as many times as there are SM90 capabilities, and nothing else |
| Gencode.Sm90DefinesOfEnumeration | setup.py:150-155 | for any iteration order of the set, the host flags appended are the SM90 define repeated once per SM90 capability of the set |
| Gencode.FlagsOfOne | setup.py:150-158 | a single capability appends its own flags and nothing else |
| Gencode.EnumerationOfOne | setup.py:150 | a one-element set has only one iteration order |
| Gencode.SmTargetIsNotPtxTarget | setup.py:156-158 | a binary target never equals a PTX target |
| Gencode.TargetsInjective | setup.py:156-158 | each target string determines its architecture number |
| Gencode.ConcatMapAppend | setup.py:150-158 | the loop over a + b appends what the loop over a appends, then what the loop over b appends |
| Gencode.ConcatMapPermutation | setup.py:150-158 | reordering the loop only reorders what it appends (same multiset) |
| Gencode.GencodeFlagsCounts | setup.py:156-158 | one capability adds one binary pair for its number, a PTX pair only when it ends in "+PTX", and one "-gencode" per pair |
| Gencode.GencodeAllCounts | setup.py:150-158 | over any order: one binary target per capability with that number, one PTX target per such "+PTX" capability, and one "-gencode" per pair |
| Gencode.GencodeAllLength | setup.py:150-158 | the loop appends two flags per capability and two more per "+PTX" capability |
| Gencode.GencodeAllShape | setup.py:150-158 | the appended nvcc flags are pairs: "-gencode" at every even position, and a target of one of the capabilities at every odd position |
| Gencode.GencodeAllPermutation | setup.py:150-158 | two orders of the same capabilities give the same multiset of nvcc flags and identical host flags |
| Gencode.DistinctMultiplicity | setup.py:150 | each element of a duplicate-free order occurs once |
| Gencode.EnumerationsArePermutations | setup.py:150 | any two iteration orders of a set are permutations of each other |
| Gencode.CountWhereOfEnumeration | setup.py:150 | counting over an iteration order counts the set's members, whatever the order |
| Gencode.CountSm90OfEnumeration | setup.py:150-155 | the number of SM90 defines is the number of SM90 capabilities in the set |
| Gencode.BothSm90Forms | setup.py:150-158 | with 9.0 and 9.0+PTX, in either order: the SM90 define twice, the sm_90a pair twice and the compute_90a pair once |
| Sources.GetInstantiations | setup.py:41-48 | at most one path per walked entry |
| Sources.GetInstantiationsMembers | setup.py:44-48 | a path is listed exactly when it is some regular ".cu" entry rejoined under the directory |
| Sources.GetInstantiationsAppend | setup.py:44-48 | walk order is kept: walking a then b lists a's files, then b's |
| Sources.GetInstantiationsOfOne | setup.py:47 | an entry that is not a regular ".cu" file adds nothing; a ".cu" file adds exactly its rejoined path |
| Sources.GetInstantiationsUnder | setup.py:44-48 | every file found under a relative walk lies inside the walked directory |
| Sources.BaseSourcesSm90Free | setup.py:166-169 | the three fixed qattn files are not SM90 sources |
| Sources.UnderSm8xDirSm90Free | setup.py:170 | nothing under the sm80 or sm89 directory is an SM90 source |
| Sources.QattnSourcesLayout | setup.py:166-174 | the qattn list is the three fixed files, the sm80 files, the sm89 files and, only when HAS_SM90 is on, the SM90 kernel followed by the sm90 files |
| Sources.QattnSourcesSm90Gate | setup.py:166-174 | the SM90 kernel is listed exactly when HAS_SM90 is on, with all the sm90 instantiations after the SM90-free list; when it is off, no SM90 source is listed |
| Sources.Targets | setup.py:176-195 | two targets with the same host and nvcc flags; qattn compiles the given sources and links libcuda, and fused compiles its two fixed files with no link flags |
| Configuration.Precheck | setup.py:122-147 | on success: the resolved capabilities, which are non-empty and have three characters each, and a readable nvcc version that passes the toolchain gate; its exact result is stated by `PrecheckStages` |
| Configuration.PrecheckStages | setup.py:122-147 | the checks run in the script's order: a resolution error, else a version error, else "No GPUs found" for an empty set, else the gate's error; when every stage passes, the result is the resolved capabilities |
| Configuration.PrecheckNoGpus | setup.py:134-136 | "No GPUs found" exactly when the override is unset, there are no devices and the version could be read; a bad version is reported first |
| Configuration.PrecheckWithOverride | setup.py:122-136 | a set override makes the checks independent of the devices and never reaches "No GPUs found" |
| Configuration.FlagsForStep | setup.py:150-158 | one turn of the loop keeps the flag lists equal to their start followed by what the taken capabilities append, and keeps the SM90 switch |
| Configuration.VisitedAll | setup.py:150 | once nothing remains, the loop has taken each capability exactly once |
| Configuration.BuiltIgnoresOrder | setup.py:150-195 | the iteration order changes only the order of the nvcc flags: names, sources, host flags and link flags agree, and the nvcc flags are the same multiset |
| Configuration.BuiltSm90Sources | setup.py:150-174 | the SM90 kernel is compiled exactly when some capability is SM90; otherwise no SM90 source is; fused keeps its fixed files |
| Configuration.BuiltSm90Defines | setup.py:150-194 | both targets' host flags are the starting flags, then the SM90 define once per SM90 capability |
| Configuration.BuiltNvccShape | setup.py:150-194 | both targets' nvcc flags are the starting flags, then -gencode pairs, each naming a target of a capability |
| Configuration.BuiltNvccCounts | setup.py:150-158 | each architecture number gets one binary pair per capability with that number and one PTX pair per such "+PTX" capability |
| Configuration.PrecheckFor80With121 | setup.py:122-147 | override "8.0" with CUDA 12.1 passes the checks with capability 8.0 and no warning |
| Configuration.BuildFor80 | setup.py:150-174 | capability 8.0 alone adds one sm_80 pair, no SM90 define and no SM90 source |
| Configuration.PrecheckTwoDigitMajor | setup.py:122-147 | a 10.0 device on the probe path, with CUDA 12.4, passes the checks as "10.0" |
| Configuration.BuildForTwoDigitMajor | setup.py:151-156 | capability "10.0" asks nvcc for architecture "1." |
| Configuration.BuildConfig.constructor | setup.py:54-69 | the base flag lists, each followed by the ABI define; no capability; SM90 off |
| Configuration.BuildConfig.ProbeDevices | setup.py:126-132 | fails exactly when some device is below major 8; on success it adds exactly the devices' names to the capability set |
| Configuration.BuildConfig.AddFlagsOf | setup.py:151-158 | one turn: nvcc's flags grow by that capability's pairs, the host flags by its SM90 define, and the switch turns on for SM90 |
| Configuration.BuildConfig.AddCapabilityFlags | setup.py:150-158 | for the order the loop took, which lists each capability once: nvcc's flags are the old ones followed by that order's -gencode pairs, the host flags the old ones followed by its SM90 defines, and SM90 is on exactly when it was on or some capability is SM90 |
| Configuration.BuildConfig.ResolveCapabilities | setup.py:94-132 | returns `Resolve` of the inputs and, on success, leaves the capability set equal to the resolved capabilities |
| Configuration.BuildConfig.RunChecks | setup.py:94-147 | returns `Precheck` of the inputs and, on success, leaves the capability set equal to the checked capabilities |
| Configuration.BuildConfig.Run | setup.py:54-195 | fails exactly when the checks fail, with the same error; warns about exactly the rejected entries; on success the capabilities are the resolved ones, the targets are built from them and the starting flags, and SM90 is on exactly when some capability is SM90 |
| Configuration.BuildConfig.BuildTargets | setup.py:150-195 | the flag loop, then the source list gated on the switch, then the two targets over the final flags |

## Left out

- `run_instantiations` (setup.py:30-39) runs generator scripts through `os.system`. The
  files they produce are the walk entries given to the model.
- The foreign calls are parameters, not modelled code: `subprocess.check_output` of nvcc,
  `torch.cuda.device_count` and `get_device_capability`, and
  `torch._C._GLIBCXX_USE_CXX11_ABI`.
- The `CUDA_HOME` check (setup.py:71-73) is left out. It depends only on the environment.
- `Path.rglob` is left out. Each directory's walk is an input sequence of entries, and the
  model claims no order for it beyond keeping it.
- `setup()`, `CUDAExtension`, `BuildExtension` and the package metadata are packaging glue.
  A target is a plain record of name, sources, flags and link flags.
- The warning text is left out, and so is the error messages' wording. The model reports
  which tokens are warned about and which error is raised.
- The two targets share the flag list objects in Python. The model copies their values into
  both targets, which is the same thing once the list is no longer changed.
- Python's set iteration order is not modelled as any particular order. Every order is
  allowed, so the positions of the nvcc flags are stated only up to permutation.
- NvccVersion.ParseVersion: does not model all of PEP 440. It accepts only dot-separated
  decimal groups and keeps the first two. Pre-release, post-release, local and epoch parts
  are rejected. For the comparisons the script makes, against 12.0 and 12.4, dropping the
  third and later groups changes no outcome.
- Sources.GetInstantiations: its own contract gives only a length bound. Its meaning is
  stated by `GetInstantiationsMembers`, `GetInstantiationsAppend` and
  `GetInstantiationsOfOne`.
- A non-numeric device capability cannot be expressed. Devices are pairs of naturals, as
  the device query returns.
