/** The build script itself: the flag lists and the SM90 switch it updates in place, the
    capability set it fills, and the checks that run in order before the targets are built. */
module Configuration {
  import opened Outcomes
  import opened Strings
  import opened ArchList
  import opened NvccVersion
  import opened Toolchain
  import opened Gencode
  import opened Sources

  /** The checks that run before any capability flag is added, in the script's order: the
      architecture list (or the device probe when it is empty), the nvcc version, the
      "no GPUs" gate and the toolchain gate. On success, the capabilities and rejected tokens. */
  function Precheck(env: Option<string>, devices: seq<Device>, nvccOutput: string): (r: Result<ArchList>)
    ensures r.Ok? ==> Resolve(env, devices) == r
    ensures r.Ok? ==> r.value.archs != {} && forall c :: c in r.value.archs ==> |c| >= 3
    ensures r.Ok? ==> NvccCudaVersion(nvccOutput).Ok?
                      && CheckToolchain(NvccCudaVersion(nvccOutput).value, r.value.archs) == Pass
  {
    var resolved :- Resolve(env, devices);
    var version :- NvccCudaVersion(nvccOutput);
    if resolved.archs == {} then Err(NoGpusFound)
    else
      match CheckToolchain(version, resolved.archs)
      case Fail(e) => Err(e)
      case Pass => Ok(resolved)
  }

  /** The names the devices `ds` contribute. */
  ghost function NamesOf(ds: seq<Device>): set<string> {
    set d | d in ds :: CapabilityName(d)
  }

  lemma NamesOfOneMore(devices: seq<Device>, i: nat)
    requires i < |devices|
    ensures NamesOf(devices[..i + 1]) == NamesOf(devices[..i]) + {CapabilityName(devices[i])}
  {
    assert devices[..i + 1] == devices[..i] + [devices[i]];
  }

  /** Part way through a loop over `caps`: `order` lists, once each, the elements already
      taken, and `remaining` holds the others. */
  ghost predicate Visited(order: seq<string>, remaining: set<string>, caps: set<string>) {
    && remaining <= caps
    && (forall c :: c in order <==> c in caps && c !in remaining)
    && (forall i, j :: 0 <= i < j < |order| ==> order[i] != order[j])
  }

  /** After the loop has taken `order`, the flag lists are their starting values `cxx0` and
      `nvcc0` followed by what those capabilities append, and SM90 is on exactly when it
      started on or one of them is SM90. */
  ghost predicate FlagsFor(order: seq<string>, cxx0: seq<string>, nvcc0: seq<string>, sm900: bool,
                           cxx: seq<string>, nvcc: seq<string>, sm90: bool)
  {
    && Named(order)
    && nvcc == nvcc0 + GencodeAll(order)
    && cxx == cxx0 + Sm90Defines(order)
    && sm90 == (sm900 || exists c :: c in order && IsSm90(c))
  }

  lemma FlagsForStep(order: seq<string>, c: string, cxx0: seq<string>, nvcc0: seq<string>, sm900: bool,
                     cxx: seq<string>, nvcc: seq<string>, sm90: bool)
    requires FlagsFor(order, cxx0, nvcc0, sm900, cxx, nvcc, sm90) && |c| >= 3
    ensures FlagsFor(order + [c], cxx0, nvcc0, sm900,
                     cxx + Sm90Flags(c), nvcc + GencodeFlags(c), sm90 || IsSm90(c))
  {
    FlagLoopStep(order, c);
    Sm90SwitchStep(order, c, sm900, sm90);
    AppendStep(nvcc0, GencodeAll(order), GencodeFlags(c));
    AppendStep(cxx0, Sm90Defines(order), Sm90Flags(c));
  }

  lemma AppendStep(start: seq<string>, done: seq<string>, more: seq<string>)
    ensures start + done + more == start + (done + more)
  {
  }

  lemma Sm90SwitchStep(order: seq<string>, c: string, sm900: bool, sm90: bool)
    requires sm90 == (sm900 || exists x :: x in order && IsSm90(x))
    ensures (sm90 || IsSm90(c)) == (sm900 || exists x :: x in order + [c] && IsSm90(x))
  {
    assert forall x :: x in order + [c] <==> x in order || x == c;
  }

  lemma VisitedStep(order: seq<string>, remaining: set<string>, caps: set<string>, c: string)
    requires Visited(order, remaining, caps) && c in remaining
    ensures Visited(order + [c], remaining - {c}, caps)
  {
  }

  lemma VisitedAll(order: seq<string>, caps: set<string>)
    requires Visited(order, {}, caps)
    ensures IsEnumeration(order, caps)
  {
  }

  /** `targets` is what the script builds from the capabilities `caps` taken in the order
      `order`, the directory walks, and the flag lists `cxx0` and `nvcc0` it started from. */
  ghost predicate Built(caps: set<string>, sm80: seq<Entry>, sm89: seq<Entry>, sm90: seq<Entry>,
                        cxx0: seq<string>, nvcc0: seq<string>, order: seq<string>, targets: seq<Target>)
  {
    && IsEnumeration(order, caps)
    && Named(order)
    && targets == Targets(QattnSources(sm80, sm89, sm90, AnySm90(caps)),
                          cxx0 + Sm90Defines(order), nvcc0 + GencodeAll(order))
  }

  /** The checks run stage by stage and the first failing stage decides the error: the
      capability error, then the nvcc version error, then "No GPUs found", then the
      toolchain gate's error; when every stage passes, the result is the resolved list. */
  lemma PrecheckStages(env: Option<string>, devices: seq<Device>, nvccOutput: string)
    ensures var resolved, version := Resolve(env, devices), NvccCudaVersion(nvccOutput);
            var r := Precheck(env, devices, nvccOutput);
            && (resolved.Err? ==> r == Err(resolved.error))
            && (resolved.Ok? && version.Err? ==> r == Err(version.error))
            && (resolved.Ok? && version.Ok? && resolved.value.archs == {} ==> r == Err(NoGpusFound))
            && ((resolved.Ok? && version.Ok? && resolved.value.archs != {}
                 && CheckToolchain(version.value, resolved.value.archs).Fail?)
                ==> r == Err(CheckToolchain(version.value, resolved.value.archs).error))
            && ((resolved.Ok? && version.Ok? && resolved.value.archs != {}
                 && CheckToolchain(version.value, resolved.value.archs) == Pass)
                ==> r == resolved)
  {
  }

  /** "No GPUs found" is raised exactly when the variable is unset, no device is present and
      the nvcc version could be read: the version is read before the capability set is
      checked, so a broken nvcc output is reported first. */
  lemma PrecheckNoGpus(env: Option<string>, devices: seq<Device>, nvccOutput: string)
    ensures Precheck(env, devices, nvccOutput) == Err(NoGpusFound)
        <==> env.None? && devices == [] && NvccCudaVersion(nvccOutput).Ok?
    ensures env.None? && devices == [] && NvccCudaVersion(nvccOutput).Err? ==>
              Precheck(env, devices, nvccOutput) == Err(NvccCudaVersion(nvccOutput).error)
  {
    if env.Some? {
      ParseArchListOfSetVariable(env.value);
    } else {
      ResolveWithoutOverride(devices);
    }
  }

  /** A set variable never reaches the device probe or the "no GPUs" gate: the checks then
      depend only on the variable and the nvcc output. */
  lemma PrecheckWithOverride(value: string, d1: seq<Device>, d2: seq<Device>, nvccOutput: string)
    ensures Precheck(Some(value), d1, nvccOutput) == Precheck(Some(value), d2, nvccOutput)
    ensures Precheck(Some(value), d1, nvccOutput) != Err(NoGpusFound)
  {
    ResolveIgnoresDevicesWhenSet(value, d1, d2);
    PrecheckNoGpus(Some(value), d1, nvccOutput);
  }

  /** The order in which the capability set is walked changes nothing but the order of
      nvcc's -gencode pairs: names, sources, host flags and link flags are the same, and
      nvcc's flags are the same multiset. */
  lemma BuiltIgnoresOrder(caps: set<string>, sm80: seq<Entry>, sm89: seq<Entry>, sm90: seq<Entry>,
                          cxx0: seq<string>, nvcc0: seq<string>,
                          o1: seq<string>, t1: seq<Target>, o2: seq<string>, t2: seq<Target>)
    requires Built(caps, sm80, sm89, sm90, cxx0, nvcc0, o1, t1)
    requires Built(caps, sm80, sm89, sm90, cxx0, nvcc0, o2, t2)
    ensures |t1| == |t2| == 2
    ensures forall i :: 0 <= i < 2 ==>
              && t1[i].name == t2[i].name && t1[i].sources == t2[i].sources
              && t1[i].cxx == t2[i].cxx && t1[i].link == t2[i].link
              && multiset(t1[i].nvcc) == multiset(t2[i].nvcc)
  {
    EnumerationsArePermutations(o1, o2, caps);
    GencodeAllPermutation(o1, o2);
    var g1, g2 := GencodeAll(o1), GencodeAll(o2);
    assert multiset(nvcc0 + g1) == multiset(nvcc0) + multiset(g1);
    assert multiset(nvcc0 + g2) == multiset(nvcc0) + multiset(g2);
    TargetsAgree(QattnSources(sm80, sm89, sm90, AnySm90(caps)), cxx0 + Sm90Defines(o1), nvcc0 + g1, nvcc0 + g2);
  }

  lemma TargetsAgree(sources: seq<string>, cxx: seq<string>, n1: seq<string>, n2: seq<string>)
    requires multiset(n1) == multiset(n2)
    ensures var t1, t2 := Targets(sources, cxx, n1), Targets(sources, cxx, n2);
            forall i :: 0 <= i < 2 ==>
              && t1[i].name == t2[i].name && t1[i].sources == t2[i].sources
              && t1[i].cxx == t2[i].cxx && t1[i].link == t2[i].link
              && multiset(t1[i].nvcc) == multiset(t2[i].nvcc)
  {
  }

  /** The SM90 switch gates the sources: the SM90 kernel is compiled exactly when some
      capability is SM90, and otherwise nothing from the SM90 kernel or directory is. */
  lemma BuiltSm90Sources(caps: set<string>, sm80: seq<Entry>, sm89: seq<Entry>, sm90: seq<Entry>,
                         cxx0: seq<string>, nvcc0: seq<string>, order: seq<string>, targets: seq<Target>)
    requires Built(caps, sm80, sm89, sm90, cxx0, nvcc0, order, targets)
    requires Relative(sm80) && Relative(sm89)
    ensures Sm90Kernel in targets[0].sources <==> AnySm90(caps)
    ensures !AnySm90(caps) ==> forall p :: p in targets[0].sources ==> Sm90Free(p)
    ensures targets[1].sources == FusedSources
  {
    QattnSourcesSm90Gate(sm80, sm89, sm90, AnySm90(caps));
  }

  /** Both targets get the starting host flags followed by the SM90 define once per SM90
      capability, and nothing else. */
  lemma BuiltSm90Defines(caps: set<string>, sm80: seq<Entry>, sm89: seq<Entry>, sm90: seq<Entry>,
                         cxx0: seq<string>, nvcc0: seq<string>, order: seq<string>, targets: seq<Target>)
    requires Built(caps, sm80, sm89, sm90, cxx0, nvcc0, order, targets)
    ensures forall t :: t in targets ==>
              t.cxx == cxx0 + seq(|set c | c in caps && IsSm90(c)|, _ => Sm90Define)
  {
    Sm90DefinesOfEnumeration(order, caps);
  }

  /** nvcc's flags, for both targets, are the starting list followed by -gencode pairs, each
      naming a target of one of the capabilities. */
  lemma BuiltNvccShape(caps: set<string>, sm80: seq<Entry>, sm89: seq<Entry>, sm90: seq<Entry>,
                       cxx0: seq<string>, nvcc0: seq<string>, order: seq<string>, targets: seq<Target>)
    requires Built(caps, sm80, sm89, sm90, cxx0, nvcc0, order, targets)
    ensures forall t :: t in targets ==>
              && t.nvcc[..|nvcc0|] == nvcc0
              && PairedTargets(t.nvcc[|nvcc0|..], order)
  {
    var g := GencodeAll(order);
    GencodeAllShape(order);
    assert (nvcc0 + g)[..|nvcc0|] == nvcc0 && (nvcc0 + g)[|nvcc0|..] == g;
  }

  /** Counted in what the loop appends to nvcc's flags, architecture number `n` gets one
      binary pair per capability with that number and one PTX pair per such capability that
      asks for PTX. */
  lemma BuiltNvccCounts(caps: set<string>, sm80: seq<Entry>, sm89: seq<Entry>, sm90: seq<Entry>,
                        cxx0: seq<string>, nvcc0: seq<string>, order: seq<string>, targets: seq<Target>,
                        n: string)
    requires Built(caps, sm80, sm89, sm90, cxx0, nvcc0, order, targets)
    ensures multiset(targets[0].nvcc)[SmTarget(n)]
            == multiset(nvcc0)[SmTarget(n)] + |set c | c in caps && HasArch(c, n)|
    ensures multiset(targets[0].nvcc)[PtxTarget(n)]
            == multiset(nvcc0)[PtxTarget(n)] + |set c | c in caps && WantsPtx(c) && HasArch(c, n)|
  {
    var g := GencodeAll(order);
    assert multiset(nvcc0 + g) == multiset(nvcc0) + multiset(g);
    GencodeAllCounts(order, n);
    CountsOfEnumeration(order, caps, n);
  }

  lemma CountsOfEnumeration(order: seq<string>, caps: set<string>, n: string)
    requires IsEnumeration(order, caps)
    ensures CountArch(order, n) == |set c | c in caps && HasArch(c, n)|
    ensures CountPtxArch(order, n) == |set c | c in caps && WantsPtx(c) && HasArch(c, n)|
  {
    var arch: string -> bool := c => HasArch(c, n);
    var ptx: string -> bool := c => WantsPtx(c) && HasArch(c, n);
    CountWhereOfEnumeration(order, caps, arch);
    CountWhereOfEnumeration(order, caps, ptx);
    assert (set c | c in caps && arch(c)) == set c | c in caps && HasArch(c, n);
    assert (set c | c in caps && ptx(c)) == set c | c in caps && WantsPtx(c) && HasArch(c, n);
  }

  /** TORCH_CUDA_ARCH_LIST="8.0" with an nvcc that reports CUDA 12.1 (as the banner
      "Cuda compilation tools, release 12.1, V12.1.105" does): the checks pass with
      capability 8.0 and no rejected token, whatever the devices. */
  lemma PrecheckFor80With121(devices: seq<Device>, nvccOutput: string)
    requires NvccCudaVersion(nvccOutput) == Ok(Version(12, 1))
    ensures Precheck(Some("8.0"), devices, nvccOutput) == Ok(ArchList({"8.0"}, {}))
  {
    assert Resolve(Some("8.0"), devices) == Ok(ArchList({"8.0"}, {})) by {
      ParseOneSupported();
    }
    CheckToolchainOf80();
  }

  /** Building for capability 8.0 alone: one binary pair for sm_80, no SM90 define and no
      SM90 source. */
  lemma BuildFor80(sm80: seq<Entry>, sm89: seq<Entry>, sm90: seq<Entry>,
                   cxx0: seq<string>, nvcc0: seq<string>, order: seq<string>, targets: seq<Target>)
    requires Relative(sm80) && Relative(sm89)
    requires Built({"8.0"}, sm80, sm89, sm90, cxx0, nvcc0, order, targets)
    ensures targets[0].nvcc == nvcc0 + ["-gencode", SmTarget("80")]
    ensures targets[0].cxx == cxx0
    ensures Sm90Kernel !in targets[0].sources
  {
    EnumerationOfOne(order, "8.0");
    FlagsOfOne("8.0");
    assert !IsSm90("8.0");
    assert !WantsPtx("8.0") by { assert |"8.0"| < |"+PTX"|; }
    assert GencodeFlags("8.0") == ["-gencode", SmTarget(Digits("8.0"))];
    assert Digits("8.0") == "80";
    assert !AnySm90({"8.0"});
    BuiltSm90Sources({"8.0"}, sm80, sm89, sm90, cxx0, nvcc0, order, targets);
  }

  /** A device of capability 10.0 on the probe path passes the major-8 check. */
  lemma PrecheckTwoDigitMajor(nvccOutput: string)
    requires NvccCudaVersion(nvccOutput) == Ok(Version(12, 4))
    ensures Precheck(None, [Device(10, 0)], nvccOutput) == Ok(ArchList({"10.0"}, {}))
  {
    ResolveTenZero();
    CheckToolchainFrom124(Version(12, 4), {"10.0"});
  }

  lemma ResolveTenZero()
    ensures Resolve(None, [Device(10, 0)]) == Ok(ArchList({"10.0"}, {}))
  {
    NameOfTenZero();
    assert (set d | d in [Device(10, 0)] :: CapabilityName(d)) == {"10.0"};
  }

  lemma NameOfTenZero()
    ensures CapabilityName(Device(10, 0)) == "10.0"
  {
    assert NatToString(1) == "1" && NatToString(0) == "0";
    assert NatToString(10) == NatToString(1) + [DigitChar(0)];
  }

  /** Its flags take characters 0 and 2 of "10.0", so nvcc is asked for architecture "1.". */
  lemma BuildForTwoDigitMajor(sm80: seq<Entry>, sm89: seq<Entry>, sm90: seq<Entry>,
                              cxx0: seq<string>, nvcc0: seq<string>, order: seq<string>, targets: seq<Target>)
    requires Built({"10.0"}, sm80, sm89, sm90, cxx0, nvcc0, order, targets)
    ensures targets[0].nvcc == nvcc0 + ["-gencode", SmTarget("1.")]
  {
    EnumerationOfOne(order, "10.0");
    FlagsOfOne("10.0");
    assert !WantsPtx("10.0") by { assert "10.0"[0] != "+PTX"[0]; }
    assert Digits("10.0") == "1.";
    assert !IsSm90("10.0");
  }

  /** The script's module-level state: the two flag lists, the SM90 switch and the set of
      compute capabilities to build for. */
  class BuildConfig {
    var cxxFlags: seq<string>
    var nvccFlags: seq<string>
    var hasSm90: bool
    var capabilities: set<string>

    /** The base flag lists, each followed by the ABI define, no capability, SM90 off. */
    constructor (cxx11Abi: bool)
      ensures cxxFlags == BaseCxxFlags + [AbiDefine(cxx11Abi)]
      ensures nvccFlags == BaseNvccFlags + [AbiDefine(cxx11Abi)]
      ensures !hasSm90 && capabilities == {}
    {
      cxxFlags := BaseCxxFlags;
      nvccFlags := BaseNvccFlags;
      cxxFlags := cxxFlags + [AbiDefine(cxx11Abi)];
      nvccFlags := nvccFlags + [AbiDefine(cxx11Abi)];
      hasSm90 := false;
      capabilities := {};
    }

    /** The device probe: each device adds "major.minor"; the first device below major 8
        stops the script. */
    method ProbeDevices(devices: seq<Device>) returns (outcome: Outcome)
      modifies this`capabilities
      ensures outcome == (if Probe(devices).Ok? then Pass else Fail(CapabilityBelow80))
      ensures outcome.Pass? ==> capabilities == old(capabilities) + Probe(devices).value
    {
      ghost var start := capabilities;
      for i := 0 to |devices|
        invariant forall j :: 0 <= j < i ==> devices[j].major >= 8
        invariant capabilities == start + NamesOf(devices[..i])
      {
        var major, minor := devices[i].major, devices[i].minor;
        if major < 8 {
          assert Probe(devices).Err? by {
            assert 0 <= i < |devices| && devices[i].major < 8;
          }
          return Fail(CapabilityBelow80);
        }
        NamesOfOneMore(devices, i);
        capabilities := capabilities + {NatToString(major) + "." + NatToString(minor)};
      }
      assert devices[..|devices|] == devices;
      assert Probe(devices) == Ok(NamesOf(devices));
      return Pass;
    }

    /** One turn of the flag loop: the -gencode pair for the capability's binary target, a
        second pair for its PTX target when it ends in "+PTX", and for an SM90 capability the
        SM90 define and the SM90 switch. */
    method AddFlagsOf(capability: string)
      requires |capability| >= 3
      modifies this`cxxFlags, this`nvccFlags, this`hasSm90
      ensures nvccFlags == old(nvccFlags) + GencodeFlags(capability)
      ensures cxxFlags == old(cxxFlags) + Sm90Flags(capability)
      ensures hasSm90 == (old(hasSm90) || IsSm90(capability))
    {
      var num := [capability[0], capability[2]];
      if num == "90" {
        num := "90a";
        hasSm90 := true;
        cxxFlags := cxxFlags + [Sm90Define];
      }
      nvccFlags := nvccFlags + ["-gencode", "arch=compute_" + num + ",code=sm_" + num];
      if EndsWith(capability, "+PTX") {
        nvccFlags := nvccFlags + ["-gencode", "arch=compute_" + num + ",code=compute_" + num];
      }
    }

    /** The flag loop over the capability set, in whatever order the set yields them: each
        capability appends its -gencode pairs to nvcc's flags, and an SM90 one also appends
        the SM90 define to the host flags and switches SM90 on. */
    method AddCapabilityFlags() returns (ghost order: seq<string>)
      requires forall c :: c in capabilities ==> |c| >= 3
      modifies this`cxxFlags, this`nvccFlags, this`hasSm90
      ensures IsEnumeration(order, capabilities) && Named(order)
      ensures nvccFlags == old(nvccFlags) + GencodeAll(order)
      ensures cxxFlags == old(cxxFlags) + Sm90Defines(order)
      ensures hasSm90 == (old(hasSm90) || AnySm90(capabilities))
    {
      var caps := capabilities;
      var remaining := caps;
      ghost var cxx0, nvcc0, sm900 := cxxFlags, nvccFlags, hasSm90;
      order := [];
      while remaining != {}
        invariant Visited(order, remaining, caps)
        invariant FlagsFor(order, cxx0, nvcc0, sm900, cxxFlags, nvccFlags, hasSm90)
        decreases |remaining|
      {
        var capability :| capability in remaining;
        ghost var cxx1, nvcc1, sm901 := cxxFlags, nvccFlags, hasSm90;
        AddFlagsOf(capability);
        FlagsForStep(order, capability, cxx0, nvcc0, sm900, cxx1, nvcc1, sm901);
        VisitedStep(order, remaining, caps, capability);
        order := order + [capability];
        remaining := remaining - {capability};
      }
      VisitedAll(order, caps);
    }

    /** The architecture list, or the device probe when the list is empty: on success the
        capability set holds the resolved capabilities. */
    method ResolveCapabilities(env: Option<string>, devices: seq<Device>) returns (r: Result<ArchList>)
      requires capabilities == {}
      modifies this`capabilities
      ensures r == Resolve(env, devices)
      ensures r.Ok? ==> capabilities == r.value.archs
    {
      var parsed := ParseArchList(env);
      if parsed.Err? {
        return Err(parsed.error);
      }
      capabilities := parsed.value.archs;
      if capabilities == {} {
        var probed := ProbeDevices(devices);
        if probed.Fail? {
          return Err(probed.error);
        }
        assert capabilities == Probe(devices).value;
      } else {
        assert parsed.value == ArchList(capabilities, parsed.value.rejected);
      }
      return Ok(ArchList(capabilities, parsed.value.rejected));
    }

    /** The checks before the flag loop, in the script's order: resolve the capabilities,
        read the nvcc version, refuse an empty capability set, apply the toolchain gate. */
    method RunChecks(env: Option<string>, devices: seq<Device>, nvccOutput: string)
      returns (r: Result<ArchList>)
      requires capabilities == {}
      modifies this`capabilities
      ensures r == Precheck(env, devices, nvccOutput)
      ensures r.Ok? ==> capabilities == r.value.archs
    {
      var resolved := ResolveCapabilities(env, devices);
      PrecheckStages(env, devices, nvccOutput);
      if resolved.Err? {
        return Err(resolved.error);
      }
      var version := NvccCudaVersion(nvccOutput);
      if version.Err? {
        return Err(version.error);
      }
      if capabilities == {} {
        return Err(NoGpusFound);
      }
      var gate := CheckToolchain(version.value, capabilities);
      if gate.Fail? {
        return Err(gate.error);
      }
      return resolved;
    }

    /** The whole script after the flag lists are set up: the checks, then the capability
        flags and the two targets. `warned` holds the tokens the architecture list rejected
        with a warning. */
    method Run(env: Option<string>, devices: seq<Device>, nvccOutput: string,
               sm80: seq<Entry>, sm89: seq<Entry>, sm90: seq<Entry>)
      returns (r: Result<seq<Target>>, warned: set<string>, ghost order: seq<string>)
      requires capabilities == {} && !hasSm90
      modifies this
      ensures warned == (if ParseArchList(env).Ok? then ParseArchList(env).value.rejected else {})
      ensures r.Err? <==> Precheck(env, devices, nvccOutput).Err?
      ensures r.Err? ==> r.error == Precheck(env, devices, nvccOutput).error
      ensures r.Ok? ==> capabilities == Precheck(env, devices, nvccOutput).value.archs
      ensures r.Ok? ==> Built(capabilities, sm80, sm89, sm90, old(cxxFlags), old(nvccFlags), order, r.value)
      ensures r.Ok? ==> hasSm90 == AnySm90(capabilities)
    {
      order := [];
      ghost var pre := Precheck(env, devices, nvccOutput);
      var parsed := ParseArchList(env);
      warned := if parsed.Ok? then parsed.value.rejected else {};
      var checked := RunChecks(env, devices, nvccOutput);
      if checked.Err? {
        return Err(checked.error), warned, order;
      }
      var targets;
      targets, order := BuildTargets(sm80, sm89, sm90);
      r := Ok(targets);
    }

    /** The flag loop, then the qattn source list, with the SM90 kernel and instantiations
        only when the loop switched SM90 on, then the two targets over the final flag lists. */
    method BuildTargets(sm80: seq<Entry>, sm89: seq<Entry>, sm90: seq<Entry>)
      returns (targets: seq<Target>, ghost order: seq<string>)
      requires !hasSm90 && forall c :: c in capabilities ==> |c| >= 3
      modifies this`cxxFlags, this`nvccFlags, this`hasSm90
      ensures Built(capabilities, sm80, sm89, sm90, old(cxxFlags), old(nvccFlags), order, targets)
      ensures hasSm90 == AnySm90(capabilities)
    {
      order := AddCapabilityFlags();
      var sources := QattnBaseSources + GetInstantiations(Sm80Dir, sm80) + GetInstantiations(Sm89Dir, sm89);
      if hasSm90 {
        sources := sources + [Sm90Kernel];
        sources := sources + GetInstantiations(Sm90Dir, sm90);
      }
      assert sources == QattnSources(sm80, sm89, sm90, hasSm90);
      targets := Targets(sources, cxxFlags, nvccFlags);
    }
  }
}
