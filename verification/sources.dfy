/** The source lists of the two extension targets: the CUDA files found under the
    generated-instantiation directories, the fixed kernel files, and the targets themselves. */
module Sources {
  import opened Strings

  /** One entry of the recursive walk of a directory: its path relative to the walked
      directory, whether it is a regular file, and its final suffix (".cu" for "a/b.cu"). */
  datatype Entry = Entry(relPath: string, isFile: bool, suffix: string)

  predicate IsCudaSource(e: Entry) {
    e.isFile && e.suffix == ".cu"
  }

  /** Every entry names a path relative to the walked directory (none starts with "/"). */
  predicate Relative(entries: seq<Entry>) {
    forall e :: e in entries ==> !StartsWith(e.relPath, "/")
  }

  /** The regular ".cu" files of a walk, each rejoined under `srcDir`, in walk order. */
  function GetInstantiations(srcDir: string, entries: seq<Entry>): (paths: seq<string>)
    ensures |paths| <= |entries|
  {
    if entries == [] then []
    else
      var e := entries[|entries| - 1];
      GetInstantiations(srcDir, entries[..|entries| - 1])
      + (if IsCudaSource(e) then [JoinPath(srcDir, e.relPath)] else [])
  }

  /** A path is found exactly when it is some regular ".cu" entry rejoined under `srcDir`. */
  lemma {:induction false} GetInstantiationsMembers(srcDir: string, entries: seq<Entry>)
    ensures forall p :: p in GetInstantiations(srcDir, entries) ==>
              exists e :: e in entries && IsCudaSource(e) && p == JoinPath(srcDir, e.relPath)
    ensures forall e :: e in entries && IsCudaSource(e) ==>
              JoinPath(srcDir, e.relPath) in GetInstantiations(srcDir, entries)
    decreases |entries|
  {
    if entries != [] {
      var init, e := entries[..|entries| - 1], entries[|entries| - 1];
      GetInstantiationsMembers(srcDir, init);
      assert forall x :: x in init ==> x in entries;
      assert forall x :: x in entries ==> x in init || x == e;
    }
  }

  /** The walk's order is kept: walking `a` then `b` gives `a`'s files, then `b`'s. */
  lemma {:induction false} GetInstantiationsAppend(srcDir: string, a: seq<Entry>, b: seq<Entry>)
    ensures GetInstantiations(srcDir, a + b) == GetInstantiations(srcDir, a) + GetInstantiations(srcDir, b)
    decreases |b|
  {
    if b == [] {
      assert a + b == a;
    } else {
      var b' := b[..|b| - 1];
      assert (a + b)[..|a + b| - 1] == a + b';
      assert (a + b)[|a + b| - 1] == b[|b| - 1];
      GetInstantiationsAppend(srcDir, a, b');
    }
  }

  /** Only regular ".cu" files count: adding any other entry changes nothing, and a ".cu"
      file adds exactly its rejoined path. */
  lemma GetInstantiationsOfOne(srcDir: string, entries: seq<Entry>, e: Entry)
    ensures GetInstantiations(srcDir, entries + [e])
         == GetInstantiations(srcDir, entries)
            + (if IsCudaSource(e) then [JoinPath(srcDir, e.relPath)] else [])
  {
    assert (entries + [e])[..|entries|] == entries;
  }

  /** Every file found under a relative walk of `srcDir` lies inside `srcDir`. */
  lemma GetInstantiationsUnder(srcDir: string, entries: seq<Entry>)
    requires srcDir != [] && !EndsWith(srcDir, "/") && Relative(entries)
    ensures forall p :: p in GetInstantiations(srcDir, entries) ==> StartsWith(p, srcDir + "/")
  {
    GetInstantiationsMembers(srcDir, entries);
    forall p | p in GetInstantiations(srcDir, entries) ensures StartsWith(p, srcDir + "/") {
      var e :| e in entries && IsCudaSource(e) && p == JoinPath(srcDir, e.relPath);
      assert p == srcDir + "/" + e.relPath;
      assert p[..|srcDir + "/"|] == srcDir + "/";
    }
  }

  const Sm80Dir: string := "csrc/qattn/instantiations_sm80"
  const Sm89Dir: string := "csrc/qattn/instantiations_sm89"
  const Sm90Dir: string := "csrc/qattn/instantiations_sm90"

  /** The qattn files always compiled, in this order. */
  const QattnBaseSources: seq<string> := [
    "csrc/qattn/pybind.cpp",
    "csrc/qattn/qk_int_sv_f16_cuda_sm80.cu",
    "csrc/qattn/qk_int_sv_f8_cuda_sm89.cu"
  ]

  /** The SM90 kernel, compiled only when some capability is SM90. */
  const Sm90Kernel: string := "csrc/qattn/qk_int_sv_f8_cuda_sm90.cu"

  const FusedSources: seq<string> := ["csrc/fused/pybind.cpp", "csrc/fused/fused.cu"]

  /** The qattn source list: the fixed files, the sm80 and sm89 instantiations, then, when
      `hasSm90`, the SM90 kernel and the sm90 instantiations. */
  function QattnSources(sm80: seq<Entry>, sm89: seq<Entry>, sm90: seq<Entry>, hasSm90: bool): (sources: seq<string>)
  {
    QattnBaseSources + GetInstantiations(Sm80Dir, sm80) + GetInstantiations(Sm89Dir, sm89)
    + (if hasSm90 then [Sm90Kernel] + GetInstantiations(Sm90Dir, sm90) else [])
  }

  /** The layout of the qattn list: the fixed files, the sm80 then the sm89 instantiations
      in walk order, and, only when `hasSm90`, the SM90 kernel followed by the sm90
      instantiations. */
  lemma QattnSourcesLayout(sm80: seq<Entry>, sm89: seq<Entry>, sm90: seq<Entry>, hasSm90: bool)
    ensures var sources := QattnSources(sm80, sm89, sm90, hasSm90);
            var i80, i89, i90 := GetInstantiations(Sm80Dir, sm80), GetInstantiations(Sm89Dir, sm89),
                                 GetInstantiations(Sm90Dir, sm90);
            var n := |QattnBaseSources| + |i80| + |i89|;
            && |sources| == n + (if hasSm90 then 1 + |i90| else 0)
            && sources[..|QattnBaseSources|] == QattnBaseSources
            && sources[|QattnBaseSources|..|QattnBaseSources| + |i80|] == i80
            && sources[|QattnBaseSources| + |i80|..n] == i89
            && (hasSm90 ==> sources[n] == Sm90Kernel && sources[n + 1..] == i90)
  {
  }

  /** `p` is neither the SM90 kernel nor anything under the sm90 instantiation directory. */
  predicate Sm90Free(p: string) {
    !StartsWith(p, Sm90Dir + "/") && p != Sm90Kernel
  }

  lemma BaseSourcesSm90Free()
    ensures forall p :: p in QattnBaseSources ==> Sm90Free(p)
  {
    var k := Sm90Dir + "/";
    assert |k| == 31 && k[11] == 'i';
    assert QattnBaseSources[0][11] == 'p' && QattnBaseSources[0] != Sm90Kernel;
    assert QattnBaseSources[1][11] == 'q' && QattnBaseSources[1][23] != Sm90Kernel[23];
    assert QattnBaseSources[2][11] == 'q' && QattnBaseSources[2][31] != Sm90Kernel[31];
  }

  /** A path under the sm80 or sm89 directory is not an SM90 source: the directories differ
      in their 29th character. */
  lemma UnderSm8xDirSm90Free(p: string, dir: string)
    requires dir == Sm80Dir || dir == Sm89Dir
    requires StartsWith(p, dir + "/")
    ensures Sm90Free(p)
  {
    assert p[28] == (dir + "/")[28] == '8';
    assert (Sm90Dir + "/")[28] == '9';
    assert Sm90Kernel[28] == '_';
  }

  /** The SM90 sources are gated on `hasSm90`: with it, the kernel and every sm90
      instantiation are in the list and the list extends the one without them; without it,
      nothing from the SM90 kernel or directory is in the list. */
  lemma QattnSourcesSm90Gate(sm80: seq<Entry>, sm89: seq<Entry>, sm90: seq<Entry>, hasSm90: bool)
    requires Relative(sm80) && Relative(sm89)
    ensures var sources := QattnSources(sm80, sm89, sm90, hasSm90);
            && (Sm90Kernel in sources <==> hasSm90)
            && (hasSm90 ==> forall p :: p in GetInstantiations(Sm90Dir, sm90) ==> p in sources)
            && (!hasSm90 ==> forall p :: p in sources ==> Sm90Free(p))
            && QattnSources(sm80, sm89, sm90, false) <= sources
  {
    var i80, i89 := GetInstantiations(Sm80Dir, sm80), GetInstantiations(Sm89Dir, sm89);
    var base := QattnBaseSources + i80 + i89;
    GetInstantiationsUnder(Sm80Dir, sm80);
    GetInstantiationsUnder(Sm89Dir, sm89);
    BaseSourcesSm90Free();
    forall p | p in base ensures Sm90Free(p) {
      if p in i80 {
        UnderSm8xDirSm90Free(p, Sm80Dir);
      } else if p in i89 {
        UnderSm8xDirSm90Free(p, Sm89Dir);
      }
    }
    assert QattnSources(sm80, sm89, sm90, false) == base;
    if hasSm90 {
      assert QattnSources(sm80, sm89, sm90, true) == base + ([Sm90Kernel] + GetInstantiations(Sm90Dir, sm90));
    }
  }

  /** A build target: its module name, sources, host and nvcc flags, and linker flags. */
  datatype Target = Target(name: string, sources: seq<string>, cxx: seq<string>, nvcc: seq<string>, link: seq<string>)

  /** The two extensions: qattn over `sources`, linking libcuda, and fused over its two fixed
      files; both compile with the same host and nvcc flag lists. */
  function Targets(sources: seq<string>, cxx: seq<string>, nvcc: seq<string>): (ts: seq<Target>)
    ensures |ts| == 2
    ensures forall t :: t in ts ==> t.cxx == cxx && t.nvcc == nvcc
    ensures ts[0].sources == sources && ts[1].sources == FusedSources
    ensures ts[0].link == ["-lcuda"] && ts[1].link == []
  {
    [
      Target("spas_sage_attn._qattn", sources, cxx, nvcc, ["-lcuda"]),
      Target("spas_sage_attn._fused", FusedSources, cxx, nvcc, [])
    ]
  }
}
