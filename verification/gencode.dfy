/** The compiler flags: the fixed bases, the ABI define, and what each compute capability
    contributes (a -gencode pair, a PTX pair, the SM90 define). */
module Gencode {
  import opened Strings

  /** The host compiler's base flags. */
  const BaseCxxFlags: seq<string> := ["-g", "-O3", "-fopenmp", "-lgomp", "-std=c++17", "-DENABLE_BF16"]

  /** nvcc's base flags. */
  const BaseNvccFlags: seq<string> := [
    "-O3",
    "-std=c++17",
    "-U__CUDA_NO_HALF_OPERATORS__",
    "-U__CUDA_NO_HALF_CONVERSIONS__",
    "--use_fast_math",
    "--threads=8",
    "-Xptxas=-v",
    "-diag-suppress=174",
    "-Xcompiler", "-include,cassert"
  ]

  /** The define that records the C++ ABI torch was built with, appended to both lists. */
  function AbiDefine(cxx11Abi: bool): (flag: string)
    ensures StartsWith(flag, "-D_GLIBCXX_USE_CXX11_ABI=") && |flag| == 26
    ensures flag[25] == (if cxx11Abi then '1' else '0')
  {
    "-D_GLIBCXX_USE_CXX11_ABI=" + (if cxx11Abi then "1" else "0")
  }

  const Sm90Define: string := "-DHAS_SM90"

  /** Every capability has at least the three characters "M.m" that the flag loop indexes. */
  predicate Named(caps: seq<string>) {
    forall c :: c in caps ==> |c| >= 3
  }

  /** Characters 0 and 2 of a capability: "8.6+PTX" gives "86", "10.0" gives "1.". */
  function Digits(c: string): (d: string)
    requires |c| >= 3
    ensures |d| == 2
  {
    [c[0], c[2]]
  }

  /** The capabilities whose digits are "90". */
  predicate IsSm90(c: string) {
    |c| >= 3 && c[0] == '9' && c[2] == '0'
  }

  /** The architecture number used in the flags: the digits, with "90" turned into "90a". */
  function ArchNumber(c: string): (n: string)
    requires |c| >= 3
    ensures IsSm90(c) ==> n == "90a"
    ensures !IsSm90(c) ==> n == Digits(c)
  {
    if Digits(c) == "90" then "90a" else Digits(c)
  }

  function SmTarget(n: string): string {
    "arch=compute_" + n + ",code=sm_" + n
  }

  function PtxTarget(n: string): string {
    "arch=compute_" + n + ",code=compute_" + n
  }

  predicate WantsPtx(c: string) {
    EndsWith(c, "+PTX")
  }

  /** What one capability appends to nvcc's flags. */
  function GencodeFlags(c: string): (flags: seq<string>)
    requires |c| >= 3
    ensures |flags| == if WantsPtx(c) then 4 else 2
  {
    ["-gencode", SmTarget(ArchNumber(c))]
      + (if WantsPtx(c) then ["-gencode", PtxTarget(ArchNumber(c))] else [])
  }

  /** The concatenation of `f`'s contributions for the elements of `s`, in order: what a
      loop over `s` appends when each element appends `f` of itself. */
  function ConcatMap<T, U>(f: T --> seq<U>, s: seq<T>): seq<U>
    requires forall x :: x in s ==> f.requires(x)
  {
    if s == [] then []
    else ConcatMap(f, s[..|s| - 1]) + f(s[|s| - 1])
  }

  /** What the capabilities, taken in the order `order`, append to nvcc's flags. */
  function GencodeAll(order: seq<string>): (flags: seq<string>)
    requires Named(order)
    ensures |flags| == 2 * (|order| + CountPtx(order))
  {
    GencodeAllLength(order);
    ConcatMap(GencodeFlags, order)
  }

  /** One more turn of the flag loop appends exactly that capability's flags. */
  lemma FlagLoopStep(order: seq<string>, c: string)
    requires Named(order) && |c| >= 3
    ensures Named(order + [c])
    ensures GencodeAll(order + [c]) == GencodeAll(order) + GencodeFlags(c)
    ensures Sm90Defines(order + [c]) == Sm90Defines(order) + Sm90Flags(c)
  {
    assert (order + [c])[..|order|] == order;
  }

  /** How many elements of `order` satisfy `p`. */
  function CountWhere(order: seq<string>, p: string -> bool): nat {
    if order == [] then 0
    else CountWhere(order[..|order| - 1], p) + (if p(order[|order| - 1]) then 1 else 0)
  }

  function CountSm90(order: seq<string>): nat {
    CountWhere(order, IsSm90)
  }

  /** What one capability appends to the host compiler's flags. */
  function Sm90Flags(c: string): (flags: seq<string>)
    ensures |flags| <= 1 && (flags != [] <==> IsSm90(c))
    ensures forall f :: f in flags ==> f == Sm90Define
  {
    if IsSm90(c) then [Sm90Define] else []
  }

  /** What the capabilities, taken in the order `order`, append to the host flags: the SM90
      define, once for every capability whose digits are "90", and nothing else. */
  function Sm90Defines(order: seq<string>): (flags: seq<string>)
    ensures |flags| == CountSm90(order)
    ensures forall f :: f in flags ==> f == Sm90Define
  {
    Sm90DefinesShape(order);
    ConcatMap(Sm90Flags, order)
  }

  lemma {:induction false} Sm90DefinesShape(order: seq<string>)
    ensures |ConcatMap(Sm90Flags, order)| == CountSm90(order)
    ensures forall f :: f in ConcatMap(Sm90Flags, order) ==> f == Sm90Define
    decreases |order|
  {
    if order != [] {
      Sm90DefinesShape(order[..|order| - 1]);
    }
  }

  /** Some capability of the set has digits "90": what switches SM90 on. */
  predicate AnySm90(caps: set<string>) {
    exists c :: c in caps && IsSm90(c)
  }

  /** The host flags the loop appends are the SM90 define, repeated once per SM90 capability
      of the set, whatever the order. */
  lemma Sm90DefinesOfEnumeration(order: seq<string>, caps: set<string>)
    requires IsEnumeration(order, caps)
    ensures Sm90Defines(order) == seq(|set c | c in caps && IsSm90(c)|, _ => Sm90Define)
  {
    CountSm90OfEnumeration(order, caps);
    var d := Sm90Defines(order);
    forall i | 0 <= i < |d| ensures d[i] == Sm90Define {
      assert d[i] in d;
    }
  }

  /** A single capability appends its own flags and nothing else. */
  lemma FlagsOfOne(c: string)
    requires |c| >= 3
    ensures GencodeAll([c]) == GencodeFlags(c)
    ensures Sm90Defines([c]) == Sm90Flags(c)
  {
    assert [c][..0] == [];
    assert ConcatMap(GencodeFlags, [c]) == ConcatMap(GencodeFlags, []) + GencodeFlags(c);
    assert ConcatMap(Sm90Flags, [c]) == ConcatMap(Sm90Flags, []) + Sm90Flags(c);
  }

  /** The only iteration order of a one-element set. */
  lemma EnumerationOfOne(order: seq<string>, c: string)
    requires IsEnumeration(order, {c})
    ensures order == [c]
  {
    forall x ensures multiset(order)[x] == multiset{c}[x] {
      DistinctMultiplicity(order, x);
    }
    assert multiset(order) == multiset{c};
    assert |order| == |multiset(order)| == 1;
    assert order[0] in order;
  }

  /** `order` lists every element of `caps` exactly once: an iteration order of the set. */
  ghost predicate IsEnumeration(order: seq<string>, caps: set<string>) {
    && (forall i, j :: 0 <= i < j < |order| ==> order[i] != order[j])
    && (forall c :: c in order <==> c in caps)
  }

  /** The capabilities whose architecture number is `n`. */
  predicate HasArch(c: string, n: string) {
    |c| >= 3 && ArchNumber(c) == n
  }

  function CountArch(order: seq<string>, n: string): nat {
    CountWhere(order, c => HasArch(c, n))
  }

  function CountPtxArch(order: seq<string>, n: string): nat {
    CountWhere(order, c => WantsPtx(c) && HasArch(c, n))
  }

  function CountPtx(order: seq<string>): nat {
    CountWhere(order, WantsPtx)
  }

  /** A binary target and a PTX target never coincide: their lengths differ in parity. */
  lemma SmTargetIsNotPtxTarget(n: string, m: string)
    ensures SmTarget(n) != PtxTarget(m)
  {
    assert |SmTarget(n)| == 22 + 2 * |n|;
    assert |PtxTarget(m)| == 27 + 2 * |m|;
  }

  /** A target names its architecture number. */
  lemma TargetsInjective(n: string, m: string)
    ensures SmTarget(n) == SmTarget(m) ==> n == m
    ensures PtxTarget(n) == PtxTarget(m) ==> n == m
  {
    if SmTarget(n) == SmTarget(m) {
      assert |n| == |m|;
      assert SmTarget(n)[13..13 + |n|] == n;
      assert SmTarget(m)[13..13 + |m|] == m;
    }
    if PtxTarget(n) == PtxTarget(m) {
      assert |n| == |m|;
      assert PtxTarget(n)[13..13 + |n|] == n;
      assert PtxTarget(m)[13..13 + |m|] == m;
    }
  }

  /** A loop over `a + b` appends what a loop over `a` and then one over `b` append. */
  lemma {:induction false} ConcatMapAppend<T, U>(f: T --> seq<U>, a: seq<T>, b: seq<T>)
    requires forall x :: x in a + b ==> f.requires(x)
    ensures ConcatMap(f, a + b) == ConcatMap(f, a) + ConcatMap(f, b)
    decreases |b|
  {
    if b != [] {
      var b' := b[..|b| - 1];
      assert (a + b)[..|a + b| - 1] == a + b';
      assert (a + b)[|a + b| - 1] == b[|b| - 1];
      ConcatMapAppend(f, a, b');
    } else {
      assert a + b == a;
    }
  }

  /** Removing one element from the middle of the loop removes exactly its contribution. */
  lemma ConcatMapRemove<T, U>(f: T --> seq<U>, left: seq<T>, c: T, right: seq<T>)
    requires forall x :: x in left + [c] + right ==> f.requires(x)
    ensures forall x :: x in left + right ==> f.requires(x)
    ensures multiset(ConcatMap(f, left + [c] + right))
         == multiset(ConcatMap(f, left + right)) + multiset(f(c))
  {
    assert forall x :: x in left + right ==> x in left + [c] + right;
    ConcatMapAppend(f, left, right);
    ConcatMapAppend(f, left + [c], right);
    ConcatMapAppend(f, left, [c]);
    assert ConcatMap(f, [c]) == f(c) by { assert [c][..0] == []; }
  }

  /** Reordering the loop's elements only reorders what it appends. */
  lemma {:induction false} ConcatMapPermutation<T, U>(f: T --> seq<U>, o1: seq<T>, o2: seq<T>)
    requires forall x :: x in o1 ==> f.requires(x)
    requires multiset(o1) == multiset(o2)
    ensures forall x :: x in o2 ==> f.requires(x)
    ensures multiset(ConcatMap(f, o1)) == multiset(ConcatMap(f, o2))
    decreases |o1|
  {
    forall x | x in o2 ensures f.requires(x) {
      assert x in multiset(o2);
    }
    if o1 == [] {
      assert |o2| == |multiset(o2)| == 0;
    } else {
      var init, c := o1[..|o1| - 1], o1[|o1| - 1];
      var k := RemovalPoint(o1, o2);
      var left, right := o2[..k], o2[k + 1..];
      assert o2 == left + [c] + right;
      ConcatMapPermutation(f, init, left + right);
      ConcatMapRemove(f, left, c, right);
      assert ConcatMap(f, o1) == ConcatMap(f, init) + f(c);
    }
  }

  /** Where the last element of `o1` sits in a permutation `o2` of it. */
  lemma RemovalPoint<T>(o1: seq<T>, o2: seq<T>) returns (k: nat)
    requires o1 != [] && multiset(o1) == multiset(o2)
    ensures k < |o2| && o2[k] == o1[|o1| - 1]
    ensures multiset(o1[..|o1| - 1]) == multiset(o2[..k] + o2[k + 1..])
  {
    var init, c := o1[..|o1| - 1], o1[|o1| - 1];
    MultisetRemoveAt(o1, |o1| - 1);
    assert o1[..|o1| - 1] + o1[|o1|..] == init;
    assert c in multiset(o2);
    k :| 0 <= k < |o2| && o2[k] == c;
    MultisetRemoveAt(o2, k);
    forall x ensures multiset(init)[x] == multiset(o2[..k] + o2[k + 1..])[x] {
      assert multiset(o1)[x] == multiset(o2)[x];
    }
  }

  lemma MultisetRemoveAt<T>(s: seq<T>, k: nat)
    requires k < |s|
    ensures multiset(s) == multiset(s[..k] + s[k + 1..]) + multiset{s[k]}
  {
    assert s == s[..k] + [s[k]] + s[k + 1..];
  }

  /** What one capability contributes, counted: one -gencode pair for its binary target,
      plus one for its PTX target when it asks for PTX. */
  lemma GencodeFlagsCounts(c: string, n: string)
    requires |c| >= 3
    ensures multiset(GencodeFlags(c))[SmTarget(n)] == (if ArchNumber(c) == n then 1 else 0)
    ensures multiset(GencodeFlags(c))[PtxTarget(n)]
              == (if WantsPtx(c) && ArchNumber(c) == n then 1 else 0)
    ensures multiset(GencodeFlags(c))["-gencode"] == (if WantsPtx(c) then 2 else 1)
  {
    var a := ArchNumber(c);
    SmTargetIsNotPtxTarget(n, a);
    SmTargetIsNotPtxTarget(a, n);
    TargetsInjective(a, n);
    assert SmTarget(a)[0] != "-gencode"[0];
    assert PtxTarget(a)[0] != "-gencode"[0];
  }

  /** Counted over any iteration order, nvcc receives exactly one binary-target pair per
      capability with that architecture number, one PTX pair per capability that asks for
      PTX, and one "-gencode" per pair. */
  lemma {:induction false} GencodeAllCounts(order: seq<string>, n: string)
    requires Named(order)
    ensures multiset(GencodeAll(order))[SmTarget(n)] == CountArch(order, n)
    ensures multiset(GencodeAll(order))[PtxTarget(n)] == CountPtxArch(order, n)
    ensures multiset(GencodeAll(order))["-gencode"] == |order| + CountPtx(order)
    decreases |order|
  {
    if order != [] {
      var init, c := order[..|order| - 1], order[|order| - 1];
      GencodeAllCounts(init, n);
      GencodeFlagsCounts(c, n);
      assert multiset(GencodeAll(order)) == multiset(GencodeAll(init)) + multiset(GencodeFlags(c));
    }
  }

  /** `t` is the binary or the PTX target of some capability in `order`. */
  ghost predicate IsTargetIn(t: string, order: seq<string>)
    requires Named(order)
  {
    exists c :: c in order && (t == SmTarget(ArchNumber(c)) || (WantsPtx(c) && t == PtxTarget(ArchNumber(c))))
  }

  /** The loop appends two flags per capability and two more per "+PTX" capability. */
  lemma {:induction false} GencodeAllLength(order: seq<string>)
    requires Named(order)
    ensures |ConcatMap(GencodeFlags, order)| == 2 * (|order| + CountPtx(order))
    decreases |order|
  {
    if order != [] {
      GencodeAllLength(order[..|order| - 1]);
    }
  }

  /** `flags` is a list of -gencode pairs, each naming a target of a capability in `order`. */
  ghost predicate PairedTargets(flags: seq<string>, order: seq<string>)
    requires Named(order)
  {
    |flags| % 2 == 0 &&
    forall k :: 0 <= k < |flags| ==> PairedAt(flags, k, order)
  }

  /** Position `k` of a list of -gencode pairs: the option at even positions, a target of a
      capability in `order` at odd ones. */
  ghost predicate PairedAt(flags: seq<string>, k: nat, order: seq<string>)
    requires Named(order) && k < |flags|
  {
    if k % 2 == 0 then flags[k] == "-gencode" else IsTargetIn(flags[k], order)
  }

  lemma PairedTargetsAppend(a: seq<string>, b: seq<string>, order: seq<string>)
    requires Named(order) && PairedTargets(a, order) && PairedTargets(b, order)
    ensures PairedTargets(a + b, order)
  {
    forall k | 0 <= k < |a + b| ensures PairedAt(a + b, k, order) {
      if k < |a| {
        assert (a + b)[k] == a[k];
        assert PairedAt(a, k, order);
      } else {
        var j := k - |a|;
        assert (a + b)[k] == b[j];
        assert PairedAt(b, j, order);
        EvenShift(|a|, j);
      }
    }
  }

  lemma EvenShift(m: nat, j: nat)
    requires m % 2 == 0
    ensures (m + j) % 2 == j % 2
  {
  }

  lemma PairedTargetsWiden(flags: seq<string>, init: seq<string>, order: seq<string>)
    requires Named(order) && init <= order && PairedTargets(flags, init)
    ensures PairedTargets(flags, order)
  {
    forall k | 0 <= k < |flags| ensures PairedAt(flags, k, order) {
      assert PairedAt(flags, k, init);
      if k % 2 == 1 {
        TargetInWiden(flags[k], init, order);
      }
    }
  }

  lemma TargetInWiden(t: string, init: seq<string>, order: seq<string>)
    requires Named(order) && init <= order && IsTargetIn(t, init)
    ensures IsTargetIn(t, order)
  {
    var c :| c in init && (t == SmTarget(ArchNumber(c)) || (WantsPtx(c) && t == PtxTarget(ArchNumber(c))));
    assert c in order;
  }

  lemma PairedTargetsOfFlags(c: string, order: seq<string>)
    requires Named(order) && c in order
    ensures PairedTargets(GencodeFlags(c), order)
  {
  }

  /** nvcc's added flags come in pairs: "-gencode" at every even position, and at every odd
      position the binary or PTX target of some capability; nothing else is appended. */
  lemma {:induction false} GencodeAllShape(order: seq<string>)
    requires Named(order)
    ensures |GencodeAll(order)| == 2 * (|order| + CountPtx(order))
    ensures PairedTargets(GencodeAll(order), order)
    decreases |order|
  {
    GencodeAllLength(order);
    if order != [] {
      var init, c := order[..|order| - 1], order[|order| - 1];
      GencodeAllShape(init);
      PairedTargetsWiden(GencodeAll(init), init, order);
      PairedTargetsOfFlags(c, order);
      PairedTargetsAppend(GencodeAll(init), GencodeFlags(c), order);
    }
  }

  /** The flags appended depend on the iteration order only through their order: any two
      orders of the same capabilities give the same multiset of nvcc flags and the same
      host flags. */
  lemma GencodeAllPermutation(o1: seq<string>, o2: seq<string>)
    requires Named(o1)
    requires multiset(o1) == multiset(o2)
    ensures Named(o2)
    ensures multiset(GencodeAll(o1)) == multiset(GencodeAll(o2))
    ensures Sm90Defines(o1) == Sm90Defines(o2)
  {
    ConcatMapPermutation(GencodeFlags, o1, o2);
    ConcatMapPermutation(Sm90Flags, o1, o2);
    var d1, d2 := Sm90Defines(o1), Sm90Defines(o2);
    assert |d1| == |multiset(d1)| == |multiset(d2)| == |d2|;
    forall i | 0 <= i < |d1| ensures d1[i] == d2[i] {
      assert d1[i] in d1 && d2[i] in d2;
    }
  }

  /** Each element of a duplicate-free sequence occurs in it once. */
  lemma {:induction false} DistinctMultiplicity(order: seq<string>, x: string)
    requires forall i, j :: 0 <= i < j < |order| ==> order[i] != order[j]
    ensures multiset(order)[x] == if x in order then 1 else 0
    decreases |order|
  {
    if order != [] {
      var init, c := order[..|order| - 1], order[|order| - 1];
      assert order == init + [c];
      DistinctMultiplicity(init, x);
      if x == c {
        assert x !in init;
      }
    }
  }

  /** Two iteration orders of one set hold the same elements the same number of times. */
  lemma EnumerationsArePermutations(o1: seq<string>, o2: seq<string>, caps: set<string>)
    requires IsEnumeration(o1, caps) && IsEnumeration(o2, caps)
    ensures multiset(o1) == multiset(o2)
  {
    forall x ensures multiset(o1)[x] == multiset(o2)[x] {
      DistinctMultiplicity(o1, x);
      DistinctMultiplicity(o2, x);
    }
  }

  /** Counting over an iteration order of a set counts the set's members: the count does not
      depend on the order. */
  lemma {:induction false} CountWhereOfEnumeration(order: seq<string>, caps: set<string>, p: string -> bool)
    requires IsEnumeration(order, caps)
    ensures CountWhere(order, p) == |set c | c in caps && p(c)|
    decreases |order|
  {
    if order == [] {
      assert (set c | c in caps && p(c)) == {};
    } else {
      var init, last := order[..|order| - 1], order[|order| - 1];
      assert last in caps;
      assert last !in init;
      assert forall c :: c in init ==> c in order;
      assert forall c :: c in order ==> c in init || c == last;
      assert IsEnumeration(init, caps - {last});
      CountWhereOfEnumeration(init, caps - {last}, p);
      var rest := set c | c in caps - {last} && p(c);
      if p(last) {
        assert (set c | c in caps && p(c)) == rest + {last};
      } else {
        assert (set c | c in caps && p(c)) == rest;
      }
    }
  }

  /** The number of SM90 defines is the number of capabilities whose digits are "90",
      whatever the iteration order. */
  lemma CountSm90OfEnumeration(order: seq<string>, caps: set<string>)
    requires IsEnumeration(order, caps)
    ensures CountSm90(order) == |set c | c in caps && IsSm90(c)|
  {
    var p: string -> bool := IsSm90;
    CountWhereOfEnumeration(order, caps, p);
    assert (set c | c in caps && p(c)) == set c | c in caps && IsSm90(c);
  }

  /** Capabilities 9.0 and 9.0+PTX together: the SM90 define appears twice, the binary
      pair for "90a" twice and the PTX pair for "90a" once, in either order. */
  lemma BothSm90Forms(order: seq<string>)
    requires IsEnumeration(order, {"9.0", "9.0+PTX"})
    ensures Sm90Defines(order) == [Sm90Define, Sm90Define]
    ensures multiset(GencodeAll(order))[SmTarget("90a")] == 2
    ensures multiset(GencodeAll(order))[PtxTarget("90a")] == 1
  {
    var caps: set<string> := {"9.0", "9.0+PTX"};
    BothSm90FormsDefines(order, caps);
    var ordered := ["9.0", "9.0+PTX"];
    assert IsEnumeration(ordered, caps);
    EnumerationsArePermutations(order, ordered, caps);
    GencodeAllPermutation(order, ordered);
    BothSm90FormsGencode(ordered);
  }

  lemma BothSm90FormsDefines(order: seq<string>, caps: set<string>)
    requires caps == {"9.0", "9.0+PTX"} && IsEnumeration(order, caps)
    ensures Sm90Defines(order) == [Sm90Define, Sm90Define]
  {
    assert IsSm90("9.0") && IsSm90("9.0+PTX");
    CountSm90OfEnumeration(order, caps);
    assert (set c | c in caps && IsSm90(c)) == caps;
    var d := Sm90Defines(order);
    assert |d| == 2;
    assert d[0] in d && d[1] in d;
  }

  lemma BothSm90FormsGencode(ordered: seq<string>)
    requires ordered == ["9.0", "9.0+PTX"]
    ensures multiset(GencodeAll(ordered))[SmTarget("90a")] == 2
    ensures multiset(GencodeAll(ordered))[PtxTarget("90a")] == 1
  {
    var plain, ptx := "9.0", "9.0+PTX";
    assert WantsPtx(ptx) by { assert ptx[3..] == "+PTX"; }
    assert !WantsPtx(plain);
    assert IsSm90(plain) && IsSm90(ptx);
    assert ordered == [plain] + [ptx];
    ConcatMapAppend(GencodeFlags, [plain], [ptx]);
    FlagsOfOne(plain);
    FlagsOfOne(ptx);
    assert GencodeAll(ordered) == GencodeFlags(plain) + GencodeFlags(ptx);
    GencodeFlagsCounts(plain, "90a");
    GencodeFlagsCounts(ptx, "90a");
  }
}
