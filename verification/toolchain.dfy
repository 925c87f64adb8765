/** The CUDA version gate: 12.0 at least, and 12.4 at least for capabilities 8.9 and 9.0. */
module Toolchain {
  import opened Outcomes
  import opened Strings
  import opened NvccVersion

  /** Capabilities that need CUDA 12.4: those starting with "8.9" or "9.0", "+PTX" forms included. */
  predicate NeedsCuda124(c: string) {
    StartsWith(c, "8.9") || StartsWith(c, "9.0")
  }

  /** The version checks; the 8.9 check runs before the 9.0 check. */
  function CheckToolchain(v: Version, caps: set<string>): (r: Outcome)
    ensures r.Fail? ==> r.error.CudaTooOld? || r.error.CudaTooOldForArch?
  {
    if Below(v, Version(12, 0)) then Fail(CudaTooOld)
    else if Below(v, Version(12, 4)) then
      if exists c :: c in caps && StartsWith(c, "8.9") then Fail(CudaTooOldForArch("8.9"))
      else if exists c :: c in caps && StartsWith(c, "9.0") then Fail(CudaTooOldForArch("9.0"))
      else Pass
    else Pass
  }

  /** The gate passes exactly when the version is at least 12.0, and at least 12.4 whenever
      some capability needs it. */
  lemma CheckToolchainPassesIff(v: Version, caps: set<string>)
    ensures CheckToolchain(v, caps) == Pass <==>
              !Below(v, Version(12, 0))
              && (Below(v, Version(12, 4)) ==> forall c :: c in caps ==> !NeedsCuda124(c))
  {
  }

  /** Which error the gate raises: below 12.0 always the global one; otherwise the 8.9 one
      whenever some capability starts with "8.9", and the 9.0 one only when none does. */
  lemma CheckToolchainErrors(v: Version, caps: set<string>)
    ensures Below(v, Version(12, 0)) ==> CheckToolchain(v, caps) == Fail(CudaTooOld)
    ensures !Below(v, Version(12, 0)) && Below(v, Version(12, 4)) ==>
              ((exists c :: c in caps && StartsWith(c, "8.9"))
                 <==> CheckToolchain(v, caps) == Fail(CudaTooOldForArch("8.9")))
    ensures CheckToolchain(v, caps) == Fail(CudaTooOldForArch("9.0")) <==>
              !Below(v, Version(12, 0)) && Below(v, Version(12, 4))
              && (forall c :: c in caps ==> !StartsWith(c, "8.9"))
              && (exists c :: c in caps && StartsWith(c, "9.0"))
  {
  }

  /** A newer toolchain, or fewer capabilities, never turns a pass into a failure. */
  lemma CheckToolchainMonotone(v: Version, w: Version, caps: set<string>, fewer: set<string>)
    requires CheckToolchain(v, caps) == Pass
    requires !Below(w, v) && fewer <= caps
    ensures CheckToolchain(w, fewer) == Pass
  {
    CheckToolchainPassesIff(v, caps);
    CheckToolchainPassesIff(w, fewer);
  }

  /** From 12.4 on the gate always passes. */
  lemma CheckToolchainFrom124(v: Version, caps: set<string>)
    requires !Below(v, Version(12, 4))
    ensures CheckToolchain(v, caps) == Pass
  {
  }

  /** CUDA 12.1 builds for 8.0. */
  lemma CheckToolchainOf80()
    ensures CheckToolchain(Version(12, 1), {"8.0"}) == Pass
  {
    assert !StartsWith("8.0", "8.9") && !StartsWith("8.0", "9.0") by {
      assert "8.0"[2] != "8.9"[2] && "8.0"[0] != "9.0"[0];
    }
  }

  /** 11.8 fails for 8.0; 12.0 fails for 8.9; 12.2 fails for "9.0+PTX"; 12.4 passes for
      8.9 and 9.0 together. */
  lemma CheckToolchainExamples()
    ensures CheckToolchain(Version(11, 8), {"8.0"}) == Fail(CudaTooOld)
    ensures CheckToolchain(Version(12, 0), {"8.9"}) == Fail(CudaTooOldForArch("8.9"))
    ensures CheckToolchain(Version(12, 2), {"9.0+PTX"}) == Fail(CudaTooOldForArch("9.0"))
    ensures CheckToolchain(Version(12, 1), {"8.0", "8.6+PTX"}) == Pass
    ensures CheckToolchain(Version(12, 4), {"8.9", "9.0"}) == Pass
  {
    assert StartsWith("8.9", "8.9");
    assert StartsWith("9.0+PTX", "9.0") by { assert "9.0+PTX"[..3] == "9.0"; }
    assert !StartsWith("9.0+PTX", "8.9") by { assert "9.0+PTX"[0] != "8.9"[0]; }
    assert !StartsWith("8.0", "8.9") && !StartsWith("8.0", "9.0") by {
      assert "8.0"[2] != "8.9"[2] && "8.0"[0] != "9.0"[0];
    }
    assert !StartsWith("8.6+PTX", "8.9") by { assert "8.6+PTX"[2] != "8.9"[2]; }
    assert !StartsWith("8.6+PTX", "9.0") by { assert "8.6+PTX"[0] != "9.0"[0]; }
  }
}
