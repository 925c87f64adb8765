/** Which compute capabilities to build for: the TORCH_CUDA_ARCH_LIST override
    (get_torch_arch_list) and, when it yields nothing, the capabilities of the local GPUs. */
module ArchList {
  import opened Outcomes
  import opened Strings

  /** The supported NVIDIA GPU architectures. */
  const SupportedArchs: set<string> := {"8.0", "8.6", "8.7", "8.9", "9.0"}

  /** The entries the override may name: a supported architecture, plain or with "+PTX". */
  const ValidArchs: set<string> := SupportedArchs + set s | s in SupportedArchs :: s + "+PTX"

  /** The entries of an override value: spaces are turned into semicolons, then the value
      is split on semicolons. Commas are not separators. */
  function Tokens(value: string): (tokens: set<string>)
    ensures forall t :: t in tokens ==> ' ' !in t && ';' !in t
  {
    var pieces := Split(Replace(value, ' ', ';'), ';');
    assert forall p, c :: p in pieces && c in p ==> c != ' ';
    set p | p in pieces
  }

  /** What the override yields: the accepted entries and the rejected ones, which are
      reported by a warning and dropped. */
  datatype ArchList = ArchList(archs: set<string>, rejected: set<string>)

  /** get_torch_arch_list: an unset variable yields nothing; a set one yields its entries
      that name a valid architecture, and fails when it names none. */
  function ParseArchList(env: Option<string>): (r: Result<ArchList>)
    ensures env.None? ==> r == Ok(ArchList({}, {}))
    ensures r.Ok? ==> r.value.archs <= ValidArchs
    ensures r.Err? ==> env.Some? && r.error == NoSupportedArch(env.value)
  {
    match env
    case None => Ok(ArchList({}, {}))
    case Some(value) =>
      var tokens := Tokens(value);
      if tokens == {} then Ok(ArchList({}, {}))
      else
        var archs := tokens * ValidArchs;
        if archs == {} then Err(NoSupportedArch(value))
        else Ok(ArchList(archs, tokens - ValidArchs))
  }

  /** A set override always has at least one entry, so the "empty list" branch of the
      parser is never taken. */
  lemma TokensNonEmpty(value: string)
    ensures Split(Replace(value, ' ', ';'), ';')[0] in Tokens(value)
  {
  }

  /** With the variable set, the parser accepts exactly the valid entries and warns about
      exactly the others; it fails if and only if no entry is valid, and it never yields an
      empty list. */
  lemma ParseArchListOfSetVariable(value: string)
    ensures var r := ParseArchList(Some(value));
      && (r.Err? <==> Tokens(value) !! ValidArchs)
      && (r.Ok? ==> r.value.archs != {}
                    && r.value.archs == Tokens(value) * ValidArchs
                    && r.value.rejected == Tokens(value) - ValidArchs)
  {
    var tokens := Tokens(value);
    TokensNonEmpty(value);
    assert tokens != {};
    if !(tokens !! ValidArchs) {
      var t :| t in tokens && t in ValidArchs;
      assert t in tokens * ValidArchs;
    }
  }

  /** Every accepted entry is a supported architecture, optionally suffixed with "+PTX". */
  lemma ParsedArchsAreCatalogEntries(env: Option<string>, a: string)
    requires ParseArchList(env).Ok? && a in ParseArchList(env).value.archs
    ensures a in SupportedArchs || exists s :: s in SupportedArchs && a == s + "+PTX"
  {
  }

  /** An invalid entry next to a valid one is only warned about. */
  lemma InvalidBesideValidOnlyWarns(value: string, good: string, bad: string)
    requires good in Tokens(value) && good in ValidArchs
    requires bad in Tokens(value) && bad !in ValidArchs
    ensures ParseArchList(Some(value)).Ok?
    ensures good in ParseArchList(Some(value)).value.archs
    ensures bad in ParseArchList(Some(value)).value.rejected
  {
    assert good in Tokens(value) * ValidArchs;
    assert bad in Tokens(value) - ValidArchs;
  }

  /** The compute capability of one local GPU, as the device query reports it. */
  datatype Device = Device(major: nat, minor: nat)

  /** The name a probed device contributes: "major.minor" in decimal, not checked
      against the catalog. */
  function CapabilityName(d: Device): (name: string)
    ensures |name| >= 3
  {
    NatToString(d.major) + "." + NatToString(d.minor)
  }

  /** The result of probing the local GPUs: fails when some device has major version
      below 8, and otherwise names every device. */
  function Probe(devices: seq<Device>): (r: Result<set<string>>)
    ensures r.Err? <==> exists i :: 0 <= i < |devices| && devices[i].major < 8
    ensures r.Err? ==> r.error == CapabilityBelow80
    ensures r.Ok? ==> forall c :: c in r.value <==>
                        exists i :: 0 <= i < |devices| && c == CapabilityName(devices[i])
  {
    if exists i :: 0 <= i < |devices| && devices[i].major < 8 then Err(CapabilityBelow80)
    else Ok(set d | d in devices :: CapabilityName(d))
  }

  /** The capabilities the build targets: the override's entries, or, when it yields none,
      the probed ones. */
  function Resolve(env: Option<string>, devices: seq<Device>): (r: Result<ArchList>)
    ensures r.Ok? ==> forall c :: c in r.value.archs ==> |c| >= 3
  {
    var parsed :- ParseArchList(env);
    if parsed.archs != {} then Ok(parsed)
    else
      var probed :- Probe(devices);
      Ok(ArchList(probed, parsed.rejected))
  }

  /** Devices are probed only when the variable is unset: a set variable decides alone. */
  lemma ResolveIgnoresDevicesWhenSet(value: string, d1: seq<Device>, d2: seq<Device>)
    ensures Resolve(Some(value), d1) == Resolve(Some(value), d2)
  {
    ParseArchListOfSetVariable(value);
  }

  /** With the variable set, the capabilities are exactly what the parser yields: its
      accepted and rejected entries, or its error. */
  lemma ResolveWithOverride(value: string, devices: seq<Device>)
    ensures Resolve(Some(value), devices) == ParseArchList(Some(value))
  {
    ParseArchListOfSetVariable(value);
  }

  /** Without the variable, any device below 8.0 aborts, and otherwise the capabilities are
      exactly the names of the devices; they are empty only when there is no device. */
  lemma ResolveWithoutOverride(devices: seq<Device>)
    ensures (exists i :: 0 <= i < |devices| && devices[i].major < 8)
              <==> Resolve(None, devices) == Err(CapabilityBelow80)
    ensures Resolve(None, devices).Ok? ==>
              (forall c :: c in Resolve(None, devices).value.archs <==>
                 exists i :: 0 <= i < |devices| && c == CapabilityName(devices[i]))
    ensures Resolve(None, devices).Ok? ==>
              (Resolve(None, devices).value.archs == {} <==> devices == [])
  {
    if Resolve(None, devices).Ok? {
      var archs := Resolve(None, devices).value.archs;
      forall c ensures c in archs <==> exists i :: 0 <= i < |devices| && c == CapabilityName(devices[i]) {
        if c in archs {
          var d :| d in devices && c == CapabilityName(d);
          var i :| 0 <= i < |devices| && devices[i] == d;
        }
      }
      if devices != [] {
        assert CapabilityName(devices[0]) in archs;
      }
    }
  }

  /** Two devices with different capabilities never share a name. */
  lemma {:induction false} CapabilityNameInjective(d1: Device, d2: Device)
    requires CapabilityName(d1) == CapabilityName(d2)
    ensures d1 == d2
  {
    var a1, b1 := NatToString(d1.major), NatToString(d1.minor);
    var a2, b2 := NatToString(d2.major), NatToString(d2.minor);
    forall p | p in [a1, b1] + [a2, b2] ensures '.' !in p {
      assert AllDigits(p);
    }
    SplitJoin([a1, b1], '.');
    SplitJoin([a2, b2], '.');
    assert Join([a1, b1], '.') == CapabilityName(d1) by { assert [a1, b1][1..] == [b1]; }
    assert Join([a2, b2], '.') == CapabilityName(d2) by { assert [a2, b2][1..] == [b2]; }
    DecimalValueOfNatToString(d1.major);
    DecimalValueOfNatToString(d1.minor);
    DecimalValueOfNatToString(d2.major);
    DecimalValueOfNatToString(d2.minor);
  }

  /** The ten valid entries, written out. */
  lemma ValidArchsListed()
    ensures ValidArchs == {"8.0", "8.6", "8.7", "8.9", "9.0",
                           "8.0+PTX", "8.6+PTX", "8.7+PTX", "8.9+PTX", "9.0+PTX"}
  {
    assert "8.0" + "+PTX" == "8.0+PTX";
    assert "8.6" + "+PTX" == "8.6+PTX";
    assert "8.7" + "+PTX" == "8.7+PTX";
    assert "8.9" + "+PTX" == "8.9+PTX";
    assert "9.0" + "+PTX" == "9.0+PTX";
  }

  /** The entries of a value that reads, once its spaces are semicolons, as a
      semicolon-joined list. */
  lemma TokensOfJoin(value: string, entries: seq<string>)
    requires |entries| >= 1 && forall e :: e in entries ==> ';' !in e
    requires Replace(value, ' ', ';') == Join(entries, ';')
    ensures Tokens(value) == set e | e in entries
  {
    SplitJoin(entries, ';');
  }

  /** The parse of a set variable depends on its entries only. */
  lemma ParseDeterminedByTokens(value: string, tokens: set<string>)
    requires Tokens(value) == tokens
    ensures ParseArchList(Some(value)) ==
              if tokens * ValidArchs == {} then Err(NoSupportedArch(value))
              else Ok(ArchList(tokens * ValidArchs, tokens - ValidArchs))
  {
    ParseArchListOfSetVariable(value);
  }

  lemma TokensOfTwoSupported()
    ensures Tokens("8.0;9.0") == {"8.0", "9.0"}
  {
    assert Join(["8.0", "9.0"], ';') == "8.0;9.0";
    ReplaceAbsent("8.0;9.0", ' ', ';');
    TokensOfJoin("8.0;9.0", ["8.0", "9.0"]);
  }

  lemma ValidOfTwoSupported()
    ensures {"8.0", "9.0"} * ValidArchs == {"8.0", "9.0"}
    ensures {"8.0", "9.0"} - ValidArchs == {}
  {
    ValidArchsListed();
  }

  /** A single supported entry is accepted. */
  lemma ParseOneSupported()
    ensures ParseArchList(Some("8.0")) == Ok(ArchList({"8.0"}, {}))
  {
    ReplaceAbsent("8.0", ' ', ';');
    TokensOfJoin("8.0", ["8.0"]);
    assert (set e | e in ["8.0"]) == {"8.0"};
    ValidArchsListed();
    assert {"8.0"} * ValidArchs == {"8.0"};
    assert {"8.0"} - ValidArchs == {};
    ParseDeterminedByTokens("8.0", {"8.0"});
  }

  /** Two supported entries separated by a semicolon are both accepted. */
  lemma ParseTwoSupported()
    ensures ParseArchList(Some("8.0;9.0")) == Ok(ArchList({"8.0", "9.0"}, {}))
  {
    TokensOfTwoSupported();
    ValidOfTwoSupported();
    ParseDeterminedByTokens("8.0;9.0", {"8.0", "9.0"});
  }

  lemma TokensOfSupportedAndUnsupported()
    ensures Tokens("8.0 7.5") == {"8.0", "7.5"}
  {
    assert Replace("8.0 7.5", ' ', ';') == "8.0;7.5";
    assert Join(["8.0", "7.5"], ';') == "8.0;7.5";
    TokensOfJoin("8.0 7.5", ["8.0", "7.5"]);
  }

  lemma ValidOfSupportedAndUnsupported()
    ensures {"8.0", "7.5"} * ValidArchs == {"8.0"}
    ensures {"8.0", "7.5"} - ValidArchs == {"7.5"}
  {
    ValidArchsListed();
  }

  /** A space separates entries too; the unsupported one is warned about and dropped. */
  lemma ParseSupportedAndUnsupported()
    ensures ParseArchList(Some("8.0 7.5")) == Ok(ArchList({"8.0"}, {"7.5"}))
  {
    TokensOfSupportedAndUnsupported();
    ValidOfSupportedAndUnsupported();
    ParseDeterminedByTokens("8.0 7.5", {"8.0", "7.5"});
  }

  /** Only unsupported entries: the parser fails. */
  lemma ParseOnlyUnsupported()
    ensures ParseArchList(Some("7.5")) == Err(NoSupportedArch("7.5"))
  {
    ReplaceAbsent("7.5", ' ', ';');
    TokensOfJoin("7.5", ["7.5"]);
    ValidArchsListed();
    ParseDeterminedByTokens("7.5", {"7.5"});
  }

  /** A set but empty variable has the single entry "", which is not valid. */
  lemma ParseEmptyValue()
    ensures ParseArchList(Some("")) == Err(NoSupportedArch(""))
  {
    ReplaceAbsent("", ' ', ';');
    TokensOfJoin("", [""]);
    ValidArchsListed();
    ParseDeterminedByTokens("", {""});
  }

  /** A comma does not separate entries: "8.0,8.6" is one unsupported entry. */
  lemma ParseCommaIsNotASeparator()
    ensures ParseArchList(Some("8.0,8.6")) == Err(NoSupportedArch("8.0,8.6"))
  {
    assert Tokens("8.0,8.6") == {"8.0,8.6"} by {
      ReplaceAbsent("8.0,8.6", ' ', ';');
      TokensOfJoin("8.0,8.6", ["8.0,8.6"]);
    }
    CommaListIsNotValid();
    assert {"8.0,8.6"} * ValidArchs == {};
    ParseDeterminedByTokens("8.0,8.6", {"8.0,8.6"});
  }

  lemma CommaListIsNotValid()
    ensures "8.0,8.6" !in ValidArchs
  {
    ValidArchsListed();
    var t := "8.0,8.6";
    forall e | e in ValidArchs ensures e != t {
      assert |e| == 3 || e[3] == '+';
      assert t[3] == ',';
    }
  }
}
