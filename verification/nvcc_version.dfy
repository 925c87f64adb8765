/** The CUDA version reported by `nvcc -V` (get_nvcc_cuda_version): the token after the
    first "release" word, cut at its first comma, read as a version. */
module NvccVersion {
  import opened Outcomes
  import opened Strings

  /** A CUDA version, compared on its major and minor release numbers. */
  datatype Version = Version(major: nat, minor: nat)

  /** Strict lexicographic order on versions. */
  predicate Below(a: Version, b: Version) {
    a.major < b.major || (a.major == b.major && a.minor < b.minor)
  }

  /** `ws.index(w)`: the first position of `w`, or nothing when `w` does not occur. */
  function IndexOf(ws: seq<string>, w: string): (r: Option<nat>)
    ensures r.None? <==> w !in ws
    ensures r.Some? ==> r.value < |ws| && ws[r.value] == w && w !in ws[..r.value]
  {
    if ws == [] then None
    else if ws[0] == w then Some(0)
    else
      match IndexOf(ws[1..], w)
      case None => None
      case Some(i) =>
        assert ws[..i + 1] == [ws[0]] + ws[1..][..i];
        Some(i + 1)
  }

  /** `t.split(",")[0]`: the token up to its first comma. */
  function CutAtComma(t: string): (r: string)
    ensures r <= t && ',' !in r
    ensures |r| == |t| || t[|r|] == ','
  {
    Split(t, ',')[0]
  }

  /** The version token of nvcc's output: fails when no word is "release" and when
      "release" is the last word. */
  function VersionToken(output: string): (r: Result<string>)
    ensures r.Ok? ==> ',' !in r.value
  {
    var ws := Words(output);
    match IndexOf(ws, "release")
    case None => Err(NoReleaseToken)
    case Some(i) => if i + 1 < |ws| then Ok(CutAtComma(ws[i + 1])) else Err(NoTokenAfterRelease)
  }

  /** Output without a "release" word is an error, not a version. */
  lemma NvccCudaVersionWithoutRelease(output: string)
    requires "release" !in Words(output)
    ensures NvccCudaVersion(output) == Err(NoReleaseToken)
  {
  }

  /** The token is taken from the word after the FIRST "release" word. */
  lemma VersionTokenAfterFirstRelease(output: string, i: nat)
    requires i < |Words(output)| && Words(output)[i] == "release"
    requires "release" !in Words(output)[..i]
    ensures i + 1 < |Words(output)| ==> VersionToken(output) == Ok(CutAtComma(Words(output)[i + 1]))
    ensures i + 1 == |Words(output)| ==> VersionToken(output) == Err(NoTokenAfterRelease)
  {
  }

  /** `packaging.version.parse` on a release version: dot-separated groups of decimal
      digits; the first two groups are the major and minor numbers (a missing minor is 0).
      Anything else is rejected. */
  function ParseVersion(token: string): (r: Result<Version>)
    ensures r.Err? ==> r.error == InvalidVersion(token)
  {
    var parts := Split(token, '.');
    if forall p :: p in parts ==> p != "" && AllDigits(p) then
      Ok(Version(DecimalValue(parts[0]), if |parts| > 1 then DecimalValue(parts[1]) else 0))
    else Err(InvalidVersion(token))
  }

  /** A version written "major.minor" in decimal parses back to itself. */
  lemma ParseVersionOfRelease(v: Version)
    ensures ParseVersion(NatToString(v.major) + "." + NatToString(v.minor)) == Ok(v)
  {
    var a, b := NatToString(v.major), NatToString(v.minor);
    SplitOfDottedPair(a, b);
    ParseVersionOfParts(a + "." + b, a, b);
    DecimalValueOfNatToString(v.major);
    DecimalValueOfNatToString(v.minor);
  }

  lemma ParseVersionOfParts(token: string, a: string, b: string)
    requires Split(token, '.') == [a, b]
    requires a != "" && AllDigits(a) && b != "" && AllDigits(b)
    ensures ParseVersion(token) == Ok(Version(DecimalValue(a), DecimalValue(b)))
  {
    var parts := Split(token, '.');
    assert forall p :: p in parts ==> p == a || p == b;
  }

  /** A token holding anything but digits and dots is not a version. */
  lemma SplitOfDottedPair(a: string, b: string)
    requires AllDigits(a) && AllDigits(b)
    ensures Split(a + "." + b, '.') == [a, b]
  {
    forall p | p in [a, b] ensures '.' !in p {
      assert AllDigits(p);
    }
    SplitJoin([a, b], '.');
    assert Join([a, b], '.') == a + "." + b by { assert [a, b][1..] == [b]; }
  }

  lemma ParseVersionRejectsNonDigits(token: string, k: nat)
    requires k < |token| && token[k] != '.' && !IsDigit(token[k])
    ensures ParseVersion(token) == Err(InvalidVersion(token))
  {
    var parts := Split(token, '.');
    JoinSplit(token, '.');
    if forall p :: p in parts ==> p != "" && AllDigits(p) {
      JoinOfDigitsHasOnlyDigitsAndDots(parts);
    }
  }

  lemma {:induction false} JoinOfDigitsHasOnlyDigitsAndDots(parts: seq<string>)
    requires forall p :: p in parts ==> AllDigits(p)
    ensures forall i :: 0 <= i < |Join(parts, '.')| ==> Join(parts, '.')[i] == '.' || IsDigit(Join(parts, '.')[i])
    decreases |parts|
  {
    if |parts| > 1 {
      assert forall p :: p in parts[1..] ==> p in parts;
      JoinOfDigitsHasOnlyDigitsAndDots(parts[1..]);
      var s := Join(parts, '.');
      assert s == parts[0] + ['.'] + Join(parts[1..], '.');
      assert parts[0] in parts;
      forall i | 0 <= i < |s| ensures s[i] == '.' || IsDigit(s[i]) {
        if i < |parts[0]| { assert s[i] == parts[0][i]; }
        else if i > |parts[0]| { assert s[i] == Join(parts[1..], '.')[i - |parts[0]| - 1]; }
      }
    } else if |parts| == 1 {
      assert parts[0] in parts;
    }
  }

  /** get_nvcc_cuda_version on the text nvcc printed. */
  function NvccCudaVersion(output: string): (r: Result<Version>)
    ensures r.Err? ==> r.error.NoReleaseToken? || r.error.NoTokenAfterRelease? || r.error.InvalidVersion?
  {
    var token :- VersionToken(output);
    ParseVersion(token)
  }

  /** nvcc output whose words are `before`, then "release", then "M.m," and then `after`
      (as in "Cuda compilation tools, release 12.1, V12.1.105"), however the words are
      separated, yields version M.m. */
  lemma NvccCudaVersionOfReleaseLine(output: string, before: seq<string>, v: Version, after: seq<string>)
    requires "release" !in before
    requires Words(output) == before + ["release", NatToString(v.major) + "." + NatToString(v.minor) + ","] + after
    ensures NvccCudaVersion(output) == Ok(v)
  {
    var ws := Words(output);
    assert ws[..|before|] == before;
    assert ws[|before|] == "release";
    VersionTokenAfterFirstRelease(output, |before|);
    CutAtCommaOfRelease(NatToString(v.major), NatToString(v.minor));
    ParseVersionOfRelease(v);
  }

  lemma ReleaseTokenNoSpace(a: string, b: string)
    requires AllDigits(a) && AllDigits(b)
    ensures NoSpace(a + "." + b + ",")
  {
    var token := a + "." + b + ",";
    forall i | 0 <= i < |token| ensures !IsSpace(token[i]) {
      if i < |a| {
        assert token[i] == a[i];
      } else if |a| < i < |a| + 1 + |b| {
        assert token[i] == b[i - |a| - 1];
      }
    }
  }

  lemma CutAtCommaOfRelease(a: string, b: string)
    requires AllDigits(a) && AllDigits(b)
    ensures CutAtComma(a + "." + b + ",") == a + "." + b
  {
    var release := a + "." + b;
    assert ',' !in release by {
      JoinOfDigitsHasOnlyDigitsAndDots([a, b]);
      assert Join([a, b], '.') == release by { assert [a, b][1..] == [b]; }
    }
    SplitJoin([release, ""], ',');
    assert Join([release, ""], ',') == release + ",";
  }

  /** The version line CUDA 12.1's nvcc prints yields version 12.1. */
  lemma NvccCudaVersionExample()
    ensures NvccCudaVersion(JoinWords(["Cuda", "compilation", "tools,", "release", "12.1,", "V12.1.105"]))
              == Ok(Version(12, 1))
  {
    var token := NatToString(12) + "." + NatToString(1) + ",";
    assert token == "12.1,";
    var before, after := ["Cuda", "compilation", "tools,"], ["V12.1.105"];
    var ws := before + ["release", token] + after;
    assert ws == ["Cuda", "compilation", "tools,", "release", "12.1,", "V12.1.105"];
    ExampleWords(ws);
    NvccCudaVersionOfReleaseLine(JoinWords(ws), before, Version(12, 1), after);
  }

  lemma ExampleWords(ws: seq<string>)
    requires ws == ["Cuda", "compilation", "tools,", "release", "12.1,", "V12.1.105"]
    ensures Words(JoinWords(ws)) == ws
  {
    forall w | w in ws ensures w != [] && NoSpace(w) {
      assert w == ws[0] || w == ws[1] || w == ws[2] || w == ws[3] || w == ws[4] || w == ws[5];
    }
    WordsJoinWords(ws);
  }

  /** The release line may end the output, and any run of whitespace, newlines included,
      separates its words: "release", then run `sp1`, then "M.m,", then run `sp2`, then the
      build word, then optional trailing whitespace `sp3` yields version M.m. */
  lemma NvccCudaVersionAcrossLines(v: Version, build: string, sp1: string, sp2: string, sp3: string)
    requires build != [] && NoSpace(build)
    requires sp1 != [] && AllSpace(sp1) && sp2 != [] && AllSpace(sp2) && AllSpace(sp3)
    ensures var token := NatToString(v.major) + "." + NatToString(v.minor) + ",";
            NvccCudaVersion("release" + sp1 + token + sp2 + build + sp3) == Ok(v)
  {
    var release, token := "release", NatToString(v.major) + "." + NatToString(v.minor) + ",";
    ReleaseTokenNoSpace(NatToString(v.major), NatToString(v.minor));
    assert NoSpace(release);
    var rest := build + sp3;
    var output := release + sp1 + token + sp2 + build + sp3;
    assert output == release + sp1 + (token + sp2 + rest);
    WordsOfLastWord(build, sp3);
    WordsOfWordThenSpace(token, sp2, rest);
    WordsOfWordThenSpace(release, sp1, token + sp2 + rest);
    assert Words(output) == [] + [release, token] + [build];
    NvccCudaVersionOfReleaseLine(output, [], v, [build]);
  }
}
