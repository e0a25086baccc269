/** The test-variant generator of the `for_each_fmu` attribute macro
    (unifmu_macros/src/lib.rs): the enabled FMI versions, languages,
    packagings and backends are combined in that nested order, a blackbox
    backend only with Python in a bare directory, and every variant gets a
    function-name suffix. */
module FmuVariants {

  datatype FmiVersion = Fmi2 | Fmi3
  datatype ProgrammingLanguage = CSharp | Java | Python
  datatype FmuPackaging = BareDirectory | Zipped
  datatype FmuBackend = Blackbox | Distributed | Local

  datatype FmuVariant = FmuVariant(
    version: FmiVersion, language: ProgrammingLanguage, packaging: FmuPackaging, backend: FmuBackend)

  /** `FmuPossibilities`: one switch per option. */
  datatype FmuPossibilities = FmuPossibilities(
    fmi2: bool, fmi3: bool,
    csharp: bool, java: bool, python: bool,
    bareDirectory: bool, zipped: bool,
    blackbox: bool, distributed: bool, local: bool)

  /** `with_all_enabled`. */
  function AllEnabled(): FmuPossibilities
  {
    FmuPossibilities(true, true, true, true, true, true, true, true, true, true)
  }

  ghost predicate Distinct<T>(s: seq<T>)
  {
    forall i, j :: 0 <= i < j < |s| ==> s[i] != s[j]
  }

  /** Blackbox FMUs must be Python based and not zipped. */
  predicate Allowed(language: ProgrammingLanguage, packaging: FmuPackaging, backend: FmuBackend)
  {
    !(backend == Blackbox && (language != Python || packaging != BareDirectory))
  }

  /** Whether the switches enable each part of a variant. */
  predicate VersionEnabled(p: FmuPossibilities, v: FmiVersion)
  {
    match v case Fmi2 => p.fmi2 case Fmi3 => p.fmi3
  }

  predicate LanguageEnabled(p: FmuPossibilities, l: ProgrammingLanguage)
  {
    match l case CSharp => p.csharp case Java => p.java case Python => p.python
  }

  predicate PackagingEnabled(p: FmuPossibilities, k: FmuPackaging)
  {
    match k case BareDirectory => p.bareDirectory case Zipped => p.zipped
  }

  predicate BackendEnabled(p: FmuPossibilities, b: FmuBackend)
  {
    match b case Blackbox => p.blackbox case Distributed => p.distributed case Local => p.local
  }

  predicate Enabled(p: FmuPossibilities, x: FmuVariant)
  {
    VersionEnabled(p, x.version) && LanguageEnabled(p, x.language)
    && PackagingEnabled(p, x.packaging) && BackendEnabled(p, x.backend)
  }

  /** The four lists `get_variations` fills, in declaration order. */
  function Versions(p: FmuPossibilities): seq<FmiVersion>
  {
    (if p.fmi2 then [Fmi2] else []) + (if p.fmi3 then [Fmi3] else [])
  }

  function Languages(p: FmuPossibilities): seq<ProgrammingLanguage>
  {
    (if p.csharp then [CSharp] else []) + (if p.java then [Java] else []) + (if p.python then [Python] else [])
  }

  function Packagings(p: FmuPossibilities): seq<FmuPackaging>
  {
    (if p.bareDirectory then [BareDirectory] else []) + (if p.zipped then [Zipped] else [])
  }

  function Backends(p: FmuPossibilities): seq<FmuBackend>
  {
    (if p.blackbox then [Blackbox] else []) + (if p.distributed then [Distributed] else []) + (if p.local then [Local] else [])
  }

  /** Each list holds the enabled options of its kind, once each. */
  lemma EnabledLists(p: FmuPossibilities)
    ensures forall v :: v in Versions(p) <==> VersionEnabled(p, v)
    ensures forall l :: l in Languages(p) <==> LanguageEnabled(p, l)
    ensures forall k :: k in Packagings(p) <==> PackagingEnabled(p, k)
    ensures forall b :: b in Backends(p) <==> BackendEnabled(p, b)
    ensures Distinct(Versions(p)) && Distinct(Languages(p)) && Distinct(Packagings(p)) && Distinct(Backends(p))
  {
  }

  /** The innermost loop over the backends, as a specification: the allowed
      variants of one version, language and packaging, in backend order. */
  function ForBackends(v: FmiVersion, l: ProgrammingLanguage, k: FmuPackaging, bs: seq<FmuBackend>): seq<FmuVariant>
    decreases |bs|
  {
    if |bs| == 0 then []
    else
      var b := bs[|bs| - 1];
      ForBackends(v, l, k, bs[..|bs| - 1]) + (if Allowed(l, k, b) then [FmuVariant(v, l, k, b)] else [])
  }

  /** The loop over the packagings. */
  function ForPackagings(v: FmiVersion, l: ProgrammingLanguage, ks: seq<FmuPackaging>, bs: seq<FmuBackend>): seq<FmuVariant>
    decreases |ks|
  {
    if |ks| == 0 then [] else ForPackagings(v, l, ks[..|ks| - 1], bs) + ForBackends(v, l, ks[|ks| - 1], bs)
  }

  /** The loop over the languages. */
  function ForLanguages(v: FmiVersion, ls: seq<ProgrammingLanguage>, ks: seq<FmuPackaging>, bs: seq<FmuBackend>): seq<FmuVariant>
    decreases |ls|
  {
    if |ls| == 0 then [] else ForLanguages(v, ls[..|ls| - 1], ks, bs) + ForPackagings(v, ls[|ls| - 1], ks, bs)
  }

  /** The outermost loop, over the versions. */
  function ForVersions(vs: seq<FmiVersion>, ls: seq<ProgrammingLanguage>, ks: seq<FmuPackaging>, bs: seq<FmuBackend>): seq<FmuVariant>
    decreases |vs|
  {
    if |vs| == 0 then [] else ForVersions(vs[..|vs| - 1], ls, ks, bs) + ForLanguages(vs[|vs| - 1], ls, ks, bs)
  }

  /** The variants `get_variations` returns. */
  function Variations(p: FmuPossibilities): seq<FmuVariant>
  {
    ForVersions(Versions(p), Languages(p), Packagings(p), Backends(p))
  }

  lemma {:induction false} ForBackendsMembers(v: FmiVersion, l: ProgrammingLanguage, k: FmuPackaging, bs: seq<FmuBackend>)
    ensures forall x :: x in ForBackends(v, l, k, bs) <==>
      x.version == v && x.language == l && x.packaging == k && x.backend in bs && Allowed(l, k, x.backend)
    ensures Distinct(bs) ==> Distinct(ForBackends(v, l, k, bs))
    decreases |bs|
  {
    if |bs| > 0 {
      ForBackendsMembers(v, l, k, bs[..|bs| - 1]);
      assert forall x :: x in bs <==> x in bs[..|bs| - 1] || x == bs[|bs| - 1];
    }
  }

  lemma {:induction false} ForPackagingsMembers(v: FmiVersion, l: ProgrammingLanguage, ks: seq<FmuPackaging>, bs: seq<FmuBackend>)
    ensures forall x :: x in ForPackagings(v, l, ks, bs) <==>
      x.version == v && x.language == l && x.packaging in ks && x.backend in bs && Allowed(l, x.packaging, x.backend)
    ensures Distinct(ks) && Distinct(bs) ==> Distinct(ForPackagings(v, l, ks, bs))
    decreases |ks|
  {
    if |ks| > 0 {
      ForPackagingsMembers(v, l, ks[..|ks| - 1], bs);
      ForBackendsMembers(v, l, ks[|ks| - 1], bs);
      assert forall x :: x in ks <==> x in ks[..|ks| - 1] || x == ks[|ks| - 1];
    }
  }

  lemma {:induction false} ForLanguagesMembers(v: FmiVersion, ls: seq<ProgrammingLanguage>, ks: seq<FmuPackaging>, bs: seq<FmuBackend>)
    ensures forall x :: x in ForLanguages(v, ls, ks, bs) <==>
      x.version == v && x.language in ls && x.packaging in ks && x.backend in bs && Allowed(x.language, x.packaging, x.backend)
    ensures Distinct(ls) && Distinct(ks) && Distinct(bs) ==> Distinct(ForLanguages(v, ls, ks, bs))
    decreases |ls|
  {
    if |ls| > 0 {
      ForLanguagesMembers(v, ls[..|ls| - 1], ks, bs);
      ForPackagingsMembers(v, ls[|ls| - 1], ks, bs);
      assert forall x :: x in ls <==> x in ls[..|ls| - 1] || x == ls[|ls| - 1];
    }
  }

  lemma {:induction false} ForVersionsMembers(vs: seq<FmiVersion>, ls: seq<ProgrammingLanguage>, ks: seq<FmuPackaging>, bs: seq<FmuBackend>)
    ensures forall x :: x in ForVersions(vs, ls, ks, bs) <==>
      x.version in vs && x.language in ls && x.packaging in ks && x.backend in bs && Allowed(x.language, x.packaging, x.backend)
    ensures Distinct(vs) && Distinct(ls) && Distinct(ks) && Distinct(bs) ==> Distinct(ForVersions(vs, ls, ks, bs))
    decreases |vs|
  {
    if |vs| > 0 {
      ForVersionsMembers(vs[..|vs| - 1], ls, ks, bs);
      ForLanguagesMembers(vs[|vs| - 1], ls, ks, bs);
      assert forall x :: x in vs <==> x in vs[..|vs| - 1] || x == vs[|vs| - 1];
    }
  }

  /** A variant is generated exactly when every one of its parts is enabled
      and the blackbox rule allows it, and no variant is generated twice; in
      particular a disabled option never appears. */
  lemma VariationsMembers(p: FmuPossibilities)
    ensures forall x :: x in Variations(p) <==> Enabled(p, x) && Allowed(x.language, x.packaging, x.backend)
    ensures Distinct(Variations(p))
  {
    EnabledLists(p);
    ForVersionsMembers(Versions(p), Languages(p), Packagings(p), Backends(p));
  }

  /** A blackbox variant is always Python in a bare directory. */
  lemma BlackboxOnlyPythonBare(p: FmuPossibilities, x: FmuVariant)
    requires x in Variations(p) && x.backend == Blackbox
    ensures x.language == Python && x.packaging == BareDirectory
  {
    VariationsMembers(p);
  }

  /** `get_variations`: the four nested loops over the enabled lists, a
      disallowed blackbox combination skipped; the inner loops are in
      `PushLanguages`, `PushPackagings` and `PushBackends`. */
  method GetVariations(p: FmuPossibilities) returns (variations: seq<FmuVariant>)
    ensures variations == Variations(p)
  {
    var versions, languages, packagings, backends := Versions(p), Languages(p), Packagings(p), Backends(p);
    variations := [];
    for i := 0 to |versions|
      invariant variations == ForVersions(versions[..i], languages, packagings, backends)
    {
      variations := PushLanguages(variations, versions[i], languages, packagings, backends);
      assert versions[..i + 1][..i] == versions[..i];
    }
    assert versions[..|versions|] == versions;
  }

  /** The loop over the languages of one version, appending to `variations`. */
  method PushLanguages(variations: seq<FmuVariant>, version: FmiVersion, languages: seq<ProgrammingLanguage>,
                       packagings: seq<FmuPackaging>, backends: seq<FmuBackend>) returns (r: seq<FmuVariant>)
    ensures r == variations + ForLanguages(version, languages, packagings, backends)
  {
    r := variations;
    for j := 0 to |languages|
      invariant r == variations + ForLanguages(version, languages[..j], packagings, backends)
    {
      r := PushPackagings(r, version, languages[j], packagings, backends);
      assert languages[..j + 1][..j] == languages[..j];
    }
    assert languages[..|languages|] == languages;
  }

  /** The loop over the packagings of one version and language. */
  method PushPackagings(variations: seq<FmuVariant>, version: FmiVersion, language: ProgrammingLanguage,
                        packagings: seq<FmuPackaging>, backends: seq<FmuBackend>) returns (r: seq<FmuVariant>)
    ensures r == variations + ForPackagings(version, language, packagings, backends)
  {
    r := variations;
    for m := 0 to |packagings|
      invariant r == variations + ForPackagings(version, language, packagings[..m], backends)
    {
      r := PushBackends(r, version, language, packagings[m], backends);
      assert packagings[..m + 1][..m] == packagings[..m];
    }
    assert packagings[..|packagings|] == packagings;
  }

  /** The innermost loop: the allowed variants of one version, language and
      packaging, in backend order. */
  method PushBackends(variations: seq<FmuVariant>, version: FmiVersion, language: ProgrammingLanguage,
                      packaging: FmuPackaging, backends: seq<FmuBackend>) returns (r: seq<FmuVariant>)
    ensures r == variations + ForBackends(version, language, packaging, backends)
  {
    r := variations;
    for n := 0 to |backends|
      invariant r == variations + ForBackends(version, language, packaging, backends[..n])
    {
      var backend := backends[n];
      assert backends[..n + 1][..n] == backends[..n];
      if backend == Blackbox && (language != Python || packaging != BareDirectory) {
        continue;
      }
      r := r + [FmuVariant(version, language, packaging, backend)];
    }
    assert backends[..|backends|] == backends;
  }

  /** With all three backends enabled, a version, language and packaging
      give three variants when they allow a blackbox and two otherwise. */
  lemma AllBackendsCount(v: FmiVersion, l: ProgrammingLanguage, k: FmuPackaging)
    ensures |ForBackends(v, l, k, [Blackbox, Distributed, Local])| == if l == Python && k == BareDirectory then 3 else 2
  {
    var bs := [Blackbox, Distributed, Local];
    assert bs[..2] == [Blackbox, Distributed] && bs[..2][..1] == [Blackbox] && bs[..2][..1][..0] == [];
    assert |ForBackends(v, l, k, [Blackbox])| == if l == Python && k == BareDirectory then 1 else 0;
    assert |ForBackends(v, l, k, [Blackbox, Distributed])| == |ForBackends(v, l, k, [Blackbox])| + 1;
    assert |ForBackends(v, l, k, bs)| == |ForBackends(v, l, k, [Blackbox, Distributed])| + 1;
  }

  lemma AllPackagingsCount(v: FmiVersion, l: ProgrammingLanguage)
    ensures |ForPackagings(v, l, [BareDirectory, Zipped], [Blackbox, Distributed, Local])| == if l == Python then 5 else 4
  {
    var ks, bs := [BareDirectory, Zipped], [Blackbox, Distributed, Local];
    assert ks[..1] == [BareDirectory] && ks[..1][..0] == [];
    AllBackendsCount(v, l, BareDirectory);
    AllBackendsCount(v, l, Zipped);
    assert |ForPackagings(v, l, [BareDirectory], bs)| == |ForBackends(v, l, BareDirectory, bs)|;
    assert |ForPackagings(v, l, ks, bs)| == |ForPackagings(v, l, [BareDirectory], bs)| + |ForBackends(v, l, Zipped, bs)|;
  }

  lemma AllLanguagesCount(v: FmiVersion)
    ensures |ForLanguages(v, [CSharp, Java, Python], [BareDirectory, Zipped], [Blackbox, Distributed, Local])| == 13
  {
    var ls, ks, bs := [CSharp, Java, Python], [BareDirectory, Zipped], [Blackbox, Distributed, Local];
    assert ls[..2] == [CSharp, Java] && ls[..2][..1] == [CSharp] && ls[..2][..1][..0] == [];
    AllPackagingsCount(v, CSharp);
    AllPackagingsCount(v, Java);
    AllPackagingsCount(v, Python);
    assert |ForLanguages(v, [CSharp], ks, bs)| == 4;
    assert |ForLanguages(v, [CSharp, Java], ks, bs)| == 8;
    assert |ForLanguages(v, ls, ks, bs)| == 8 + |ForPackagings(v, Python, ks, bs)|;
  }

  /** With every option enabled there are 2 * 3 * 2 * 3 = 36 combinations,
      of which the 10 with a blackbox backend outside Python in a bare
      directory are skipped. */
  lemma AllEnabledCount()
    ensures |Variations(AllEnabled())| == 26
  {
    var p := AllEnabled();
    var vs, ls, ks, bs := [Fmi2, Fmi3], [CSharp, Java, Python], [BareDirectory, Zipped], [Blackbox, Distributed, Local];
    assert Versions(p) == vs && Languages(p) == ls && Packagings(p) == ks && Backends(p) == bs;
    assert vs[..1] == [Fmi2] && vs[..1][..0] == [];
    AllLanguagesCount(Fmi2);
    AllLanguagesCount(Fmi3);
    assert |ForVersions([Fmi2], ls, ks, bs)| == 13;
    assert |ForVersions(vs, ls, ks, bs)| == 13 + |ForLanguages(Fmi3, ls, ks, bs)|;
  }

  function VersionPart(v: FmiVersion): string
  {
    match v case Fmi2 => "fmi2" case Fmi3 => "fmi3"
  }

  function LanguagePart(l: ProgrammingLanguage): string
  {
    match l case CSharp => "csharp" case Java => "java" case Python => "python"
  }

  function PackagingPart(k: FmuPackaging): string
  {
    match k case BareDirectory => "bare_directory" case Zipped => "zipped"
  }

  function BackendPart(b: FmuBackend): string
  {
    match b case Blackbox => "blackbox" case Distributed => "distributed" case Local => "local"
  }

  /** The suffix from the packaging on, and from the language on. */
  function PackagingTail(x: FmuVariant): string
  {
    "_" + PackagingPart(x.packaging) + "_" + BackendPart(x.backend)
  }

  function LanguageTail(x: FmuVariant): string
  {
    "_" + LanguagePart(x.language) + PackagingTail(x)
  }

  /** `function_suffix`: `_version_language_packaging_backend`. */
  function FunctionSuffix(x: FmuVariant): string
  {
    "_" + VersionPart(x.version) + LanguageTail(x)
  }

  /** Two sequences that agree after a common prefix agree. */
  lemma DropPrefix(a: string, r1: string, r2: string)
    requires a + r1 == a + r2
    ensures r1 == r2
  {
    assert r1 == (a + r1)[|a|..];
    assert r2 == (a + r2)[|a|..];
  }

  /** Distinct variants get distinct suffixes, so the functions the macro
      generates from one test never share a name: each part opens with a
      character of its own, and the parts of the variants that agree so far
      have the same length. */
  lemma FunctionSuffixInjective(x: FmuVariant, y: FmuVariant)
    requires FunctionSuffix(x) == FunctionSuffix(y)
    ensures x == y
  {
    var s, t := FunctionSuffix(x), FunctionSuffix(y);
    assert s[4] == VersionPart(x.version)[3] && t[4] == VersionPart(y.version)[3];
    assert x.version == y.version;
    DropPrefix("_" + VersionPart(x.version), LanguageTail(x), LanguageTail(y));
    assert LanguageTail(x)[1] == LanguagePart(x.language)[0];
    assert LanguageTail(y)[1] == LanguagePart(y.language)[0];
    assert x.language == y.language;
    DropPrefix("_" + LanguagePart(x.language), PackagingTail(x), PackagingTail(y));
    var kx, ky := PackagingTail(x), PackagingTail(y);
    assert kx[1] == PackagingPart(x.packaging)[0] && ky[1] == PackagingPart(y.packaging)[0];
    assert x.packaging == y.packaging;
    DropPrefix("_" + PackagingPart(x.packaging) + "_", BackendPart(x.backend), BackendPart(y.backend));
  }

  /** The names `for_each_fmu` gives the functions it generates from a
      test named `ident`: one per variant, `ident` followed by the variant's
      suffix. */
  function GeneratedNames(ident: string, variants: seq<FmuVariant>): (names: seq<string>)
    ensures |names| == |variants|
    ensures forall i :: 0 <= i < |names| ==> ident <= names[i]
  {
    seq(|variants|, i requires 0 <= i < |variants| => ident + FunctionSuffix(variants[i]))
  }

  /** Distinct variants give distinct function names. */
  lemma GeneratedNamesDistinct(ident: string, variants: seq<FmuVariant>)
    requires Distinct(variants)
    ensures Distinct(GeneratedNames(ident, variants))
  {
    var names := GeneratedNames(ident, variants);
    forall i, j | 0 <= i < j < |names|
      ensures names[i] != names[j]
    {
      if names[i] == names[j] {
        DropPrefix(ident, FunctionSuffix(variants[i]), FunctionSuffix(variants[j]));
        FunctionSuffixInjective(variants[i], variants[j]);
      }
    }
  }

}
