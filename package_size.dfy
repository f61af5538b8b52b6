/** The npm package size page (src/app/package-size/page.tsx): the registry
    lookups become a map from package name to the response the registry would
    give, and `analyzePackage` sums the sizes of at most ten dependencies. */
module PackageSize {
  import opened Common
  import opened StableSort

  /** One published version: `dist.unpackedSize` (absent or not) and the
      names of its `dependencies`, in key order. */
  datatype VersionData = VersionData(unpackedSize: Option<int>, dependencies: seq<string>)

  /** What `fetch` of a registry document ends in: a thrown error (the fetch
      rejected, the body was not JSON, or it had no `dist-tags`), a response
      that is not ok, or a document with its latest tag and its versions. */
  datatype Response =
    | Rejected(err: Thrown)
    | NotOk
    | Ok(latest: string, versions: map<string, VersionData>)

  /** The registry as the page sees it; a name it does not know answers 404. */
  type Registry = map<string, Response>

  function Fetch(registry: Registry, name: string): Response {
    if name in registry then registry[name] else NotOk
  }

  /** `x || 0` on a size: an absent or zero size reads as 0. */
  function SizeOrZero(size: Option<int>): (n: int)
    ensures size.Some? ==> n == size.value
    ensures size.None? ==> n == 0
  {
    match size
    case Some(s) => s
    case None => 0
  }

  /** The unpacked size the registry records for the latest version of
      `name`, if it can be reached. */
  function RecordedSize(registry: Registry, name: string): Option<int> {
    match Fetch(registry, name)
    case Ok(latest, versions) =>
      if latest in versions then versions[latest].unpackedSize else None
    case _ => None
  }

  /** `fetchPackageSize(name)`: never fails; 0 unless the registry records a
      size for the latest version. */
  function FetchPackageSize(registry: Registry, name: string): (size: int)
    ensures RecordedSize(registry, name).None? ==> size == 0
    ensures RecordedSize(registry, name).Some? ==> size == RecordedSize(registry, name).value
    ensures !Fetch(registry, name).Ok? ==> size == 0
  {
    match Fetch(registry, name)
    case Ok(latest, versions) =>
      if latest in versions then SizeOrZero(versions[latest].unpackedSize) else 0
    case _ => 0
  }

  // ---------------------------------------------------------------------
  // The dependency loop

  /** At most this many dependencies are looked up. */
  const MaxDependencies: nat := 10

  function FirstDependencies(deps: seq<string>): (names: seq<string>)
    ensures |names| <= MaxDependencies
    ensures |names| == if |deps| < MaxDependencies then |deps| else MaxDependencies
    ensures names == deps[..|names|]
  {
    if |deps| < MaxDependencies then deps else deps[..MaxDependencies]
  }

  /** One entry of the `depSizes` object. */
  datatype DepEntry = DepEntry(name: string, size: int)

  function Names(entries: seq<DepEntry>): set<string> {
    set e | e in entries :: e.name
  }

  function NameOf(e: DepEntry): string {
    e.name
  }

  ghost predicate DistinctNames(entries: seq<DepEntry>) {
    DistinctBy(entries, NameOf)
  }

  /** The position of the entry named `name`, or `|entries|` when there is
      none. */
  function IndexOf(entries: seq<DepEntry>, name: string): (k: nat)
    ensures k <= |entries|
    ensures forall j :: 0 <= j < k ==> entries[j].name != name
    ensures k < |entries| ==> entries[k].name == name
  {
    if entries == [] || entries[0].name == name then 0
    else 1 + IndexOf(entries[1..], name)
  }

  /** `depSizes[name] = size`: a new name is appended, a known one is
      overwritten where it stands. */
  function Put(entries: seq<DepEntry>, name: string, size: int): (r: seq<DepEntry>)
    ensures name !in Names(entries) ==> r == entries + [DepEntry(name, size)]
    ensures name in Names(entries) ==> |r| == |entries|
    ensures DepEntry(name, size) in r
    ensures forall i :: 0 <= i < |entries| && entries[i].name != name ==> r[i] == entries[i]
    ensures forall i :: 0 <= i < |entries| ==> r[i].name == entries[i].name
    ensures Names(r) == Names(entries) + {name}
    ensures forall e :: e in r ==> e == DepEntry(name, size) || e in entries
  {
    var k := IndexOf(entries, name);
    if k == |entries| then
      assert name !in Names(entries) by {
        forall e | e in entries ensures e.name != name {
          var j :| 0 <= j < |entries| && entries[j] == e;
        }
      }
      entries + [DepEntry(name, size)]
    else
      var r := entries[k := DepEntry(name, size)];
      assert entries[k] in entries && r[k] in r;
      assert Names(r) == Names(entries) by {
        forall x | x in Names(r) ensures x in Names(entries) {
          var j :| 0 <= j < |r| && r[j].name == x;
          assert entries[j] in entries;
        }
        forall x | x in Names(entries) ensures x in Names(r) {
          var j :| 0 <= j < |entries| && entries[j].name == x;
          assert r[j] in r;
        }
      }
      r
  }

  /** Assignment keeps the names distinct. */
  lemma PutDistinct(entries: seq<DepEntry>, name: string, size: int)
    requires DistinctNames(entries)
    ensures DistinctNames(Put(entries, name, size))
  {
    var r := Put(entries, name, size);
    if name !in Names(entries) {
      forall i, j | 0 <= i < j < |r| ensures r[i].name != r[j].name {
        if j == |entries| {
          assert r[i] in entries;
        }
      }
    }
  }

  /** The `depSizes` object after the loop has looked at `names`. */
  function Recorded(registry: Registry, names: seq<string>): seq<DepEntry> {
    if names == [] then []
    else
      var last := names[|names| - 1];
      var prev := Recorded(registry, names[..|names| - 1]);
      var size := FetchPackageSize(registry, last);
      if size > 0 then Put(prev, last, size) else prev
  }

  /** `totalDepSize` after the loop has looked at `names`. */
  function TotalPositive(registry: Registry, names: seq<string>): int {
    if names == [] then 0
    else
      var size := FetchPackageSize(registry, names[|names| - 1]);
      TotalPositive(registry, names[..|names| - 1]) + (if size > 0 then size else 0)
  }

  function SumSizes(entries: seq<DepEntry>): int {
    if entries == [] then 0 else SumSizes(entries[..|entries| - 1]) + entries[|entries| - 1].size
  }

  /** Looking at one more name updates both results by that name's size. */
  lemma RecordedStep(registry: Registry, names: seq<string>, i: nat)
    requires i < |names|
    ensures var size := FetchPackageSize(registry, names[i]);
      && Recorded(registry, names[..i + 1]) ==
           (if size > 0 then Put(Recorded(registry, names[..i]), names[i], size) else Recorded(registry, names[..i]))
      && TotalPositive(registry, names[..i + 1]) ==
           TotalPositive(registry, names[..i]) + (if size > 0 then size else 0)
  {
    assert names[..i + 1][..i] == names[..i];
  }

  /** The loop of `analyzePackage`: looks up the first ten dependencies and
      keeps those with a positive size. */
  method SumDependencies(registry: Registry, dependencies: seq<string>)
    returns (depSizes: seq<DepEntry>, totalDepSize: int)
    ensures depSizes == Recorded(registry, FirstDependencies(dependencies))
    ensures totalDepSize == TotalPositive(registry, FirstDependencies(dependencies))
  {
    var depNames := FirstDependencies(dependencies);
    depSizes, totalDepSize := [], 0;
    var i := 0;
    while i < |depNames|
      invariant 0 <= i <= |depNames|
      invariant depSizes == Recorded(registry, depNames[..i])
      invariant totalDepSize == TotalPositive(registry, depNames[..i])
    {
      RecordedStep(registry, depNames, i);
      var depSize := FetchPackageSize(registry, depNames[i]);
      if depSize > 0 {
        depSizes := Put(depSizes, depNames[i], depSize);
        totalDepSize := totalDepSize + depSize;
      }
      i := i + 1;
    }
    assert depNames[..i] == depNames;
  }

  /** The recorded dependencies are exactly the examined names with a
      positive size. */
  lemma {:induction false} RecordedNames(registry: Registry, names: seq<string>)
    ensures forall n :: n in Names(Recorded(registry, names)) <==>
      n in names && FetchPackageSize(registry, n) > 0
  {
    if names != [] {
      var prefix := names[..|names| - 1];
      var last := names[|names| - 1];
      RecordedNames(registry, prefix);
      assert names == prefix + [last];
      forall n ensures n in names <==> n in prefix || n == last {
      }
    }
  }

  /** Each recorded dependency carries its own positive registry size, each
      name is recorded once, and no more entries than names examined. */
  lemma {:induction false} RecordedSizes(registry: Registry, names: seq<string>)
    ensures var r := Recorded(registry, names);
      && (forall e :: e in r ==> e.size == FetchPackageSize(registry, e.name) && e.size > 0)
      && DistinctNames(r)
      && |r| <= |names|
  {
    if names != [] {
      var prefix := names[..|names| - 1];
      var last := names[|names| - 1];
      RecordedSizes(registry, prefix);
      var prev := Recorded(registry, prefix);
      var size := FetchPackageSize(registry, last);
      if size > 0 {
        var r := Put(prev, last, size);
        assert Recorded(registry, names) == r;
        PutDistinct(prev, last, size);
        if last !in Names(prev) {
          assert |r| == |prev| + 1;
        }
      }
    }
  }

  /** With distinct dependency names (as object keys always are), the total
      is the sum of the recorded sizes. */
  lemma {:induction false} TotalIsSumOfRecorded(registry: Registry, names: seq<string>)
    requires forall i, j :: 0 <= i < j < |names| ==> names[i] != names[j]
    ensures TotalPositive(registry, names) == SumSizes(Recorded(registry, names))
  {
    if names != [] {
      var prefix := names[..|names| - 1];
      var last := names[|names| - 1];
      TotalIsSumOfRecorded(registry, prefix);
      RecordedNames(registry, prefix);
      var prev := Recorded(registry, prefix);
      var size := FetchPackageSize(registry, last);
      if size > 0 {
        assert last !in prefix;
        assert last !in Names(prev);
        var r := prev + [DepEntry(last, size)];
        assert Recorded(registry, names) == r;
        assert r[..|r| - 1] == prev;
        assert SumSizes(r) == SumSizes(prev) + size;
      } else {
        assert Recorded(registry, names) == prev;
      }
    }
  }

  // ---------------------------------------------------------------------
  // The whole analysis

  const BlankNameError: string := "Please enter a package name"
  const PackageNotFound: string := "Package not found"
  const AnalyzeFallback: string := "Failed to analyze package"
  /** The TypeError message for `versionData.dependencies` when the latest
      tag names a version the document does not hold. */
  const MissingVersionError: string := "Cannot read properties of undefined (reading 'dependencies')"

  /** The `PackageInfo` shown as the result (without the gzip estimate). */
  datatype PackageInfo = PackageInfo(
    name: string, version: string, size: int, dependencies: seq<DepEntry>, totalSize: int)

  datatype Outcome = Analysed(info: PackageInfo) | Failed(message: string)

  /** What analysing `name` ends in. */
  function Analysis(registry: Registry, name: string): (o: Outcome)
    ensures Fetch(registry, name).NotOk? ==> o == Failed(PackageNotFound)
    ensures o.Analysed? ==> var r := Fetch(registry, name);
      && r.Ok? && r.latest in r.versions && o.info.name == name && o.info.version == r.latest
      && o.info.totalSize == o.info.size + TotalPositive(registry, FirstDependencies(r.versions[r.latest].dependencies))
    ensures o.Analysed? ==> o.info.size == FetchPackageSize(registry, name)
    ensures o.Failed? ==> o.message != "" || Fetch(registry, name).Rejected?
  {
    match Fetch(registry, name)
    case Rejected(e) => Failed(ErrorText(e, AnalyzeFallback))
    case NotOk => Failed(PackageNotFound)
    case Ok(latest, versions) =>
      if latest !in versions then Failed(MissingVersionError)
      else
        var data := versions[latest];
        var mainSize := SizeOrZero(data.unpackedSize);
        var deps := FirstDependencies(data.dependencies);
        Analysed(PackageInfo(name, latest, mainSize, Recorded(registry, deps),
          mainSize + TotalPositive(registry, deps)))
  }

  /** A successful analysis records at most ten dependencies, each with its
      positive registry size, and its total is the package's own size plus
      the recorded ones. */
  lemma AnalysisResult(registry: Registry, name: string)
    requires Analysis(registry, name).Analysed?
    ensures var info := Analysis(registry, name).info;
      && |info.dependencies| <= MaxDependencies
      && (forall e :: e in info.dependencies ==> e.size > 0 && e.size == FetchPackageSize(registry, e.name))
      && DistinctNames(info.dependencies)
    ensures var r := Fetch(registry, name);
      var deps := r.versions[r.latest].dependencies;
      (forall i, j :: 0 <= i < j < |deps| ==> deps[i] != deps[j]) ==>
        var info := Analysis(registry, name).info;
        info.totalSize == info.size + SumSizes(info.dependencies)
  {
    var r := Fetch(registry, name);
    var deps := r.versions[r.latest].dependencies;
    var first := FirstDependencies(deps);
    RecordedSizes(registry, first);
    if forall i, j :: 0 <= i < j < |deps| ==> deps[i] != deps[j] {
      TotalIsSumOfRecorded(registry, first);
    }
  }

  // ---------------------------------------------------------------------
  // `trim()` and the blank-name check

  /** The characters `String.prototype.trim` removes. */
  predicate IsJsWhitespace(c: char) {
    var n := c as int;
    (0x09 <= n <= 0x0D) || n == 0x20 || n == 0xA0 || n == 0x1680
    || (0x2000 <= n <= 0x200A) || n == 0x2028 || n == 0x2029 || n == 0x202F
    || n == 0x205F || n == 0x3000 || n == 0xFEFF
  }

  function TrimStart(s: string): string {
    if s != [] && IsJsWhitespace(s[0]) then TrimStart(s[1..]) else s
  }

  function TrimEnd(s: string): string {
    if s != [] && IsJsWhitespace(s[|s| - 1]) then TrimEnd(s[..|s| - 1]) else s
  }

  function Trim(s: string): string {
    TrimEnd(TrimStart(s))
  }

  predicate IsBlank(s: string) {
    forall i :: 0 <= i < |s| ==> IsJsWhitespace(s[i])
  }

  /** `!name.trim()` holds exactly for names made only of white space. */
  lemma {:induction false} TrimEmptyIffBlank(s: string)
    ensures Trim(s) == "" <==> IsBlank(s)
  {
    TrimStartBlank(s);
    var t := TrimStart(s);
    if t != [] {
      assert !IsJsWhitespace(t[0]);
      TrimEndKeepsFirst(t);
    }
  }

  lemma {:induction false} TrimStartBlank(s: string)
    ensures TrimStart(s) == "" <==> IsBlank(s)
    ensures TrimStart(s) != "" ==> !IsJsWhitespace(TrimStart(s)[0])
  {
    if s != [] && IsJsWhitespace(s[0]) {
      TrimStartBlank(s[1..]);
      if IsBlank(s[1..]) {
        assert IsBlank(s) by {
          forall i | 0 <= i < |s| ensures IsJsWhitespace(s[i]) {
            if i > 0 { assert s[i] == s[1..][i - 1]; }
          }
        }
      }
    }
  }

  lemma {:induction false} TrimEndKeepsFirst(s: string)
    requires s != [] && !IsJsWhitespace(s[0])
    ensures TrimEnd(s) != ""
  {
    if IsJsWhitespace(s[|s| - 1]) {
      TrimEndKeepsFirst(s[..|s| - 1]);
    }
  }

  /** `pkgName || packageName`: a non-empty argument wins over the typed name. */
  function NameToAnalyze(pkgName: Option<string>, typed: string): string {
    if pkgName.Some? && pkgName.value != "" then pkgName.value else typed
  }

  // ---------------------------------------------------------------------
  // Display

  /** `b.size - a.size` as a sort comparator: larger sizes first. */
  predicate SizeAtLeast(a: DepEntry, b: DepEntry) {
    a.size >= b.size
  }

  /** The dependency list as displayed: largest first, and entries of equal
      size in object order. */
  function DisplayOrder(dependencies: seq<DepEntry>): (r: seq<DepEntry>)
    ensures multiset(r) == multiset(dependencies)
    ensures forall i, j :: 0 <= i < j < |r| ==> r[i].size >= r[j].size
    ensures forall x :: Ties(r, x, SizeAtLeast) == Ties(dependencies, x, SizeAtLeast)
  {
    SortBySorted(dependencies, SizeAtLeast);
    forall x ensures Ties(SortBy(dependencies, SizeAtLeast), x, SizeAtLeast) == Ties(dependencies, x, SizeAtLeast) {
      SortByStable(dependencies, x, SizeAtLeast);
    }
    SortBy(dependencies, SizeAtLeast)
  }

  /** The large-package warning threshold, one mebibyte. */
  const LargePackageBytes: int := 1024 * 1024

  function ShowsLargeWarning(info: PackageInfo): (shown: bool)
    ensures shown <==> info.totalSize > 1048576
  {
    info.totalSize > LargePackageBytes
  }

  // ---------------------------------------------------------------------
  // The page state

  class PackageAnalyzer {
    var packageName: string
    var loading: bool
    var error: string
    var result: Option<PackageInfo>

    constructor ()
      ensures packageName == "" && !loading && error == "" && result == None
    {
      packageName, loading, error, result := "", false, "", None;
    }

    method SetPackageName(text: string)
      modifies this
      ensures packageName == text
      ensures loading == old(loading) && error == old(error) && result == old(result)
    {
      packageName := text;
    }

    /** `analyzePackage(pkgName)`: a blank name only sets the error; any
        other name clears error and result, runs the analysis, and ends with
        loading off and either the result or the error message. */
    method AnalyzePackage(pkgName: Option<string>, registry: Registry)
      modifies this
      ensures packageName == old(packageName)
      ensures var name := NameToAnalyze(pkgName, old(packageName));
        Trim(name) == "" ==>
          error == BlankNameError && loading == old(loading) && result == old(result)
      ensures var name := NameToAnalyze(pkgName, old(packageName));
        Trim(name) != "" ==>
          && !loading
          && (Analysis(registry, name).Analysed? ==>
                result == Some(Analysis(registry, name).info) && error == "")
          && (Analysis(registry, name).Failed? ==>
                result == None && error == Analysis(registry, name).message)
    {
      var name := NameToAnalyze(pkgName, packageName);
      if Trim(name) == "" {
        error := BlankNameError;
        return;
      }
      loading, error, result := true, "", None;
      ghost var outcome := Analysis(registry, name);
      match Fetch(registry, name) {
        case Rejected(e) =>
          error := ErrorText(e, AnalyzeFallback);
          assert outcome == Failed(error);
        case NotOk =>
          error := PackageNotFound;
          assert outcome == Failed(error);
        case Ok(latest, versions) =>
          if latest !in versions {
            error := MissingVersionError;
            assert outcome == Failed(error);
          } else {
            var data := versions[latest];
            var mainSize := SizeOrZero(data.unpackedSize);
            var depSizes, totalDepSize := SumDependencies(registry, data.dependencies);
            result := Some(PackageInfo(name, latest, mainSize, depSizes, mainSize + totalDepSize));
            assert outcome == Analysed(result.value);
          }
      }
      loading := false;
    }
  }
}
