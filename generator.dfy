/**
 * The generation run (`generate`): plan the naming, then for each zone index
 * in ascending order create its shard directory, write its zone file and
 * append its configuration stanza; finally write `zones.conf`.
 *
 * The filesystem is a `FileSystem` object: the set of directories that exist
 * and the ordered log of `write_text` calls. Paths are a base directory (an
 * opaque string) and the segments joined below it.
 */
module Generator {
  import opened Wrappers
  import opened Numerals
  import opened Planner
  import opened Errors
  import opened Text
  import opened ZoneFile
  import opened ZoneConfig
  import opened Shard

  /** Name of the configuration file written into the config directory. */
  const ConfigFile: string := "zones.conf"
  /** Appended to the zone name (which ends in a dot) to name its zone file. */
  const ZonefileSuffix: string := "zone"

  predicate EndsWithDot(s: string) {
    |s| > 0 && s[|s| - 1] == '.'
  }

  /**
   * The domain name made absolute: a trailing dot is added unless there is
   * one. The result extends the input by at most that one dot.
   */
  function NormalizeDomain(domainname: string): (d: string)
    ensures EndsWithDot(d)
    ensures |domainname| <= |d| <= |domainname| + 1 && d[..|domainname|] == domainname
    ensures EndsWithDot(domainname) ==> d == domainname
  {
    if EndsWithDot(domainname) then domainname else domainname + "."
  }

  /** Normalising twice is normalising once. */
  lemma NormalizeIdempotent(domainname: string)
    ensures NormalizeDomain(NormalizeDomain(domainname)) == NormalizeDomain(domainname)
  {
  }

  datatype Path = Path(base: string, segments: seq<string>)

  /**
   * `str()` of a path: the base, then `/` and each segment in turn. It starts
   * with the base and ends with `/` and the last segment.
   */
  function Render(p: Path): string
    decreases |p.segments|
  {
    if p.segments == [] then p.base
    else Render(Path(p.base, p.segments[..|p.segments| - 1])) + "/" + p.segments[|p.segments| - 1]
  }

  /** A path and all the directories above it, down to its base. */
  function Ancestors(p: Path): (r: set<Path>)
    ensures p in r
  {
    assert p.segments[..|p.segments|] == p.segments;
    set k | 0 <= k <= |p.segments| :: Path(p.base, p.segments[..k])
  }

  /** The directory a file path names its file in. */
  function Parent(p: Path): (d: Path)
    requires p.segments != []
    ensures d in Ancestors(p) && |d.segments| == |p.segments| - 1
  {
    Path(p.base, p.segments[..|p.segments| - 1])
  }

  datatype Write = Write(path: Path, text: string)

  /** The naming plan of a run. */
  datatype Layout = Layout(digit: nat, dirDigit: nat, depth: int, domain: string, zonesdir: string)

  /**
   * Lines 60-65 of `generate`: normalise the domain, size the zone labels,
   * the directory names and the shard depth. Fails as `log10` does for a zone
   * count `<= 0`.
   */
  function Plan(zones: int, domainname: string, zonesdir: string): (r: Result<Layout, Error>)
    ensures r.Failure? <==> zones <= 0
    ensures r.Failure? ==> r.error == MathDomainError
    ensures r.Success? ==>
      && r.value.digit == DigitWidth(zones)
      && r.value.dirDigit == 2
      && r.value.depth == Depth(r.value.digit)
      && r.value.domain == NormalizeDomain(domainname)
      && r.value.zonesdir == zonesdir
  {
    var domain := NormalizeDomain(domainname);
    var digit := CeilLog10(zones);
    if digit.Failure? then Failure(digit.error)
    else
      DirDigitIsTwo();
      Success(Layout(digit.value, DirDigit(), Depth(digit.value), domain, zonesdir))
  }

  /** The plan of a run with a valid zone count. */
  function LayoutOf(zones: int, domainname: string, zonesdir: string): Layout
    requires zones >= 1
  {
    Plan(zones, domainname, zonesdir).value
  }

  /** `f"{i:0{subdomainname_digit}}.{domainname}"`: the label, a dot, then the domain. */
  function ZoneName(lay: Layout, i: nat): (r: string)
    ensures EndsWithDot(lay.domain) ==> EndsWithDot(r)
  {
    Pad(i, lay.digit) + "." + lay.domain
  }

  /** The shard directory of zone `i`. */
  function ZoneDir(lay: Layout, i: nat): Path {
    Path(lay.zonesdir, Segments(ZoneName(lay, i), lay.depth, lay.dirDigit))
  }

  /** The zone file of zone `i`: its zone name plus `zone`, in its shard directory. */
  function ZoneFilePath(lay: Layout, i: nat): (p: Path)
    ensures p.segments != [] && Parent(p) == ZoneDir(lay, i)
  {
    var dir := ZoneDir(lay, i).segments;
    assert (dir + [ZoneName(lay, i) + ZonefileSuffix])[..|dir|] == dir;
    Path(lay.zonesdir, dir + [ZoneName(lay, i) + ZonefileSuffix])
  }

  /** `zones.conf`, directly in the config directory. */
  function ConfigPath(configdir: string): (p: Path)
    ensures p.segments != [] && Parent(p) == Path(configdir, [])
  {
    Path(configdir, [ConfigFile])
  }

  /** The four configuration lines of zone `i`. */
  function ZoneStanzaLines(lay: Layout, i: nat): (r: seq<string>)
    ensures |r| == 4
  {
    StanzaLines(ZoneName(lay, i), Render(ZoneFilePath(lay, i)))
  }

  function ZoneStanza(lay: Layout, i: nat): string {
    Stanza(ZoneName(lay, i), Render(ZoneFilePath(lay, i)))
  }

  /** The stanzas of zones `0 .. n-1`: stanza `k` is zone `k`'s. */
  function Stanzas(lay: Layout, n: nat): (r: seq<string>)
    ensures |r| == n
  {
    seq(n, k requires 0 <= k < n => ZoneStanza(lay, k))
  }

  lemma StanzasStep(lay: Layout, n: nat)
    ensures Stanzas(lay, n + 1) == Stanzas(lay, n) + [ZoneStanza(lay, n)]
  {
  }

  /** Content of `zones.conf` for `n` zones: the stanzas joined by newlines. */
  function ConfigText(lay: Layout, n: nat): string {
    Join(Stanzas(lay, n), "\n")
  }

  /** The stanza lines of zones `0 .. n-1`: block `k` is zone `k`'s. */
  function StanzaTable(lay: Layout, n: nat): (r: seq<seq<string>>)
    ensures |r| == n && FourLineBlocks(r)
  {
    seq(n, k requires 0 <= k < n => ZoneStanzaLines(lay, k))
  }

  /** The lines of the stanzas of zones `0 .. n-1`, one stanza after the other. */
  function ConfigLines(lay: Layout, n: nat): (r: seq<string>)
    ensures |r| == 4 * n
  {
    Blocks(StanzaTable(lay, n))
  }

  /** The zone-file writes of zones `0 .. n-1`: write `k` is zone `k`'s file. */
  function ZoneWrites(lay: Layout, ipaddress: string, hosts: int, n: nat): (r: seq<Write>)
    requires hosts >= 1
    ensures |r| == n
  {
    seq(n, k requires 0 <= k < n => Write(ZoneFilePath(lay, k), ZoneFileText(ZoneName(lay, k), ipaddress, hosts)))
  }

  lemma ZoneWritesStep(lay: Layout, ipaddress: string, hosts: int, n: nat)
    requires hosts >= 1
    ensures ZoneWrites(lay, ipaddress, hosts, n + 1)
         == ZoneWrites(lay, ipaddress, hosts, n) + [Write(ZoneFilePath(lay, n), ZoneFileText(ZoneName(lay, n), ipaddress, hosts))]
  {
  }

  function Written(lay: Layout, ipaddress: string, hosts: int, n: nat): seq<Write> {
    if hosts >= 1 then ZoneWrites(lay, ipaddress, hosts, n) else []
  }

  /** Every directory created for the shard directories of zones `0 .. n-1`. */
  function DirsFor(lay: Layout, n: nat): set<Path>
  {
    set k, p | 0 <= k < n && p in Ancestors(ZoneDir(lay, k)) :: p
  }

  lemma DirsForStep(lay: Layout, n: nat)
    ensures DirsFor(lay, n + 1) == DirsFor(lay, n) + Ancestors(ZoneDir(lay, n))
  {
  }

  /** Directories and written files, as the run sees and changes them. */
  class FileSystem {
    var dirs: set<Path>
    var writes: seq<Write>

    /** Every directory's parents are directories too. */
    ghost predicate Valid()
      reads this
    {
      forall p {:trigger Ancestors(p)} :: p in dirs ==> Ancestors(p) <= dirs
    }

    /** A filesystem holding the config and zones directories, nothing written yet. */
    constructor (configdir: string, zonesdir: string)
      ensures Valid()
      ensures dirs == {Path(configdir, []), Path(zonesdir, [])} && writes == []
    {
      dirs := {Path(configdir, []), Path(zonesdir, [])};
      writes := [];
    }

    /** `Path.is_dir()`. */
    predicate IsDir(p: Path)
      reads this
    {
      p in dirs
    }

    /** `mkdir(parents=True, exist_ok=True)`. */
    method MakeDirs(p: Path)
      requires Valid()
      modifies this
      ensures Valid()
      ensures dirs == old(dirs) + Ancestors(p) && writes == old(writes)
    {
      AncestorsClosed(p);
      dirs := dirs + Ancestors(p);
    }

    /**
     * `write_text(text)` into the file `p`, replacing any earlier content;
     * `FileNotFoundError` when the file's directory does not exist.
     */
    method WriteText(p: Path, text: string) returns (r: Outcome<Error>)
      requires p.segments != []
      modifies this
      ensures dirs == old(dirs)
      ensures Parent(p) in dirs ==> r == Pass && writes == old(writes) + [Write(p, text)]
      ensures Parent(p) !in dirs ==> r == Fail(FileNotFoundError) && writes == old(writes)
    {
      if Parent(p) !in dirs {
        return Fail(FileNotFoundError);
      }
      writes := writes + [Write(p, text)];
      r := Pass;
    }
  }

  lemma AncestorsClosed(p: Path)
    ensures forall q :: q in Ancestors(p) ==> Ancestors(q) <= Ancestors(p)
  {
    forall q | q in Ancestors(p) ensures Ancestors(q) <= Ancestors(p) {
      var k :| 0 <= k <= |p.segments| && q == Path(p.base, p.segments[..k]);
      forall r | r in Ancestors(q) ensures r in Ancestors(p) {
        var m :| 0 <= m <= |q.segments| && r == Path(q.base, q.segments[..m]);
        assert q.segments[..m] == p.segments[..m];
      }
    }
  }

  /**
   * The inner loop of `generate`: starting from the zones directory, join
   * one slice of the zone name per level.
   */
  method ShardDirectory(zonesdir: string, zonename: string, depth: int, dirDigit: nat)
    returns (dirname: Path)
    ensures dirname == Path(zonesdir, Segments(zonename, depth, dirDigit))
  {
    dirname := Path(zonesdir, []);
    var j := 0;
    while j < depth
      invariant 0 <= j <= if depth < 0 then 0 else depth
      invariant dirname == Path(zonesdir, Segments(zonename, j, dirDigit))
    {
      dirname := Path(dirname.base, dirname.segments + [PySlice(zonename, j * dirDigit, (j + 1) * dirDigit)]);
      j := j + 1;
    }
  }

  /**
   * `generate_zonefile`: build the zone text, then write it to `zonefile`.
   * The host count is checked first; the write then needs the directory.
   */
  method GenerateZonefile(fs: FileSystem, zonefile: Path, zonename: string, ipaddress: string, hosts: int)
    returns (r: Outcome<Error>)
    requires zonefile.segments != []
    modifies fs
    ensures fs.dirs == old(fs.dirs)
    ensures hosts <= 0 ==> r == Fail(MathDomainError) && fs.writes == old(fs.writes)
    ensures hosts >= 1 && Parent(zonefile) !in fs.dirs ==> r == Fail(FileNotFoundError) && fs.writes == old(fs.writes)
    ensures hosts >= 1 && Parent(zonefile) in fs.dirs ==>
      r == Pass && fs.writes == old(fs.writes) + [Write(zonefile, ZoneFileText(zonename, ipaddress, hosts))]
  {
    var text := BuildZoneFile(zonename, ipaddress, hosts);
    if text.Failure? {
      return Fail(text.error);
    }
    r := fs.WriteText(zonefile, text.value);
  }

  method GenerateZone(fs: FileSystem, lay: Layout, i: nat, ipaddress: string, hosts: int,
                      configlines: seq<string>, ghost dirs0: set<Path>, ghost writes0: seq<Write>)
    returns (r: Outcome<Error>, configlines': seq<string>)
    requires fs.Valid()
    requires configlines == Stanzas(lay, i)
    requires fs.dirs == dirs0 + DirsFor(lay, i)
    requires fs.writes == writes0 + Written(lay, ipaddress, hosts, i)
    modifies fs
    ensures fs.Valid()
    ensures fs.dirs == dirs0 + DirsFor(lay, i + 1)
    ensures hosts <= 0 ==> r == Fail(MathDomainError) && fs.writes == old(fs.writes)
    ensures hosts >= 1 ==>
      && r == Pass
      && fs.writes == writes0 + ZoneWrites(lay, ipaddress, hosts, i + 1)
      && configlines' == Stanzas(lay, i + 1)
  {
    var zonename := Pad(i, lay.digit) + "." + lay.domain;

    var dirname := ShardDirectory(lay.zonesdir, zonename, lay.depth, lay.dirDigit);
    ghost var before := fs.dirs;
    if !fs.IsDir(dirname) {
      fs.MakeDirs(dirname);
    } else {
      assert Ancestors(dirname) <= fs.dirs;
      assert fs.dirs + Ancestors(dirname) == fs.dirs;
    }
    UnionStep(dirs0, DirsFor(lay, i), Ancestors(dirname), before, fs.dirs);
    DirsForStep(lay, i);

    var zonefile := Path(lay.zonesdir, dirname.segments + [zonename + ZonefileSuffix]);
    assert Parent(zonefile) == dirname && dirname in fs.dirs;
    ghost var writes := fs.writes;
    r := GenerateZonefile(fs, zonefile, zonename, ipaddress, hosts);
    if r.Fail? {
      return r, configlines;
    }
    ZoneWritesStep(lay, ipaddress, hosts, i);
    StanzasStep(lay, i);
    AppendStep(writes0, ZoneWrites(lay, ipaddress, hosts, i),
      [Write(zonefile, ZoneFileText(zonename, ipaddress, hosts))], writes, fs.writes);
    var zoneconfig := Stanza(zonename, Render(zonefile));
    configlines' := configlines + [zoneconfig];
  }

  /** Regroups the directories after one iteration; stated generically so the method's proof never unfolds them. */
  lemma UnionStep<T>(a: set<T>, b: set<T>, c: set<T>, x: set<T>, y: set<T>)
    requires x == a + b && y == x + c
    ensures y == a + (b + c)
  {
  }

  /** Regroups the write log after one iteration, likewise. */
  lemma AppendStep<T>(a: seq<T>, b: seq<T>, c: seq<T>, x: seq<T>, y: seq<T>)
    requires x == a + b && y == x + c
    ensures y == a + (b + c)
  {
  }

  method GenerateZones(fs: FileSystem, lay: Layout, zones: nat, ipaddress: string, hosts: int)
    returns (r: Outcome<Error>, configlines: seq<string>)
    requires fs.Valid() && zones >= 1
    modifies fs
    ensures fs.Valid()
    ensures r == if hosts >= 1 then Pass else Fail(MathDomainError)
    ensures hosts <= 0 ==>
      fs.writes == old(fs.writes) && fs.dirs == old(fs.dirs) + DirsFor(lay, 1)
    ensures hosts >= 1 ==>
      && fs.writes == old(fs.writes) + ZoneWrites(lay, ipaddress, hosts, zones)
      && fs.dirs == old(fs.dirs) + DirsFor(lay, zones)
      && configlines == Stanzas(lay, zones)
  {
    configlines := [];
    var i := 0;
    while i < zones
      invariant 0 <= i <= zones
      invariant hosts <= 0 ==> i == 0
      invariant fs.Valid()
      invariant configlines == Stanzas(lay, i)
      invariant fs.writes == old(fs.writes) + Written(lay, ipaddress, hosts, i)
      invariant fs.dirs == old(fs.dirs) + DirsFor(lay, i)
    {
      var done;
      done, configlines := GenerateZone(fs, lay, i, ipaddress, hosts, configlines, old(fs.dirs), old(fs.writes));
      if done.Fail? {
        return done, configlines;
      }
      i := i + 1;
    }
    r := Pass;
  }

  /**
   * `generate`. A zone count `<= 0` fails before anything is touched; a host
   * count `<= 0` fails after zone 0's directory is made and before any file is
   * written. Otherwise zone `k`'s file is the `k`-th write and exactly the
   * zones' shard directories (with their parents) are added; `zones.conf` is
   * the last write, or, when the config directory does not exist, the run
   * fails with every zone file written.
   */
  method Generate(
    fs: FileSystem, zones: int, hosts: int, domainname: string, ipaddress: string,
    configdir: string, zonesdir: string)
    returns (r: Outcome<Error>)
    requires fs.Valid()
    modifies fs
    ensures fs.Valid()
    ensures zones <= 0 ==>
      r == Fail(MathDomainError) && fs.dirs == old(fs.dirs) && fs.writes == old(fs.writes)
    ensures zones >= 1 && hosts <= 0 ==>
      && r == Fail(MathDomainError)
      && fs.writes == old(fs.writes)
      && fs.dirs == old(fs.dirs) + DirsFor(LayoutOf(zones, domainname, zonesdir), 1)
    ensures zones >= 1 && hosts >= 1 ==>
      var lay := LayoutOf(zones, domainname, zonesdir);
      && fs.dirs == old(fs.dirs) + DirsFor(lay, zones)
      && (Path(configdir, []) in fs.dirs ==>
            && r == Pass
            && fs.writes == old(fs.writes) + ZoneWrites(lay, ipaddress, hosts, zones)
                            + [Write(ConfigPath(configdir), ConfigText(lay, zones))])
      && (Path(configdir, []) !in fs.dirs ==>
            r == Fail(FileNotFoundError) && fs.writes == old(fs.writes) + ZoneWrites(lay, ipaddress, hosts, zones))
  {
    var plan := Plan(zones, domainname, zonesdir);
    if plan.Failure? {
      return Fail(plan.error);
    }
    var lay := plan.value;
    var done, configlines := GenerateZones(fs, lay, zones, ipaddress, hosts);
    if done.Fail? {
      return done;
    }
    var configfile := ConfigPath(configdir);
    r := fs.WriteText(configfile, Join(configlines, "\n"));
  }

  /** `lay` is the naming plan of a run of `zones` zones. */
  predicate Planned(lay: Layout, zones: int) {
    zones >= 1 && lay.digit == DigitWidth(zones) && lay.dirDigit == 2 && lay.depth == Depth(lay.digit)
  }

  /** A successful plan is the plan of its zone count. */
  lemma LayoutOfPlanned(zones: int, domainname: string, zonesdir: string)
    requires zones >= 1
    ensures Planned(LayoutOf(zones, domainname, zonesdir), zones)
    ensures LayoutOf(zones, domainname, zonesdir).domain == NormalizeDomain(domainname)
    ensures LayoutOf(zones, domainname, zonesdir).zonesdir == zonesdir
  {
  }

  /** The zones of the run whose shard directory is `dir`. */
  function ZonesIn(lay: Layout, zones: nat, dir: Path): set<nat> {
    set i: nat | i < zones && ZoneDir(lay, i) == dir
  }

  /** The names of the shard directories directly below the segments `parent`. */
  function ChildNames(lay: Layout, zones: nat, parent: seq<string>): set<string> {
    set i: nat | i < zones && |parent| < |ZoneDir(lay, i).segments| && ZoneDir(lay, i).segments[..|parent|] == parent
      :: ZoneDir(lay, i).segments[|parent|]
  }

  /** Strings with distinct prefixes of one length stay distinct whatever follows. */
  lemma DistinctPrefixes(a: string, b: string, x: string, y: string)
    requires |a| == |b| && a != b
    ensures |a + x| == |b + x| && a + x != b + y
  {
    assert (a + x)[..|a|] == a;
    assert (b + y)[..|b|] == b;
  }

  /** Distinct zones of a run get distinct zone names and distinct zone files. */
  lemma ZoneNamesDistinct(lay: Layout, zones: int, i: nat, j: nat)
    requires Planned(lay, zones) && i < zones && j < zones && i != j
    ensures ZoneName(lay, i) != ZoneName(lay, j)
    ensures ZoneFilePath(lay, i) != ZoneFilePath(lay, j)
  {
    IndexLabelsDistinct(zones, i, j);
    var a, b := Pad(i, lay.digit), Pad(j, lay.digit);
    DistinctPrefixes(a, b, ".", ".");
    DistinctPrefixes(a + ".", b + ".", lay.domain, lay.domain);
    var ni, nj := ZoneName(lay, i), ZoneName(lay, j);
    DistinctPrefixes(ni, nj, ZonefileSuffix, ZonefileSuffix);
    var fi, fj := ZoneFilePath(lay, i).segments, ZoneFilePath(lay, j).segments;
    if |fi| == |fj| {
      assert fi[|fi| - 1] != fj[|fj| - 1];
    }
  }

  /** No zone file is the configuration file: their names end differently. */
  lemma ConfigPathDistinct(lay: Layout, configdir: string, i: nat)
    ensures ZoneFilePath(lay, i) != ConfigPath(configdir)
  {
    var segs := ZoneFilePath(lay, i).segments;
    var last := ZoneName(lay, i) + ZonefileSuffix;
    assert segs[|segs| - 1] == last;
    assert last[|last| - 1] == 'e';
    assert ConfigFile[|ConfigFile| - 1] == 'f';
  }

  /**
   * The shard directory of zone `i`: none below the zones directory for a
   * single zone; otherwise `depth` levels named by consecutive two-digit
   * slices of the zone's label, which together spell the label's first
   * `2 * depth` digits and leave at least one digit over.
   */
  lemma ZoneDirSegments(lay: Layout, zones: int, i: nat)
    requires Planned(lay, zones) && i < zones
    ensures zones == 1 ==> ZoneDir(lay, i).segments == []
    ensures zones >= 2 ==>
      var segs := ZoneDir(lay, i).segments;
      && |segs| == lay.depth
      && 2 * lay.depth < |Pad(i, lay.digit)|
      && (forall j :: 0 <= j < |segs| ==>
            segs[j] == Pad(i, lay.digit)[2 * j..2 * j + 2] && |segs[j]| == 2 && AllDigits(segs[j]))
      && Concat(segs) == Pad(i, lay.digit)[..2 * lay.depth]
  {
    if zones >= 2 {
      IndexLabel(zones, i);
      var digits := Pad(i, lay.digit);
      var name := ZoneName(lay, i);
      var depth: nat := lay.depth;
      var segs := Segments(name, depth, 2);
      forall j | 0 <= j < depth
        ensures segs[j] == digits[2 * j..2 * j + 2] && |segs[j]| == 2 && AllDigits(segs[j])
      {
        SegmentAt(name, depth, 2, j);
        assert name[2 * j..2 * j + 2] == digits[2 * j..2 * j + 2];
      }
      SegmentsConcat(name, depth);
      assert name[..2 * depth] == digits[..2 * depth];
    }
  }

  /**
   * With two or more zones, two zones share their shard directory exactly
   * when their labels agree on the first `2 * depth` digits.
   */
  lemma SameDirectory(lay: Layout, zones: int, i: nat, j: nat)
    requires Planned(lay, zones) && zones >= 2 && i < zones && j < zones
    ensures 2 * lay.depth < |Pad(i, lay.digit)| && 2 * lay.depth < |Pad(j, lay.digit)|
    ensures ZoneDir(lay, i) == ZoneDir(lay, j)
        <==> Pad(i, lay.digit)[..2 * lay.depth] == Pad(j, lay.digit)[..2 * lay.depth]
  {
    IndexLabel(zones, i);
    IndexLabel(zones, j);
    var depth: nat := lay.depth;
    var ni, nj := ZoneName(lay, i), ZoneName(lay, j);
    SameSegments(ni, nj, depth);
    assert ni[..2 * depth] == Pad(i, lay.digit)[..2 * depth];
    assert nj[..2 * depth] == Pad(j, lay.digit)[..2 * depth];
  }

  /**
   * Leaf fan-out: a shard directory holds the zone files of at most
   * `MAX_FILE_IN_DIR` zones; with two or more zones, at most `10^(digit - 2 * depth)`,
   * one per value of the label digits below the directory levels.
   */
  lemma LeafFanOut(lay: Layout, zones: int, dir: Path)
    requires Planned(lay, zones)
    ensures |ZonesIn(lay, zones, dir)| <= MaxFileInDir
    ensures zones >= 2 ==>
      1 <= lay.digit - 2 * lay.depth <= 2 && |ZonesIn(lay, zones, dir)| <= Pow10(lay.digit - 2 * lay.depth)
  {
    var here := ZonesIn(lay, zones, dir);
    if zones == 1 {
      WindowBound(here, 0, 1);
    } else {
      var width: nat := lay.digit - 2 * lay.depth;
      LeafWindow(lay, zones, dir);
      assert Pow10(2) == 100;
      Pow10Monotone(width, 2);
    }
  }

  /** The zones sharing a directory form a window of `10^(digit - 2 * depth)` indices. */
  lemma LeafWindow(lay: Layout, zones: int, dir: Path)
    requires Planned(lay, zones) && zones >= 2
    ensures 1 <= lay.digit - 2 * lay.depth && |ZonesIn(lay, zones, dir)| <= Pow10(lay.digit - 2 * lay.depth)
  {
    var here := ZonesIn(lay, zones, dir);
    if here != {} {
      var i0 :| i0 in here;
      var depth: nat := lay.depth;
      var p := Pow10(lay.digit - 2 * depth);
      IndexLabel(zones, i0);
      var head := Pad(i0, lay.digit)[..2 * depth];
      var lo := ValueOf(head) * p;
      forall i | i in here ensures lo <= i < lo + p {
        SameDirectory(lay, zones, i, i0);
        LabelValueBounds(zones, i, depth, head);
      }
      WindowBound(here, lo, p);
    }
  }

  /** A label starting with the digits `head` lies in the window those digits select. */
  lemma LabelValueBounds(zones: int, i: nat, depth: nat, head: string)
    requires zones >= 2 && i < zones
    requires 2 * depth < DigitWidth(zones) && Pad(i, DigitWidth(zones))[..2 * depth] == head
    ensures ValueOf(head) * Pow10(DigitWidth(zones) - 2 * depth) <= i
    ensures i < ValueOf(head) * Pow10(DigitWidth(zones) - 2 * depth) + Pow10(DigitWidth(zones) - 2 * depth)
  {
    IndexLabel(zones, i);
    var digits := Pad(i, DigitWidth(zones));
    ValueOfSplit(digits, 2 * depth);
    assert |digits[2 * depth..]| == DigitWidth(zones) - 2 * depth;
  }

  /**
   * Inner fan-out: below any directory the shard tree has at most
   * `MAX_FILE_IN_DIR` subdirectories, since their names are two digits.
   */
  lemma InnerFanOut(lay: Layout, zones: int, parent: seq<string>)
    requires Planned(lay, zones)
    ensures |ChildNames(lay, zones, parent)| <= MaxFileInDir
  {
    var names := ChildNames(lay, zones, parent);
    forall s | s in names ensures |s| == 2 && AllDigits(s) {
      var i: nat :| i < zones && |parent| < |ZoneDir(lay, i).segments|
        && ZoneDir(lay, i).segments[..|parent|] == parent && s == ZoneDir(lay, i).segments[|parent|];
      ZoneDirSegments(lay, zones, i);
    }
    TwoDigitStringsBound(names);
  }

  /** The directories among `dirs` directly below `dir`. */
  function Children(dirs: set<Path>, dir: Path): set<Path> {
    set q | q in dirs && q.base == dir.base && |q.segments| == |dir.segments| + 1
      && q.segments[..|dir.segments|] == dir.segments
  }

  /** The paths `base/parent/c`, one for each `c` in `names`. */
  function ChildPaths(base: string, parent: seq<string>, names: set<string>): set<Path> {
    set c | c in names :: Path(base, parent + [c])
  }

  /** Distinct names give distinct child paths. */
  lemma {:induction false} ChildPathsCount(base: string, parent: seq<string>, names: set<string>)
    ensures |ChildPaths(base, parent, names)| == |names|
    decreases |names|
  {
    if names != {} {
      var c :| c in names;
      var rest := names - {c};
      ChildPathsCount(base, parent, rest);
      forall d | d in rest ensures Path(base, parent + [d]) != Path(base, parent + [c]) {
        assert (parent + [d])[|parent|] == d && (parent + [c])[|parent|] == c;
      }
      assert ChildPaths(base, parent, names) == ChildPaths(base, parent, rest) + {Path(base, parent + [c])};
    }
  }

  /**
   * The run creates `base/parent/c` exactly when `base` is the zones directory
   * and `c` is the next shard segment of some zone below `parent`.
   */
  lemma ChildOfRun(lay: Layout, zones: nat, base: string, parent: seq<string>, c: string)
    ensures Path(base, parent + [c]) in DirsFor(lay, zones)
        <==> base == lay.zonesdir && c in ChildNames(lay, zones, parent)
  {
    var q := Path(base, parent + [c]);
    if q in DirsFor(lay, zones) {
      var k :| 0 <= k < zones && q in Ancestors(ZoneDir(lay, k));
      AncestorChild(ZoneDir(lay, k), base, parent, c);
    }
    if base == lay.zonesdir && c in ChildNames(lay, zones, parent) {
      var i: nat :| i < zones && |parent| < |ZoneDir(lay, i).segments|
        && ZoneDir(lay, i).segments[..|parent|] == parent && c == ZoneDir(lay, i).segments[|parent|];
      AncestorChild(ZoneDir(lay, i), base, parent, c);
    }
  }

  /** `base/parent/c` is above or at `p` exactly when `p` continues `parent` with `c`. */
  lemma AncestorChild(p: Path, base: string, parent: seq<string>, c: string)
    ensures Path(base, parent + [c]) in Ancestors(p)
        <==> base == p.base && |parent| < |p.segments| && p.segments[..|parent|] == parent
             && p.segments[|parent|] == c
  {
    var q, segs := Path(base, parent + [c]), p.segments;
    if q in Ancestors(p) {
      var j :| 0 <= j <= |segs| && q == Path(p.base, segs[..j]);
      assert segs[..|parent|] == segs[..j][..|parent|];
      assert segs[|parent|] == segs[..j][|parent|];
    }
    if base == p.base && |parent| < |segs| && segs[..|parent|] == parent && segs[|parent|] == c {
      assert segs[..|parent| + 1] == parent + [c];
    }
  }

  /** Every directory the run creates has at most `MAX_FILE_IN_DIR` subdirectories among them. */
  lemma DirectoryFanOut(lay: Layout, zones: int, dir: Path)
    requires Planned(lay, zones)
    ensures |Children(DirsFor(lay, zones), dir)| <= MaxFileInDir
  {
    var names := ChildNames(lay, zones, dir.segments);
    var kids := Children(DirsFor(lay, zones), dir);
    var paths := ChildPaths(dir.base, dir.segments, names);
    forall q | q in kids ensures q in paths {
      var c := q.segments[|dir.segments|];
      assert q.segments == dir.segments + [c];
      ChildOfRun(lay, zones, dir.base, dir.segments, c);
    }
    assert paths == kids + (paths - kids);
    ChildPathsCount(dir.base, dir.segments, names);
    InnerFanOut(lay, zones, dir.segments);
  }

  /** Stanza `k` fills lines `4k .. 4k+3` of the configuration lines. */
  lemma ConfigLinesAt(lay: Layout, n: nat, k: nat)
    requires k < n
    ensures ConfigLines(lay, n)[4 * k..4 * k + 4] == ZoneStanzaLines(lay, k)
  {
    BlocksAt(StanzaTable(lay, n), k);
  }

  /** `zones.conf` is the newline-join of all stanza lines of the run. */
  lemma ConfigJoin(lay: Layout, n: nat)
    requires n >= 1
    ensures ConfigText(lay, n) == Join(ConfigLines(lay, n), "\n")
  {
    var table := StanzaTable(lay, n);
    assert Stanzas(lay, n) == JoinEach(table, "\n");
    JoinBlocks(table, "\n");
  }

  /** Slices of a newline-free zone name hold no newline. */
  lemma {:induction false} SegmentsNoNewline(name: string, depth: int, width: nat)
    requires NoNewline(name)
    ensures forall j :: 0 <= j < |Segments(name, depth, width)| ==> NoNewline(Segments(name, depth, width)[j])
  {
    if depth > 0 {
      SegmentsNoNewline(name, depth - 1, width);
      var s := PySlice(name, (depth - 1) * width, depth * width);
      assert NoNewline(s);
    }
  }

  /** A path renders without newlines when its base and segments have none. */
  lemma {:induction false} RenderNoNewline(p: Path)
    requires NoNewline(p.base)
    requires forall j :: 0 <= j < |p.segments| ==> NoNewline(p.segments[j])
    ensures NoNewline(Render(p))
    decreases |p.segments|
  {
    if p.segments != [] {
      RenderNoNewline(Path(p.base, p.segments[..|p.segments| - 1]));
    }
  }

  /** No line of a zone's stanza holds a newline when the domain and zones directory hold none. */
  lemma ZoneStanzaLinesNoNewline(lay: Layout, k: nat)
    requires NoNewline(lay.domain) && NoNewline(lay.zonesdir)
    ensures forall j :: 0 <= j < 4 ==> NoNewline(ZoneStanzaLines(lay, k)[j])
  {
    var name := ZoneName(lay, k);
    LabelHasNoNewline(k, lay.digit);
    SegmentsNoNewline(name, lay.depth, lay.dirDigit);
    var file := ZoneFilePath(lay, k);
    assert file.segments == ZoneDir(lay, k).segments + [name + ZonefileSuffix];
    RenderNoNewline(file);
  }

  /** No configuration line holds a newline when the domain and zones directory hold none. */
  lemma ConfigLinesNoNewline(lay: Layout, n: nat)
    requires NoNewline(lay.domain) && NoNewline(lay.zonesdir)
    ensures forall m :: 0 <= m < |ConfigLines(lay, n)| ==> NoNewline(ConfigLines(lay, n)[m])
  {
    var table := StanzaTable(lay, n);
    forall m | 0 <= m < 4 * n ensures NoNewline(ConfigLines(lay, n)[m]) {
      assert ConfigLines(lay, n)[m] == table[m / 4][m % 4];
      ZoneStanzaLinesNoNewline(lay, m / 4);
    }
  }

  /**
   * `zones.conf` read back with `split("\n")` gives the stanza lines of the
   * zones in order, when neither the domain nor the zones directory holds a newline.
   */
  lemma ConfigLayout(lay: Layout, zones: int)
    requires Planned(lay, zones) && NoNewline(lay.domain) && NoNewline(lay.zonesdir)
    ensures Lines(ConfigText(lay, zones)) == ConfigLines(lay, zones)
  {
    ConfigJoin(lay, zones);
    ConfigLinesNoNewline(lay, zones);
    LinesOfJoin(ConfigLines(lay, zones));
  }
}
