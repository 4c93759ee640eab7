/**
 * The project code indexer: which directories and files a scan visits, the
 * incremental add / update / skip / delete bookkeeping of one indexing run
 * over the `files` table, the extension lookup, and the unit a file size
 * is shown in.
 *
 * The table is a map from relative path to row. The directory walk, the
 * `stat` call and the file read are not modelled: each scanned file comes
 * with what they returned.
 */
module Indexer {
  import opened Wrappers
  import opened Text

  const INCLUDE_EXTENSIONS: set<string> := {".py", ".yaml", ".yml", ".md", ".js", ".css", ".html"}
  const EXCLUDE_DIRS: set<string> := {
    ".git", "__pycache__", "venv", "myenv", "myenv311", ".venv", "node_modules", ".vs",
    ".vscode", ".idea", "qdrant_data", ".ipynb_checkpoints", ".obsidian", ".claude"}
  const EXCLUDE_PATTERNS: set<string> := {".db", ".pyc", ".pyo"}

  /** `should_exclude_dir`: hidden directories and the listed ones are not walked. */
  function ExcludeDir(name: string): (r: bool)
    ensures r <==> StartsWith(name, ".") || name in EXCLUDE_DIRS
  {
    if StartsWith(name, ".") then true else name in EXCLUDE_DIRS
  }

  /** The index of the last '.' in `name`, if any. */
  function LastDot(name: string): (r: Option<nat>)
    ensures r.Some? ==> r.value < |name| && name[r.value] == '.'
    ensures r.Some? ==> forall i :: r.value < i < |name| ==> name[i] != '.'
    ensures r.None? ==> forall i :: 0 <= i < |name| ==> name[i] != '.'
  {
    if name == [] then None
    else if name[|name| - 1] == '.' then Some(|name| - 1)
    else LastDot(name[..|name| - 1])
  }

  /**
   * `Path(name).suffix`: from the last '.' on, unless that dot starts the
   * name or ends it.
   */
  function Suffix(name: string): (r: string)
    ensures r == [] || (|r| >= 2 && |r| <= |name| && r[0] == '.' && r == name[|name| - |r|..])
    ensures r != [] ==> forall i :: 0 < i < |r| ==> r[i] != '.'
  {
    match LastDot(name)
    case None => []
    case Some(i) => if 0 < i < |name| - 1 then name[i..] else []
  }

  /**
   * `should_include_file`: the lower-cased suffix must be one of the
   * included extensions. The two exclusion tests that follow can never fire.
   */
  function IncludeFile(name: string): (r: bool)
    ensures r <==> Lower(Suffix(name)) in INCLUDE_EXTENSIONS
  {
    var suffix := Lower(Suffix(name));
    if suffix !in INCLUDE_EXTENSIONS then false
    else if suffix in EXCLUDE_PATTERNS then false
    else if Suffix(name) == ".db" then false
    else true
  }

  /** No excluded pattern is an included extension. */
  lemma PatternsDisjoint()
    ensures INCLUDE_EXTENSIONS * EXCLUDE_PATTERNS == {}
  {
  }

  /** A file the walk found: the directories under the root, its name, and what `stat` and the read returned. */
  datatype Found = Found(dirs: seq<string>, name: string, path: string, probe: Probe)

  /** The modification time, size and content (`None` when no encoding decodes it), or a failing `stat`. */
  datatype Probe = Stat(mtime: real, size: int, content: Option<string>) | StatFailed

  /** A file the walk reaches (no directory on its path is excluded) and indexes. */
  predicate Indexable(f: Found)
  {
    IncludeFile(f.name) && forall d :: d in f.dirs ==> !ExcludeDir(d)
  }

  /** `scan_files`: the files under no excluded directory whose name is included, in walk order. */
  function ScanFiles(found: seq<Found>): (r: seq<Found>)
    ensures |r| <= |found|
    ensures forall f :: f in r <==> f in found && Indexable(f)
  {
    if found == [] then []
    else
      var f := found[|found| - 1];
      ScanFiles(found[..|found| - 1]) + (if Indexable(f) then [f] else [])
  }

  /** A row of the `files` table. */
  datatype Row = Row(extension: string, content: string, lastModified: real, size: int)

  datatype Stats = Stats(added: nat, updated: nat, skipped: nat, deleted: nat, errors: nat)

  /** The table and the counters part-way through the scan loop. */
  datatype Pass = Pass(rows: map<string, Row>, added: nat, updated: nat, skipped: nat, errors: nat)

  /** The row written for a file whose stored copy is missing or older. */
  function RowFor(f: Found): Row
    requires f.probe.Stat? && f.probe.content.Some?
  {
    Row(Lower(Suffix(f.name)), f.probe.content.value, f.probe.mtime, f.probe.size)
  }

  /** Whether the stored row is at least as new as the file on disk. */
  predicate UpToDate(rows: map<string, Row>, f: Found)
    requires f.probe.Stat?
  {
    f.path in rows && rows[f.path].lastModified >= f.probe.mtime
  }

  /**
   * One file of the scan loop. A stored row at least as new is skipped; a
   * file that cannot be read or stat'ed is an error; otherwise the row is
   * written and counted as updated or added.
   */
  function Visit(p: Pass, f: Found): (r: Pass)
    ensures r.added + r.updated + r.skipped + r.errors == p.added + p.updated + p.skipped + p.errors + 1
    ensures forall k :: k in p.rows && k != f.path ==> k in r.rows && r.rows[k] == p.rows[k]
    ensures r.rows.Keys <= p.rows.Keys + {f.path}
    ensures r.rows != p.rows ==> f.probe.Stat? && !UpToDate(p.rows, f) && f.probe.content.Some?
    ensures f.probe.Stat? && !UpToDate(p.rows, f) && f.probe.content.Some? ==>
      r.rows == p.rows[f.path := RowFor(f)]
      && (f.path in p.rows ==> r == p.(rows := r.rows, updated := p.updated + 1))
      && (f.path !in p.rows ==> r == p.(rows := r.rows, added := p.added + 1))
    ensures f.probe.Stat? && UpToDate(p.rows, f) ==> r == p.(skipped := p.skipped + 1)
    ensures f.probe.StatFailed? || (!UpToDate(p.rows, f) && f.probe.content.None?) ==> r == p.(errors := p.errors + 1)
  {
    match f.probe
    case StatFailed => p.(errors := p.errors + 1)
    case Stat(mtime, size, content) =>
      if UpToDate(p.rows, f) then p.(skipped := p.skipped + 1)
      else if content.None? then p.(errors := p.errors + 1)
      else if f.path in p.rows then p.(rows := p.rows[f.path := RowFor(f)], updated := p.updated + 1)
      else p.(rows := p.rows[f.path := RowFor(f)], added := p.added + 1)
  }

  /** The scan loop over `files`, in order, starting from the stored table. */
  function Scan(rows: map<string, Row>, files: seq<Found>): Pass
  {
    if files == [] then Pass(rows, 0, 0, 0, 0)
    else Visit(Scan(rows, files[..|files| - 1]), files[|files| - 1])
  }

  /** `current_files`: the paths the scan saw. */
  function Paths(files: seq<Found>): (r: set<string>)
  {
    if files == [] then {} else Paths(files[..|files| - 1]) + {files[|files| - 1].path}
  }

  lemma {:induction false} PathsMember(files: seq<Found>, i: nat)
    requires i < |files|
    ensures files[i].path in Paths(files)
  {
    if i < |files| - 1 {
      PathsMember(files[..|files| - 1], i);
    }
  }

  /** The table after the run: the scanned table with every path the scan did not see removed. */
  function FinalRows(rows: map<string, Row>, files: seq<Found>): map<string, Row>
  {
    var scanned := Scan(rows, files).rows;
    map k | k in scanned && k in Paths(files) :: scanned[k]
  }

  function FinalStats(rows: map<string, Row>, files: seq<Found>): Stats
  {
    var p := Scan(rows, files);
    Stats(p.added, p.updated, p.skipped, |p.rows.Keys - Paths(files)|, p.errors)
  }

  /** Every scanned file is counted exactly once, as added, updated, skipped or an error. */
  lemma {:induction false} ScanCounts(rows: map<string, Row>, files: seq<Found>)
    ensures var p := Scan(rows, files); p.added + p.updated + p.skipped + p.errors == |files|
  {
    if files != [] {
      ScanCounts(rows, files[..|files| - 1]);
    }
  }

  /** The scan only writes rows for paths it saw; every other row is left as stored. */
  lemma {:induction false} ScanKeys(rows: map<string, Row>, files: seq<Found>)
    ensures rows.Keys <= Scan(rows, files).rows.Keys <= rows.Keys + Paths(files)
    ensures forall k :: k in rows && k !in Paths(files) ==> Scan(rows, files).rows[k] == rows[k]
  {
    if files != [] {
      ScanKeys(rows, files[..|files| - 1]);
    }
  }

  /**
   * The stored paths the scan did not see are exactly the rows deleted and
   * counted; the rows of the paths it saw are kept.
   */
  lemma DeletedUnseen(rows: map<string, Row>, files: seq<Found>)
    ensures FinalRows(rows, files).Keys == Scan(rows, files).rows.Keys * Paths(files)
    ensures FinalStats(rows, files).deleted == |rows.Keys - Paths(files)|
    ensures FinalStats(rows, files).added + FinalStats(rows, files).updated
      + FinalStats(rows, files).skipped + FinalStats(rows, files).errors == |files|
  {
    ScanKeys(rows, files);
    ScanCounts(rows, files);
    var scanned := Scan(rows, files).rows;
    assert scanned.Keys - Paths(files) == rows.Keys - Paths(files);
  }

  /** A file whose next visit leaves the table as it is. */
  predicate Settled(rows: map<string, Row>, f: Found)
  {
    f.probe.StatFailed? || f.probe.content.None? || UpToDate(rows, f)
  }

  predicate DistinctPaths(files: seq<Found>)
  {
    forall i, j :: 0 <= i < j < |files| ==> files[i].path != files[j].path
  }

  /** After a scan over distinct paths, each scanned file is settled in the new table. */
  lemma {:induction false} ScanSettles(rows: map<string, Row>, files: seq<Found>)
    requires DistinctPaths(files)
    ensures forall i :: 0 <= i < |files| ==> Settled(Scan(rows, files).rows, files[i])
  {
    if files != [] {
      var init := files[..|files| - 1];
      var f := files[|files| - 1];
      assert DistinctPaths(init);
      ScanSettles(rows, init);
      var before := Scan(rows, init);
      var after := Visit(before, f);
      forall i | 0 <= i < |files|
        ensures Settled(after.rows, files[i])
      {
        if i < |files| - 1 {
          assert files[i] == init[i] && files[i].path != f.path;
        }
      }
    }
  }

  /** A scan over settled files changes no row and adds or updates nothing. */
  lemma {:induction false} ScanSettledUnchanged(rows: map<string, Row>, files: seq<Found>)
    requires forall i :: 0 <= i < |files| ==> Settled(rows, files[i])
    ensures Scan(rows, files).rows == rows
    ensures Scan(rows, files).added == 0 && Scan(rows, files).updated == 0
  {
    if files != [] {
      ScanSettledUnchanged(rows, files[..|files| - 1]);
    }
  }

  /**
   * A second run over the same unchanged tree writes nothing and deletes
   * nothing: every file is skipped or is an error again.
   */
  lemma IndexTwice(rows: map<string, Row>, files: seq<Found>)
    requires DistinctPaths(files)
    ensures FinalRows(FinalRows(rows, files), files) == FinalRows(rows, files)
    ensures var s := FinalStats(FinalRows(rows, files), files);
      s.added == 0 && s.updated == 0 && s.deleted == 0 && s.skipped + s.errors == |files|
  {
    var once := FinalRows(rows, files);
    ScanSettles(rows, files);
    forall i | 0 <= i < |files|
      ensures Settled(once, files[i])
    {
      PathsMember(files, i);
    }
    ScanSettledUnchanged(once, files);
    ScanCounts(once, files);
    assert once.Keys - Paths(files) == {};
  }

  /** The scan loop of `index_files`: the table and counters, and `current_files`. */
  method ScanLoop(rows: map<string, Row>, files: seq<Found>) returns (p: Pass, current: set<string>)
    ensures p == Scan(rows, files) && current == Paths(files)
  {
    current := {};
    p := Pass(rows, 0, 0, 0, 0);
    assert files[..0] == [];
    for i := 0 to |files|
      invariant p == Scan(rows, files[..i])
      invariant current == Paths(files[..i])
    {
      assert files[..i + 1][..i] == files[..i];
      current := current + {files[i].path};
      p := Visit(p, files[i]);
    }
    assert files[..|files|] == files;
  }

  /** The clean-up of `index_files`: every stored path the scan did not see is deleted and counted. */
  method DeleteUnseen(scanned: map<string, Row>, current: set<string>) returns (rows: map<string, Row>, deleted: nat)
    ensures rows == map k | k in scanned && k in current :: scanned[k]
    ensures deleted == |scanned.Keys - current|
  {
    rows := scanned;
    var gone := scanned.Keys - current;
    deleted := 0;
    ghost var removed: set<string> := {};
    while gone != {}
      invariant Deleting(scanned, current, rows, gone, removed)
      invariant deleted == |removed|
      decreases |gone|
    {
      var path :| path in gone;
      DeleteStep(scanned, current, rows, gone, removed, path);
      rows := rows - {path};
      gone := gone - {path};
      removed := removed + {path};
      deleted := deleted + 1;
    }
    Restricted(rows, scanned, current);
  }

  /** The deletion loop part-way: `removed` is gone from the table, `gone` is still to go. */
  predicate Deleting(scanned: map<string, Row>, keep: set<string>, rows: map<string, Row>, gone: set<string>, removed: set<string>)
  {
    gone !! removed && gone + removed == scanned.Keys - keep
    && rows.Keys == scanned.Keys - removed
    && forall k :: k in rows ==> rows[k] == scanned[k]
  }

  lemma DeleteStep(scanned: map<string, Row>, keep: set<string>, rows: map<string, Row>, gone: set<string>,
                   removed: set<string>, path: string)
    requires Deleting(scanned, keep, rows, gone, removed) && path in gone
    ensures Deleting(scanned, keep, rows - {path}, gone - {path}, removed + {path})
    ensures |removed + {path}| == |removed| + 1 && |gone - {path}| < |gone|
  {
  }

  lemma Restricted(rows: map<string, Row>, scanned: map<string, Row>, keep: set<string>)
    requires rows.Keys == scanned.Keys * keep
    requires forall k :: k in rows ==> rows[k] == scanned[k]
    ensures rows == map k | k in scanned && k in keep :: scanned[k]
  {
  }

  /** The stored table of an indexer run. */
  class FileIndex {
    var rows: map<string, Row>

    constructor ()
      ensures rows == map[]
    {
      rows := map[];
    }

    /** `index_files` over the files the walk found. */
    method IndexFiles(found: seq<Found>) returns (stats: Stats)
      modifies this
      ensures rows == FinalRows(old(rows), ScanFiles(found))
      ensures stats == FinalStats(old(rows), ScanFiles(found))
    {
      var files := ScanFiles(found);
      var p, current := ScanLoop(rows, files);
      var deleted;
      rows, deleted := DeleteUnseen(p.rows, current);
      stats := Stats(p.added, p.updated, p.skipped, deleted, p.errors);
    }

    /** `list_by_extension`, without the ordering by path. */
    function ListByExtension(ext: string): (r: set<string>)
      reads this
      ensures forall p :: p in r <==> p in rows && rows[p].extension == NormaliseExtension(ext)
    {
      set p | p in rows && rows[p].extension == NormaliseExtension(ext)
    }
  }

  /** The extension `list_by_extension` asks for: a leading '.' added when missing, then lower-cased. */
  function NormaliseExtension(ext: string): (r: string)
    ensures |r| > 0 && r[0] == '.'
    ensures forall i :: 0 <= i < |r| ==> !('A' <= r[i] <= 'Z')
    ensures StartsWith(ext, ".") ==> r == Lower(ext)
    ensures !StartsWith(ext, ".") ==> r == Lower("." + ext)
  {
    if StartsWith(ext, ".") then Lower(ext) else Lower("." + ext)
  }

  /** "PY", "py" and ".py" name the same extension, and normalising twice changes nothing. */
  lemma NormaliseExtensionIdempotent(ext: string)
    ensures NormaliseExtension(NormaliseExtension(ext)) == NormaliseExtension(ext)
    ensures NormaliseExtension("PY") == NormaliseExtension(".py") == ".py"
  {
    var r := NormaliseExtension(ext);
    assert StartsWith(r, ".");
    assert Lower(r) == r;
    assert "." + "PY" == ".PY";
  }

  const UNITS: seq<string> := ["B", "KB", "MB", "GB", "TB"]

  function Power(k: nat): (r: real)
    ensures r >= 1.0
  {
    if k == 0 then 1.0 else 1024.0 * Power(k - 1)
  }

  /** The index of the unit `format_size` shows `size` in: the first unit below 1024, capped at TB. */
  function UnitIndex(size: real, k: nat): (u: nat)
    requires k <= 4
    ensures k <= u <= 4
    decreases 4 - k
  {
    if k == 4 || size / Power(k) < 1024.0 then k else UnitIndex(size, k + 1)
  }

  lemma DivStep(size: real, k: nat)
    ensures size / Power(k + 1) == size / Power(k) / 1024.0
  {
    var p := Power(k);
    assert Power(k + 1) == 1024.0 * p;
    assert (size / p / 1024.0) * (1024.0 * p) == size;
  }

  /**
   * The amount shown is below 1024 unless the unit is TB, and is at least
   * 1 in every unit above B: it only moves up a unit from 1024 or more.
   */
  lemma {:induction false} UnitBounds(size: real, k: nat)
    requires k <= 4 && (k > 0 ==> size / Power(k - 1) >= 1024.0)
    ensures var u := UnitIndex(size, k);
      (u < 4 ==> size / Power(u) < 1024.0)
      && (u > 0 ==> size / Power(u) >= 1.0)
      && (forall j :: k <= j < u ==> size / Power(j) >= 1024.0)
    decreases 4 - k
  {
    if k < 4 && size / Power(k) >= 1024.0 {
      UnitBounds(size, k + 1);
    }
    if k > 0 {
      DivStep(size, k - 1);
    }
  }

  /** `format_size`: the amount and the unit it is shown in; the `.1f` rendering is not modelled. */
  method FormatSize(size: int) returns (amount: real, unit: string)
    ensures unit == UNITS[UnitIndex(size as real, 0)]
    ensures amount == size as real / Power(UnitIndex(size as real, 0))
  {
    amount := size as real;
    var k := 0;
    while k < 4
      invariant 0 <= k <= 4
      invariant amount == size as real / Power(k)
      invariant UnitIndex(size as real, 0) == UnitIndex(size as real, k)
    {
      if amount < 1024.0 {
        return amount, UNITS[k];
      }
      DivStep(size as real, k);
      amount := amount / 1024.0;
      k := k + 1;
    }
    unit := "TB";
  }
}
