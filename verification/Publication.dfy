/**
 Publishing a catalogue generation (scripts/util/build_location_catalog.py:1792-1867, 1870-2011).

 A split build stages every file beside its destination under a `.new` name, then renames
 the staged files one by one, the member manifest last.  A build of a core alone stages and
 renames the pack, then its checksum.  The process may stop after any file operation, or in the
 middle of writing a file, which then holds anything.  File names are strings; a crash is a limit
 on the number of operations.
 */
module Publication {
  import opened Wrappers

  datatype Content =
    | Core(bytes: seq<int>)
    | Geometry(bytes: seq<int>, boundTo: Option<string>)
    | Checksum(digest: string)
    | Manifest(coreDigest: string, geometryDigest: Option<string>)

  type Files = map<string, Content>

  // ---------------------------------------------------------------- file operations

  datatype Operation = Write(path: string, content: Content) | Replace(source: string, target: string)

  /** One operation; None when `os.replace` finds no source file. */
  function Step(files: Files, op: Operation): Option<Files> {
    match op
    case Write(path, content) => Some(files[path := content])
    case Replace(source, target) =>
      if source !in files then None
      else if source == target then Some(files)
      else Some(files[target := files[source]] - {source})
  }

  function After(files: Files, ops: seq<Operation>): Option<Files>
    decreases |ops|
  {
    if ops == [] then Some(files)
    else
      match After(files, ops[..|ops| - 1])
      case None => None
      case Some(before) => Step(before, ops[|ops| - 1])
  }

  /** The files, the operations left before the process stops, whether one has failed, and what
      a write that the process stops in leaves of its file, if it leaves anything. */
  datatype DiskState = DiskState(files: Files, budget: nat, failed: bool, torn: Option<Content>)

  /** The process stops in this operation: a rename happens or does not, a write may be torn. */
  function Tear(files: Files, op: Operation, torn: Option<Content>): Files {
    if op.Write? && torn.Some? then files[op.path := torn.value] else files
  }

  function Perform(s: DiskState, op: Operation): DiskState {
    if s.failed then s
    else if s.budget == 0 then s.(files := Tear(s.files, op, s.torn), torn := None)
    else
      match Step(s.files, op)
      case None => s.(failed := true)
      case Some(files) => s.(files := files, budget := s.budget - 1)
  }

  function PerformAll(s: DiskState, ops: seq<Operation>): DiskState
    decreases |ops|
  {
    if ops == [] then s else Perform(PerformAll(s, ops[..|ops| - 1]), ops[|ops| - 1])
  }

  class Disk {
    var state: DiskState

    constructor (files: Files, budget: nat, torn: Option<Content>)
      ensures state == DiskState(files, budget, false, torn)
    {
      state := DiskState(files, budget, false, torn);
    }

    method Do(op: Operation)
      modifies this
      ensures state == Perform(old(state), op)
    {
      state := Perform(state, op);
    }
  }

  // ---------------------------------------------------------------- a build's files

  type Hash = Content -> string

  /** What a build is asked to write and what it produced. */
  datatype Job = Job(
    output: string,
    geometryOutput: Option<string>,
    manifestOutput: Option<string>,
    core: seq<int>,
    geometry: seq<int>)

  function Staged(path: string): string {
    path + ".new"
  }

  function ChecksumPath(path: string): string {
    path + ".sha256"
  }

  function CoreFile(job: Job): Content {
    Core(job.core)
  }

  /** The geometry pack after it was bound to the digest of its core. */
  function GeometryFile(job: Job, hash: Hash): Content {
    Geometry(job.geometry, Some(hash(CoreFile(job))))
  }

  function ManifestFile(job: Job, hash: Hash): Content {
    Manifest(hash(CoreFile(job)),
             if job.geometryOutput.Some? then Some(hash(GeometryFile(job, hash))) else None)
  }

  /** A destination and the content it is to hold. */
  datatype Target = Target(path: string, content: Content)

  /** A pack and its checksum file. */
  function PackTargets(path: string, pack: Content, hash: Hash): seq<Target> {
    [Target(path, pack), Target(ChecksumPath(path), Checksum(hash(pack)))]
  }

  function CoreTargets(job: Job, hash: Hash): seq<Target> {
    PackTargets(job.output, CoreFile(job), hash)
  }

  function GeometryTargets(job: Job, hash: Hash): seq<Target> {
    if job.geometryOutput.None? then [] else PackTargets(job.geometryOutput.value, GeometryFile(job, hash), hash)
  }

  function ManifestTargets(job: Job, hash: Hash): seq<Target> {
    if job.manifestOutput.None? then [] else [Target(job.manifestOutput.value, ManifestFile(job, hash))]
  }

  /** The destinations, in the order in which they are staged and later renamed. */
  function Targets(job: Job, hash: Hash): seq<Target> {
    CoreTargets(job, hash) + GeometryTargets(job, hash) + ManifestTargets(job, hash)
  }

  predicate Distinct(ts: seq<Target>) {
    forall i, j | 0 <= i < j < |ts| :: ts[i].path != ts[j].path
  }

  function Stages(ts: seq<Target>): seq<Operation> {
    seq(|ts|, i requires 0 <= i < |ts| => Write(Staged(ts[i].path), ts[i].content))
  }

  function Renames(ts: seq<Target>): seq<Operation> {
    seq(|ts|, i requires 0 <= i < |ts| => Replace(Staged(ts[i].path), ts[i].path))
  }

  function Ops(ts: seq<Target>): (ops: seq<Operation>)
    ensures |ops| == 2 * |ts|
  {
    Stages(ts) + Renames(ts)
  }

  predicate IsCoreOnly(job: Job) {
    job.geometryOutput.None? && job.manifestOutput.None?
  }

  /** A core alone: each of its two files is renamed as soon as it is staged. */
  function CoreOnlyOps(job: Job, hash: Hash): seq<Operation> {
    Ops(CoreTargets(job, hash)[..1]) + Ops(CoreTargets(job, hash)[1..])
  }

  /** The operations of a build, or None when it refuses its destinations. */
  function Plan(job: Job, hash: Hash): Option<seq<Operation>> {
    var ts := Targets(job, hash);
    if !Distinct(ts) then None
    else if IsCoreOnly(job) then Some(CoreOnlyOps(job, hash))
    else Some(Ops(ts))
  }

  // ---------------------------------------------------------------- the build, statement by statement

  /** Performs one more operation after `done`. */
  method Then(disk: Disk, ghost s0: DiskState, ghost done: seq<Operation>, op: Operation)
    returns (ghost all: seq<Operation>)
    requires disk.state == PerformAll(s0, done)
    modifies disk
    ensures all == done + [op] && disk.state == PerformAll(s0, all)
  {
    disk.Do(op);
    all := done + [op];
    assert all[..|done|] == done;
  }

  method StagePack(disk: Disk, ghost s0: DiskState, ghost done: seq<Operation>, path: string, pack: Content, hash: Hash)
    returns (ghost all: seq<Operation>)
    requires disk.state == PerformAll(s0, done)
    modifies disk
    ensures all == done + Stages(PackTargets(path, pack, hash)) && disk.state == PerformAll(s0, all)
  {
    hide PerformAll, Staged, ChecksumPath;
    all := Then(disk, s0, done, Write(Staged(path), pack));
    all := Then(disk, s0, all, Write(Staged(ChecksumPath(path)), Checksum(hash(pack))));
  }

  method RenamePack(disk: Disk, ghost s0: DiskState, ghost done: seq<Operation>, path: string,
                    ghost pack: Content, ghost hash: Hash)
    returns (ghost all: seq<Operation>)
    requires disk.state == PerformAll(s0, done)
    modifies disk
    ensures all == done + Renames(PackTargets(path, pack, hash)) && disk.state == PerformAll(s0, all)
  {
    hide PerformAll, Staged, ChecksumPath;
    all := Then(disk, s0, done, Replace(Staged(path), path));
    all := Then(disk, s0, all, Replace(Staged(ChecksumPath(path)), ChecksumPath(path)));
  }

  /** Writes every file under its staging name: the packs first, then the manifest. */
  method StageAll(job: Job, hash: Hash, disk: Disk, ghost s0: DiskState) returns (ghost all: seq<Operation>)
    requires disk.state == s0
    modifies disk
    ensures all == Stages(Targets(job, hash)) && disk.state == PerformAll(s0, all)
  {
    StagesSplit(job, hash);
    all := [];
    hide PerformAll, Stages, Staged;
    PerformNothing(s0);
    var core := Core(job.core);
    var geometry := Geometry(job.geometry, Some(hash(core)));
    all := StagePack(disk, s0, all, job.output, core, hash);
    if job.geometryOutput.Some? {
      all := StagePack(disk, s0, all, job.geometryOutput.value, geometry, hash);
    }
    if job.manifestOutput.Some? {
      var manifest := Manifest(hash(core), if job.geometryOutput.Some? then Some(hash(geometry)) else None);
      all := Then(disk, s0, all, Write(Staged(job.manifestOutput.value), manifest));
    }
  }

  /** Renames the staged files in the same order. */
  method RenameAll(job: Job, ghost hash: Hash, disk: Disk, ghost s0: DiskState, ghost done: seq<Operation>)
    returns (ghost all: seq<Operation>)
    requires disk.state == PerformAll(s0, done)
    modifies disk
    ensures all == done + Renames(Targets(job, hash)) && disk.state == PerformAll(s0, all)
  {
    RenamesSplit(job, hash);
    hide PerformAll, Renames, Staged;
    all := RenamePack(disk, s0, done, job.output, CoreFile(job), hash);
    if job.geometryOutput.Some? {
      all := RenamePack(disk, s0, all, job.geometryOutput.value, GeometryFile(job, hash), hash);
    }
    if job.manifestOutput.Some? {
      all := Then(disk, s0, all, Replace(Staged(job.manifestOutput.value), job.manifestOutput.value));
    }
  }

  lemma StagesSplit(job: Job, hash: Hash)
    ensures Stages(Targets(job, hash)) ==
            Stages(CoreTargets(job, hash))
            + (if job.geometryOutput.None? then [] else Stages(GeometryTargets(job, hash)))
            + (if job.manifestOutput.None? then []
               else [Write(Staged(job.manifestOutput.value), ManifestFile(job, hash))])
  {
    hide Staged, ChecksumPath;
  }

  lemma RenamesSplit(job: Job, hash: Hash)
    ensures Renames(Targets(job, hash)) ==
            Renames(CoreTargets(job, hash))
            + (if job.geometryOutput.None? then [] else Renames(GeometryTargets(job, hash)))
            + (if job.manifestOutput.None? then []
               else [Replace(Staged(job.manifestOutput.value), job.manifestOutput.value)])
  {
    hide Staged, ChecksumPath;
  }

  lemma PerformNothing(s: DiskState)
    ensures PerformAll(s, []) == s
  {
  }

  /** The branch for a core alone. */
  method PublishCore(job: Job, hash: Hash, disk: Disk)
    modifies disk
    ensures disk.state == PerformAll(old(disk.state), CoreOnlyOps(job, hash))
  {
    hide PerformAll, Staged, ChecksumPath;
    ghost var s0 := disk.state;
    var digest := hash(Core(job.core));
    PerformNothing(s0);
    ghost var all := Then(disk, s0, [], Write(Staged(job.output), Core(job.core)));
    all := Then(disk, s0, all, Replace(Staged(job.output), job.output));
    all := Then(disk, s0, all, Write(Staged(ChecksumPath(job.output)), Checksum(digest)));
    all := Then(disk, s0, all, Replace(Staged(ChecksumPath(job.output)), ChecksumPath(job.output)));
    assert all == CoreOnlyOps(job, hash);
  }

  /** No path is the destination of two files; a checksum never has the path of its own pack. */
  predicate RepeatsNoPath(job: Job) {
    && (job.geometryOutput.Some? ==>
          && job.geometryOutput.value != job.output
          && job.geometryOutput.value != job.output + ".sha256"
          && job.geometryOutput.value + ".sha256" != job.output)
    && (job.manifestOutput.Some? ==>
          && job.manifestOutput.value != job.output
          && job.manifestOutput.value != job.output + ".sha256")
    && (job.geometryOutput.Some? && job.manifestOutput.Some? ==>
          && job.manifestOutput.value != job.geometryOutput.value
          && job.manifestOutput.value != job.geometryOutput.value + ".sha256")
  }

  /** Every output of the job is at its path: the core, the geometry pack bound to its digest, the
      checksums of both, and the manifest with both digests. */
  predicate Complete(files: Files, job: Job, hash: Hash) {
    var core := Core(job.core);
    var geometry := Geometry(job.geometry, Some(hash(core)));
    && Holds(files, job.output, core)
    && Holds(files, job.output + ".sha256", Checksum(hash(core)))
    && (job.geometryOutput.Some? ==>
          && Holds(files, job.geometryOutput.value, geometry)
          && Holds(files, job.geometryOutput.value + ".sha256", Checksum(hash(geometry))))
    && (job.manifestOutput.Some? ==>
          Holds(files, job.manifestOutput.value,
                Manifest(hash(core), if job.geometryOutput.Some? then Some(hash(geometry)) else None)))
  }

  /** `build`: refuses destinations that are not distinct; otherwise stages and renames. */
  method Build(job: Job, hash: Hash, disk: Disk) returns (started: bool)
    modifies disk
    ensures started == RepeatsNoPath(job) == Plan(job, hash).Some?
    ensures started ==> disk.state == PerformAll(old(disk.state), Plan(job, hash).value)
    ensures !started ==> disk.state == old(disk.state)
    ensures started && !old(disk.state.failed) && old(disk.state.budget) >= 10 && StagingIsClear(job) ==>
              !disk.state.failed && Complete(disk.state.files, job, hash)
  {
    AcceptedIff(job, hash);
    ghost var s0 := disk.state;
    if RepeatsNoPath(job) && !s0.failed && s0.budget >= 10 {
      BuildPublishesIff(job, hash, s0.files, s0.budget, s0.torn);
      assert s0 == DiskState(s0.files, s0.budget, false, s0.torn);
    }
    hide PerformAll, Stages, Renames, RepeatsNoPath, Complete, StagingIsClear;
    var destinations := Destinations(job, hash);
    hide Targets;
    if exists i, j | 0 <= i < j < |destinations| :: destinations[i] == destinations[j] {
      return false;
    }
    started := true;
    if job.geometryOutput.None? && job.manifestOutput.None? {
      PublishCore(job, hash, disk);
      return;
    }
    ghost var ops := StageAll(job, hash, disk, s0);
    ops := RenameAll(job, hash, disk, s0, ops);
  }

  lemma SamePack(a: string, b: string)
    ensures ChecksumPath(a) == ChecksumPath(b) ==> a == b
    ensures ChecksumPath(a) != a
  {
    assert ChecksumPath(a)[..|a|] == a && ChecksumPath(b)[..|b|] == b;
    assert |ChecksumPath(a)| == |a| + 7;
  }

  /** A build is planned exactly if it repeats no path. */
  lemma AcceptedIff(job: Job, hash: Hash)
    ensures Plan(job, hash).Some? <==> RepeatsNoPath(job)
  {
    var ts := Targets(job, hash);
    TargetsAre(job, hash);
    SamePack(job.output, job.output);
    assert ts[0].path == job.output && ts[1].path == job.output + ".sha256";
    if job.geometryOutput.Some? {
      var g := job.geometryOutput.value;
      SamePack(g, g);
      SamePack(g, job.output);
      assert ts[2].path == g && ts[3].path == g + ".sha256";
    }
    if job.manifestOutput.Some? {
      assert ts[|ts| - 1].path == job.manifestOutput.value;
    }
    hide Targets, ChecksumPath;
  }

  method Destinations(job: Job, ghost hash: Hash) returns (paths: seq<string>)
    ensures var ts := Targets(job, hash);
            |paths| == |ts| && forall i | 0 <= i < |ts| :: paths[i] == ts[i].path
  {
    hide ChecksumPath;
    paths := [job.output, ChecksumPath(job.output)];
    if job.geometryOutput.Some? {
      paths := paths + [job.geometryOutput.value, ChecksumPath(job.geometryOutput.value)];
    }
    if job.manifestOutput.Some? {
      paths := paths + [job.manifestOutput.value];
    }
  }

  // ---------------------------------------------------------------- what a crash leaves

  lemma AfterPrefix(files: Files, ops: seq<Operation>, n: nat)
    requires n < |ops|
    ensures After(files, ops[..n + 1]) ==
            match After(files, ops[..n])
            case None => None
            case Some(before) => Step(before, ops[n])
  {
    assert ops[..n + 1][..n] == ops[..n];
  }

  /** From `s`, the first `n` operations were performed and left `r`: the next one failed, or the
      process stopped in it, or there is none. */
  predicate StoppedAt(s: DiskState, ops: seq<Operation>, n: nat, r: DiskState) {
    && n <= |ops| && n <= s.budget && After(s.files, ops[..n]).Some?
    && var g := After(s.files, ops[..n]).value;
       if r.failed then r.files == g && n < |ops| && After(s.files, ops[..n + 1]) == None
       else if n < |ops| then n == s.budget && r == DiskState(Tear(g, ops[n], s.torn), 0, false, None)
       else r == s.(files := g, budget := s.budget - n)
  }

  lemma StopsLater(s: DiskState, ops: seq<Operation>, n: nat, r: DiskState)
    requires ops != [] && !s.failed && StoppedAt(s, ops[..|ops| - 1], n, r)
    ensures var r' := Perform(r, ops[|ops| - 1]);
            StoppedAt(s, ops, n, r') || (n + 1 == |ops| && StoppedAt(s, ops, n + 1, r'))
  {
    hide After, Step;
    var m := |ops| - 1;
    assert ops[..m][..n] == ops[..n];
    if r.failed {
      assert ops[..m][..n + 1] == ops[..n + 1];
    } else if n == m && n < s.budget {
      AfterPrefix(s.files, ops, m);
    }
  }

  /** Whenever the process stops, the disk holds what some prefix of its operations left, but for
      the file of a write it stopped in: all of them if it did not stop early. */
  lemma {:induction false} StopsAtPrefix(s: DiskState, ops: seq<Operation>) returns (n: nat)
    requires !s.failed
    ensures StoppedAt(s, ops, n, PerformAll(s, ops))
    decreases |ops|
  {
    if ops == [] {
      return 0;
    }
    hide StoppedAt, Perform;
    n := StopsAtPrefix(s, ops[..|ops| - 1]);
    StopsLater(s, ops, n, PerformAll(s, ops[..|ops| - 1]));
    if !StoppedAt(s, ops, n, PerformAll(s, ops)) {
      n := n + 1;
    }
  }

  // ---------------------------------------------------------------- staging and renaming

  lemma StagedIsInjective(a: string, b: string)
    requires Staged(a) == Staged(b)
    ensures a == b
  {
    assert Staged(a)[..|a|] == a && Staged(b)[..|b|] == b;
  }

  /** The contents a build puts on disk for `ts`. */
  function NewContents(ts: seq<Target>): set<Content> {
    set i | 0 <= i < |ts| :: ts[i].content
  }

  /** The first `n` targets are staged, and everything else is as it was. */
  predicate Put(g: Files, files: Files, ts: seq<Target>, n: nat)
    requires n <= |ts|
  {
    && (forall i | 0 <= i < n :: Staged(ts[i].path) in g && g[Staged(ts[i].path)] == ts[i].content)
    && (forall p <- g :: (exists i :: 0 <= i < n && p == Staged(ts[i].path)) || (p in files && g[p] == files[p]))
  }

  lemma PutOneMore(g: Files, files: Files, ts: seq<Target>, n: nat)
    requires Distinct(ts) && n < |ts| && Put(g, files, ts, n)
    ensures Put(g[Staged(ts[n].path) := ts[n].content], files, ts, n + 1)
  {
    hide Staged;
    forall i | 0 <= i < n
      ensures Staged(ts[i].path) != Staged(ts[n].path)
    {
      if Staged(ts[i].path) == Staged(ts[n].path) {
        StagedIsInjective(ts[i].path, ts[n].path);
      }
    }
  }

  lemma {:induction false} StagesPut(files: Files, ts: seq<Target>, n: nat)
    requires Distinct(ts) && n <= |ts|
    ensures After(files, Ops(ts)[..n]).Some?
    ensures Put(After(files, Ops(ts)[..n]).value, files, ts, n)
  {
    if n > 0 {
      assert Ops(ts)[n - 1] == Write(Staged(ts[n - 1].path), ts[n - 1].content);
      hide Staged, Put, After, Ops, Distinct;
      StagesPut(files, ts, n - 1);
      AfterPrefix(files, Ops(ts), n - 1);
      PutOneMore(After(files, Ops(ts)[..n - 1]).value, files, ts, n - 1);
    }
  }

  /** No staging name is the destination of a file that is renamed earlier. */
  predicate NoClobber(ts: seq<Target>) {
    forall j, i | 0 <= j < i < |ts| :: Staged(ts[i].path) != ts[j].path
  }

  predicate Holds(files: Files, path: string, content: Content) {
    path in files && files[path] == content
  }

  /** Every destination holds its new content. */
  predicate Published(files: Files, ts: seq<Target>) {
    forall i | 0 <= i < |ts| :: Holds(files, ts[i].path, ts[i].content)
  }

  lemma StagedDiffers(a: string)
    ensures Staged(a) != a
  {
    assert |Staged(a)| == |a| + 4;
  }

  function AfterRenames(files: Files, ts: seq<Target>, r: nat): Option<Files>
    requires r <= |ts|
  {
    After(files, Ops(ts)[..|ts| + r])
  }

  /** The r-th rename. */
  lemma NextRename(files: Files, ts: seq<Target>, r: nat)
    requires r < |ts|
    ensures AfterRenames(files, ts, r + 1).Some? ==>
              AfterRenames(files, ts, r).Some?
              && var g := AfterRenames(files, ts, r).value;
              Staged(ts[r].path) in g
              && AfterRenames(files, ts, r + 1).value
                 == g[ts[r].path := g[Staged(ts[r].path)]] - {Staged(ts[r].path)}
    ensures AfterRenames(files, ts, r).Some? && Staged(ts[r].path) in AfterRenames(files, ts, r).value ==>
              AfterRenames(files, ts, r + 1).Some?
  {
    hide Staged, After;
    AfterPrefix(files, Ops(ts), |ts| + r);
    assert Ops(ts)[|ts| + r] == Replace(Staged(ts[r].path), ts[r].path);
    StagedDiffers(ts[r].path);
  }

  lemma {:induction false} RenamesSucceed(files: Files, ts: seq<Target>, r: nat)
    requires Distinct(ts) && NoClobber(ts) && r <= |ts|
    ensures AfterRenames(files, ts, r).Some?
    ensures forall i | 0 <= i < r :: Holds(AfterRenames(files, ts, r).value, ts[i].path, ts[i].content)
    ensures forall i | r <= i < |ts| :: Holds(AfterRenames(files, ts, r).value, Staged(ts[i].path), ts[i].content)
  {
    hide Staged, After, Ops;
    if r == 0 {
      StagesPut(files, ts, |ts|);
    } else {
      RenamesSucceed(files, ts, r - 1);
      NextRename(files, ts, r - 1);
      StagedDiffers(ts[r - 1].path);
      hide AfterRenames;
      forall i | r <= i < |ts|
        ensures Staged(ts[i].path) != Staged(ts[r - 1].path)
      {
        if Staged(ts[i].path) == Staged(ts[r - 1].path) {
          StagedIsInjective(ts[i].path, ts[r - 1].path);
        }
      }
    }
  }

  /** Once a destination was taken as a staging name and moved away, no later rename restores it. */
  lemma {:induction false} ClobberedStaysAway(files: Files, ts: seq<Target>, j: nat, i: nat, r: nat)
    requires Distinct(ts) && j < i < r <= |ts| && Staged(ts[i].path) == ts[j].path
    requires AfterRenames(files, ts, r).Some?
    ensures ts[j].path !in AfterRenames(files, ts, r).value
  {
    hide Staged, After, Ops;
    NextRename(files, ts, r - 1);
    hide AfterRenames;
    if i < r - 1 {
      ClobberedStaysAway(files, ts, j, i, r - 1);
    }
  }

  /** A build that runs to its end publishes everything exactly when no staging name is the
      destination of a file renamed earlier; distinct destinations alone do not suffice. */
  lemma PublishesIff(files: Files, ts: seq<Target>)
    requires Distinct(ts)
    ensures After(files, Ops(ts)).Some? && Published(After(files, Ops(ts)).value, ts) <==> NoClobber(ts)
  {
    assert Ops(ts)[..|ts| + |ts|] == Ops(ts);
    hide Staged, After, Ops;
    if NoClobber(ts) {
      RenamesSucceed(files, ts, |ts|);
    } else {
      var j, i :| 0 <= j < i < |ts| && Staged(ts[i].path) == ts[j].path;
      if After(files, Ops(ts)).Some? {
        ClobberedStaysAway(files, ts, j, i, |ts|);
      }
    }
  }

  // ---------------------------------------------------------------- what a crash can leave at a path

  /** While the first `m` targets are being renamed, a path holds what it held before, the
      content of one of those targets, or a later target under its staging name. */
  predicate OldOrNew(g: Files, files: Files, ts: seq<Target>, m: nat, p: string)
    requires m <= |ts| && p in g
  {
    || Holds(files, p, g[p])
    || g[p] in NewContents(ts[..m])
    || exists i :: m <= i < |ts| && p == Staged(ts[i].path) && g[p] == ts[i].content
  }

  /** `OldOrNew` everywhere, and what is still staged of the first `m` targets is theirs. */
  predicate Mixed(g: Files, files: Files, ts: seq<Target>, m: nat, r: nat)
    requires r <= m <= |ts|
  {
    && (forall p <- g :: OldOrNew(g, files, ts, m, p))
    && (forall i | r <= i < m :: Staged(ts[i].path) in g ==> g[Staged(ts[i].path)] in NewContents(ts[..m]))
  }

  lemma ContentIsNew(ts: seq<Target>, m: nat, i: nat)
    requires i < m <= |ts|
    ensures ts[i].content in NewContents(ts[..m])
  {
    assert ts[..m][i] == ts[i];
  }

  lemma StagedIsOldOrNew(files: Files, ts: seq<Target>, n: nat, m: nat)
    requires Distinct(ts) && n <= |ts| && m <= |ts|
    ensures After(files, Ops(ts)[..n]).Some?
    ensures var g := After(files, Ops(ts)[..n]).value; forall p <- g :: OldOrNew(g, files, ts, m, p)
    ensures var g := After(files, Ops(ts)[..n]).value;
            forall i | 0 <= i < n && i < m ::
              Staged(ts[i].path) in g ==> g[Staged(ts[i].path)] in NewContents(ts[..m])
  {
    hide Staged, After, Ops, NewContents;
    StagesPut(files, ts, n);
    var g := After(files, Ops(ts)[..n]).value;
    forall i | 0 <= i < m
      ensures ts[i].content in NewContents(ts[..m])
    {
      ContentIsNew(ts, m, i);
    }
  }

  lemma {:induction false} RenamesAreMixed(files: Files, ts: seq<Target>, m: nat, r: nat)
    requires Distinct(ts) && r <= m <= |ts| && AfterRenames(files, ts, r).Some?
    ensures Mixed(AfterRenames(files, ts, r).value, files, ts, m, r)
  {
    hide Staged, After, Ops, NewContents;
    if r == 0 {
      StagedIsOldOrNew(files, ts, |ts|, m);
    } else {
      NextRename(files, ts, r - 1);
      RenamesAreMixed(files, ts, m, r - 1);
    }
  }

  /** At every crash point before the first `m` targets are renamed and the next one begins,
      each path is old or new in the sense of `OldOrNew`. */
  lemma CrashIsOldOrNew(files: Files, ts: seq<Target>, n: nat, m: nat)
    requires Distinct(ts) && m <= |ts| && n <= |ts| + m
    requires After(files, Ops(ts)[..n]).Some?
    ensures var g := After(files, Ops(ts)[..n]).value; forall p <- g :: OldOrNew(g, files, ts, m, p)
  {
    hide OldOrNew, After, Ops, Staged, NewContents;
    if n <= |ts| {
      StagedIsOldOrNew(files, ts, n, m);
    } else {
      RenamesAreMixed(files, ts, m, n - |ts|);
    }
  }

  // ---------------------------------------------------------------- the manifest commits

  /** If the last target's content is on disk at its path, and neither was there before nor is
      the content of another target, the process did not stop early. */
  lemma LastCommits(files: Files, ts: seq<Target>, n: nat)
    requires Distinct(ts) && ts != [] && n <= 2 * |ts|
    requires After(files, Ops(ts)[..n]).Some?
    requires var last := ts[|ts| - 1];
             && Holds(After(files, Ops(ts)[..n]).value, last.path, last.content)
             && !Holds(files, last.path, last.content)
             && last.content !in NewContents(ts[..|ts| - 1])
    ensures n == 2 * |ts|
  {
    hide After, Ops, Staged, NewContents;
    var last := ts[|ts| - 1];
    if n < 2 * |ts| {
      CrashIsOldOrNew(files, ts, n, |ts| - 1);
      assert OldOrNew(After(files, Ops(ts)[..n]).value, files, ts, |ts| - 1, last.path);
      StagedDiffers(last.path);
      assert false;
    }
  }

  lemma CommitsWithLast(job: Job, hash: Hash, files: Files, n: nat)
    requires job.manifestOutput.Some?
    requires var ts := Targets(job, hash);
             && Distinct(ts) && NoClobber(ts) && n <= |Ops(ts)|
             && After(files, Ops(ts)[..n]).Some?
             && Holds(After(files, Ops(ts)[..n]).value, job.manifestOutput.value, ManifestFile(job, hash))
    requires !Holds(files, job.manifestOutput.value, ManifestFile(job, hash))
    ensures n == |Ops(Targets(job, hash))|
    ensures Published(After(files, Ops(Targets(job, hash))[..n]).value, Targets(job, hash))
  {
    var ts := Targets(job, hash);
    TargetsAre(job, hash);
    hide After, Ops, Staged, Targets, ChecksumPath, Distinct, NoClobber;
    LastCommits(files, ts, n);
    RenamesSucceed(files, ts, |ts|);
  }

  /** A build with a manifest, on any disk and wherever it stops: the new manifest is at its path
      only if every other output is at its own, with the digests it records.  What a torn write
      leaves must not happen to be that manifest. */
  lemma CommitsAtManifest(job: Job, hash: Hash, files: Files, budget: nat, torn: Option<Content>)
    requires job.manifestOutput.Some? && RepeatsNoPath(job) && StagingIsClear(job)
    requires torn != Some(ManifestFile(job, hash))
    requires !Holds(files, job.manifestOutput.value, ManifestFile(job, hash))
    ensures Plan(job, hash).Some?
    ensures var r := PerformAll(DiskState(files, budget, false, torn), Plan(job, hash).value);
            Holds(r.files, job.manifestOutput.value, ManifestFile(job, hash)) ==> Complete(r.files, job, hash)
  {
    AcceptedIff(job, hash);
    hide PerformAll, After, Staged, ChecksumPath, RepeatsNoPath, Complete, Ops, ManifestFile;
    PlanFits(job, hash);
    NoClobberIff(job, hash);
    var ops := Plan(job, hash).value;
    var s0 := DiskState(files, budget, false, torn);
    var n := StopsAtPrefix(s0, ops);
    var r := PerformAll(s0, ops);
    PublishedIsComplete(r.files, job, hash);
    hide Targets, NoClobber, Distinct, StagingIsClear, Plan;
    if Holds(r.files, job.manifestOutput.value, ManifestFile(job, hash)) {
      assert Holds(After(files, ops[..n]).value, job.manifestOutput.value, ManifestFile(job, hash));
      CommitsWithLast(job, hash, files, n);
    }
  }

  lemma TargetsAre(job: Job, hash: Hash)
    ensures var ts := Targets(job, hash);
            && |ts| == 2 + (if job.geometryOutput.Some? then 2 else 0) + (if job.manifestOutput.Some? then 1 else 0)
            && ts[0] == Target(job.output, CoreFile(job))
            && ts[1] == Target(ChecksumPath(job.output), Checksum(hash(CoreFile(job))))
            && (job.geometryOutput.Some? ==>
                  && ts[2] == Target(job.geometryOutput.value, GeometryFile(job, hash))
                  && ts[3] == Target(ChecksumPath(job.geometryOutput.value), Checksum(hash(GeometryFile(job, hash)))))
            && (job.manifestOutput.Some? ==>
                  ts[|ts| - 1] == Target(job.manifestOutput.value, ManifestFile(job, hash)))
  {
    hide ChecksumPath;
  }

  // ---------------------------------------------------------------- the staging names

  lemma StagedIsNoChecksum(a: string, b: string)
    ensures Staged(a) != ChecksumPath(b)
  {
    var s := Staged(a);
    assert s[|s| - 1] == 'w';
    var c := ChecksumPath(b);
    assert c[|c| - 1] == '6';
  }

  lemma ChecksumsDiffer(a: string)
    ensures Staged(ChecksumPath(a)) != a && ChecksumPath(a) != a
  {
    assert |ChecksumPath(a)| == |a| + 7;
    assert |Staged(ChecksumPath(a))| == |a| + 11;
  }

  /** The four inequalities that the guard on destinations leaves out. */
  predicate StagingIsClear(job: Job) {
    && (job.geometryOutput.Some? ==>
          && job.output != Staged(job.geometryOutput.value)
          && job.output != Staged(ChecksumPath(job.geometryOutput.value)))
    && (job.manifestOutput.Some? ==> job.output != Staged(job.manifestOutput.value))
    && (job.manifestOutput.Some? && job.geometryOutput.Some? ==>
          job.geometryOutput.value != Staged(job.manifestOutput.value))
  }

  lemma NoClobberIff(job: Job, hash: Hash)
    ensures NoClobber(Targets(job, hash)) <==> StagingIsClear(job)
  {
    var ts := Targets(job, hash);
    TargetsAre(job, hash);
    StagedIsNoChecksum(ChecksumPath(job.output), job.output);
    ChecksumsDiffer(job.output);
    if job.geometryOutput.Some? {
      var g := job.geometryOutput.value;
      StagedIsNoChecksum(g, job.output);
      StagedIsNoChecksum(ChecksumPath(g), job.output);
      ChecksumsDiffer(g);
    }
    if job.manifestOutput.Some? {
      StagedIsNoChecksum(job.manifestOutput.value, job.output);
      if job.geometryOutput.Some? {
        StagedIsNoChecksum(job.manifestOutput.value, job.geometryOutput.value);
      }
    }
    hide Staged, ChecksumPath, Targets;
    if NoClobber(ts) && job.geometryOutput.Some? {
      assert Staged(ts[2].path) != ts[0].path && Staged(ts[3].path) != ts[0].path;
    }
    if NoClobber(ts) && job.manifestOutput.Some? {
      assert Staged(ts[|ts| - 1].path) != ts[0].path;
    }
  }

  /** With operations enough, a build fails exactly when one of them finds no file. */
  lemma RunToEnd(files: Files, ops: seq<Operation>, budget: nat, torn: Option<Content>)
    requires |ops| <= budget
    ensures var r := PerformAll(DiskState(files, budget, false, torn), ops);
            && (r.failed <==> After(files, ops).None?)
            && (!r.failed ==> After(files, ops) == Some(r.files))
  {
    hide PerformAll;
    var s := DiskState(files, budget, false, torn);
    var n := StopsAtPrefix(s, ops);
    assert ops[..|ops|] == ops;
    if PerformAll(s, ops).failed {
      NothingAfterFailure(files, ops, n + 1);
    }
  }

  lemma PlanFits(job: Job, hash: Hash)
    requires Plan(job, hash).Some?
    ensures |Plan(job, hash).value| <= 10
    ensures Distinct(Targets(job, hash))
    ensures if IsCoreOnly(job) then Plan(job, hash) == Some(CoreOnlyOps(job, hash))
                                    && Targets(job, hash) == CoreTargets(job, hash)
            else Plan(job, hash) == Some(Ops(Targets(job, hash)))
  {
    hide ChecksumPath;
  }

  lemma PublishedIsComplete(files: Files, job: Job, hash: Hash)
    ensures Published(files, Targets(job, hash)) <==> Complete(files, job, hash)
  {
    var ts := Targets(job, hash);
    TargetsAre(job, hash);
    hide Targets;
    if Published(files, ts) {
      assert Holds(files, ts[0].path, ts[0].content) && Holds(files, ts[1].path, ts[1].content);
      assert Holds(files, ts[|ts| - 1].path, ts[|ts| - 1].content);
      if job.geometryOutput.Some? {
        assert Holds(files, ts[2].path, ts[2].content) && Holds(files, ts[3].path, ts[3].content);
      }
    }
  }

  /** A build that repeats no path and is not interrupted leaves every output in place exactly when
      no output is the staging name of a later one. */
  lemma BuildPublishesIff(job: Job, hash: Hash, files: Files, budget: nat, torn: Option<Content>)
    requires RepeatsNoPath(job) && budget >= 10
    ensures Plan(job, hash).Some?
    ensures var r := PerformAll(DiskState(files, budget, false, torn), Plan(job, hash).value);
            !r.failed && Complete(r.files, job, hash) <==> StagingIsClear(job)
  {
    AcceptedIff(job, hash);
    PublishedIsComplete(PerformAll(DiskState(files, budget, false, torn), Plan(job, hash).value).files, job, hash);
    hide RepeatsNoPath, Complete;
    PlanFits(job, hash);
    NoClobberIff(job, hash);
    CoreOnlyPublishes(job, hash, files);
    hide PerformAll, After, Targets, CoreTargets, CoreOnlyOps, Ops, Plan, NoClobber, Distinct, Published;
    PublishesIff(files, Targets(job, hash));
    RunToEnd(files, Plan(job, hash).value, budget, torn);
  }

  /** A core alone is always published: its files are out of each other's way. */
  lemma CoreOnlyPublishes(job: Job, hash: Hash, files: Files)
    ensures var r := After(files, CoreOnlyOps(job, hash));
            r.Some? && Published(r.value, CoreTargets(job, hash))
  {
    var ts := CoreTargets(job, hash);
    StagedIsNoChecksum(ChecksumPath(job.output), job.output);
    ChecksumsDiffer(job.output);
    hide After, Ops, Staged, ChecksumPath;
    PublishesIff(files, ts[..1]);
    var g := After(files, Ops(ts[..1])).value;
    assert Holds(g, ts[..1][0].path, ts[..1][0].content);
    PublishesIff(g, ts[1..]);
    AfterAppended(files, Ops(ts[..1]), Ops(ts[1..]));
    OthersStay(g, ts[1..], ts[0].path);
    var r := After(g, Ops(ts[1..])).value;
    assert Holds(r, ts[1..][0].path, ts[1..][0].content);
  }

  /** A build leaves alone what it neither stages nor publishes. */
  lemma OthersStay(files: Files, ts: seq<Target>, p: string)
    requires |ts| == 1 && p != ts[0].path && p != Staged(ts[0].path) && After(files, Ops(ts)).Some?
    ensures SameAt(After(files, Ops(ts)).value, files, p)
  {
    var ops := Ops(ts);
    assert ops[..1][..0] == [] && ops[..2] == ops && ops[..2][..1] == ops[..1];
    hide Staged;
    assert After(files, ops[..1]) == Some(files[Staged(ts[0].path) := ts[0].content]);
  }

  lemma {:induction false} AfterAppended(files: Files, a: seq<Operation>, b: seq<Operation>)
    ensures After(files, a + b) == match After(files, a) case None => None case Some(g) => After(g, b)
    decreases |b|
  {
    if b == [] {
      assert a + b == a;
    } else {
      var n := |b| - 1;
      AfterAppended(files, a, b[..n]);
      assert (a + b)[..|a + b| - 1] == a + b[..n];
    }
  }

  lemma {:induction false} NothingAfterFailure(files: Files, ops: seq<Operation>, n: nat)
    requires n <= |ops| && After(files, ops[..n]) == None
    ensures After(files, ops) == None
    decreases |ops| - n
  {
    if n == |ops| {
      assert ops[..n] == ops;
    } else {
      AfterPrefix(files, ops, n);
      NothingAfterFailure(files, ops, n + 1);
    }
  }

  /** Destinations that pass the guard, yet after an uninterrupted build the core is not at its
      path: the geometry pack was staged there, and its rename carried the core away. */
  lemma DistinctDestinationsCanLoseTheCore(hash: Hash, files: Files, budget: nat, core: seq<int>, geometry: seq<int>)
    requires budget >= 10
    ensures var job := Job("a.new", Some("a"), None, core, geometry);
            && Plan(job, hash).Some?
            && var r := PerformAll(DiskState(files, budget, false, None), Plan(job, hash).value);
               !r.failed && "a.new" !in r.files && Holds(r.files, "a", CoreFile(job))
  {
    var job := Job("a.new", Some("a"), None, core, geometry);
    var ts := Targets(job, hash);
    TargetsAre(job, hash);
    assert |"a.new"| == 5 && |"a"| == 1 && |"a.new.sha256"| == 12 && |"a.sha256"| == 8;
    assert ChecksumPath("a.new") == "a.new.sha256" && ChecksumPath("a") == "a.sha256";
    assert Staged("a") == "a.new" && Staged("a.new") == "a.new.new" && Staged("a.sha256") == "a.sha256.new";
    assert Staged("a.new.sha256") == "a.new.sha256.new";
    hide PerformAll, After, Ops, Staged, ChecksumPath, Targets;
    StagesPut(files, ts, 4);
    FourRenames(files, ts);
    RunToEnd(files, Ops(ts), budget, None);
  }

  /** A rename moves its file and leaves any other path alone. */
  lemma RenameMoves(files: Files, ts: seq<Target>, r: nat, q: string)
    requires r < |ts| && AfterRenames(files, ts, r).Some?
    requires Staged(ts[r].path) in AfterRenames(files, ts, r).value
    ensures AfterRenames(files, ts, r + 1).Some?
    ensures var g, g' := AfterRenames(files, ts, r).value, AfterRenames(files, ts, r + 1).value;
            && Holds(g', ts[r].path, g[Staged(ts[r].path)]) && Staged(ts[r].path) !in g'
            && (q != ts[r].path && q != Staged(ts[r].path) ==> SameAt(g', g, q))
  {
    hide AfterRenames, Staged;
    NextRename(files, ts, r);
    StagedDiffers(ts[r].path);
  }

  lemma AllStaged(files: Files, ts: seq<Target>)
    requires Distinct(ts)
    ensures AfterRenames(files, ts, 0).Some?
    ensures forall i | 0 <= i < |ts| ::
              Staged(ts[i].path) in AfterRenames(files, ts, 0).value
              && AfterRenames(files, ts, 0).value[Staged(ts[i].path)] == ts[i].content
  {
    hide After, Ops, Staged, Distinct;
    StagesPut(files, ts, |ts|);
  }

  lemma TwoRenames(files: Files, ts: seq<Target>)
    requires |ts| == 4 && Distinct(ts) && Staged(ts[2].path) == ts[0].path
    requires forall j | 0 <= j < 3 :: Staged(ts[3].path) != ts[j].path
    ensures AfterRenames(files, ts, 2).Some?
    ensures var g := AfterRenames(files, ts, 2).value;
            Holds(g, ts[0].path, ts[0].content) && Staged(ts[3].path) in g
  {
    var last := Staged(ts[3].path);
    hide After, Ops, Staged, AfterRenames, Distinct, NewContents;
    AllStaged(files, ts);
    StagedNames(ts);
    RenameMoves(files, ts, 0, last);
    RenameMoves(files, ts, 0, Staged(ts[1].path));
    RenameMoves(files, ts, 1, last);
    RenameMoves(files, ts, 1, ts[0].path);
  }

  lemma FourRenames(files: Files, ts: seq<Target>)
    requires |ts| == 4 && Distinct(ts) && Staged(ts[2].path) == ts[0].path
    requires forall j | 0 <= j < 3 :: Staged(ts[3].path) != ts[j].path
    ensures After(files, Ops(ts)).Some?
    ensures var g := After(files, Ops(ts)).value; ts[0].path !in g && Holds(g, ts[2].path, ts[0].content)
  {
    assert Ops(ts)[..8] == Ops(ts);
    TwoRenames(files, ts);
    StagedNames(ts);
    assert AfterRenames(files, ts, 4) == After(files, Ops(ts)[..8]);
    hide After, Ops, Staged, AfterRenames;
    RenameMoves(files, ts, 2, Staged(ts[3].path));
    RenameMoves(files, ts, 3, ts[0].path);
    RenameMoves(files, ts, 3, ts[2].path);
  }

  lemma StagedNames(ts: seq<Target>)
    requires Distinct(ts)
    ensures forall i, j | 0 <= i < |ts| && 0 <= j < |ts| && i != j :: Staged(ts[i].path) != Staged(ts[j].path)
    ensures forall i | 0 <= i < |ts| :: Staged(ts[i].path) != ts[i].path
  {
    hide Staged;
    forall i, j | 0 <= i < |ts| && 0 <= j < |ts| && i != j
      ensures Staged(ts[i].path) != Staged(ts[j].path)
    {
      if Staged(ts[i].path) == Staged(ts[j].path) {
        StagedIsInjective(ts[i].path, ts[j].path);
      }
    }
    forall i | 0 <= i < |ts|
      ensures Staged(ts[i].path) != ts[i].path
    {
      StagedDiffers(ts[i].path);
    }
  }

  // ---------------------------------------------------------------- the catalogue loader

  /** A core pack and the geometry pack loaded with it. */
  datatype Generation = Generation(core: Content, geometry: Option<Content>)

  predicate ChecksumMatches(files: Files, path: string, hash: Hash) {
    path in files && Holds(files, ChecksumPath(path), Checksum(hash(files[path])))
  }

  /** The loader of the packs: every pack must match its checksum file, and the geometry pack
      must be bound to the digest of the core that is loaded with it. */
  function Load(files: Files, core: string, geometry: Option<string>, hash: Hash): Option<Generation> {
    if !ChecksumMatches(files, core, hash) || !files[core].Core? then None
    else if geometry.None? then Some(Generation(files[core], None))
    else if !ChecksumMatches(files, geometry.value, hash) || !files[geometry.value].Geometry? then None
    else if files[geometry.value].boundTo != Some(hash(files[core])) then None
    else Some(Generation(files[core], Some(files[geometry.value])))
  }

  ghost predicate Injective(hash: Hash) {
    forall a, b | hash(a) == hash(b) :: a == b
  }

  function NewGeneration(job: Job, hash: Hash): Generation {
    Generation(CoreFile(job), if job.geometryOutput.Some? then Some(GeometryFile(job, hash)) else None)
  }

  // ---------------------------------------------------------------- builds that crash, and the builds after them

  /** A build, the number of file operations it gets to perform, and what the write it stops in,
      if it stops in one, leaves of its file: anything at all. */
  datatype Run = Run(job: Job, budget: nat, torn: Option<Content>)

  function AfterRun(files: Files, run: Run, hash: Hash): Files {
    match Plan(run.job, hash)
    case None => files
    case Some(ops) => PerformAll(DiskState(files, run.budget, false, run.torn), ops).files
  }

  /** The disk after builds of which each may have crashed anywhere, or failed. */
  function AfterRuns(files: Files, runs: seq<Run>, hash: Hash): Files
    decreases |runs|
  {
    if runs == [] then files
    else AfterRun(AfterRuns(files, runs[..|runs| - 1], hash), runs[|runs| - 1], hash)
  }

  /** What a path held, or one of some new contents. */
  predicate HeldOrNew(g: Files, files: Files, contents: set<Content>, p: string)
    requires p in g
  {
    Holds(files, p, g[p]) || g[p] in contents
  }

  lemma StepsHold(files: Files, ts: seq<Target>, n: nat)
    requires Distinct(ts) && n <= |Ops(ts)| && After(files, Ops(ts)[..n]).Some?
    ensures var g := After(files, Ops(ts)[..n]).value; forall p <- g :: HeldOrNew(g, files, NewContents(ts), p)
  {
    assert ts[..|ts|] == ts;
    hide After, Ops, Staged, NewContents;
    CrashIsOldOrNew(files, ts, n, |ts|);
    forall p | p in After(files, Ops(ts)[..n]).value
      ensures HeldOrNew(After(files, Ops(ts)[..n]).value, files, NewContents(ts), p)
    {
      assert OldOrNew(After(files, Ops(ts)[..n]).value, files, ts, |ts|, p);
    }
  }

  lemma CoreOnlyHolds(job: Job, hash: Hash, files: Files, n: nat)
    requires n <= |CoreOnlyOps(job, hash)| && After(files, CoreOnlyOps(job, hash)[..n]).Some?
    ensures var g := After(files, CoreOnlyOps(job, hash)[..n]).value;
            forall p <- g :: HeldOrNew(g, files, NewContents(CoreTargets(job, hash)), p)
  {
    var ts := CoreTargets(job, hash);
    var first, second := Ops(ts[..1]), Ops(ts[1..]);
    assert NewContents(ts[..1]) <= NewContents(ts) && NewContents(ts[1..]) <= NewContents(ts);
    hide After, Ops, Staged, ChecksumPath, NewContents;
    if n <= |first| {
      assert CoreOnlyOps(job, hash)[..n] == first[..n];
      StepsHold(files, ts[..1], n);
    } else {
      var m := n - |first|;
      assert CoreOnlyOps(job, hash)[..n] == first + second[..m];
      assert first[..|first|] == first;
      AfterAppended(files, first, second[..m]);
      StepsHold(files, ts[..1], |first|);
      StepsHold(After(files, first).value, ts[1..], m);
    }
  }

  /** No file of the run can be torn under this name. */
  predicate IsWhole(run: Run, hash: Hash, p: string) {
    run.torn.Some? ==>
      var ts := Targets(run.job, hash); forall i | 0 <= i < |ts| :: Staged(ts[i].path) != p
  }

  lemma WritesAreStaged(job: Job, hash: Hash, n: nat)
    requires Plan(job, hash).Some? && n < |Plan(job, hash).value| && Plan(job, hash).value[n].Write?
    ensures var ts := Targets(job, hash);
            exists i :: 0 <= i < |ts| && Plan(job, hash).value[n].path == Staged(ts[i].path)
  {
    var ts := Targets(job, hash);
    hide Staged, ChecksumPath, Distinct;
    var i := if !IsCoreOnly(job) then n else if n == 0 then 0 else 1;
    assert Plan(job, hash).value[n].path == Staged(ts[i].path);
  }

  lemma RunHolds(files: Files, run: Run, hash: Hash, p: string)
    requires p in AfterRun(files, run, hash) && IsWhole(run, hash, p)
    ensures HeldOrNew(AfterRun(files, run, hash), files, NewContents(Targets(run.job, hash)), p)
  {
    var ts := Targets(run.job, hash);
    if Plan(run.job, hash).Some? {
      var ops := Plan(run.job, hash).value;
      hide PerformAll, Staged, ChecksumPath, NewContents;
      var n := StopsAtPrefix(DiskState(files, run.budget, false, run.torn), ops);
      PlanFits(run.job, hash);
      if n < |ops| && ops[n].Write? && run.torn.Some? {
        WritesAreStaged(run.job, hash, n);
        assert ops[n].path != p;
      }
      hide After, Ops, CoreTargets, Targets, CoreOnlyOps;
      if IsCoreOnly(run.job) {
        CoreOnlyHolds(run.job, hash, files, n);
      } else {
        StepsHold(files, ts, n);
      }
      assert HeldOrNew(After(files, ops[..n]).value, files, NewContents(ts), p);
    }
  }

  predicate IsNewOf(runs: seq<Run>, hash: Hash, c: Content) {
    exists k :: 0 <= k < |runs| && c in NewContents(Targets(runs[k].job, hash))
  }

  lemma IsNewGrows(runs: seq<Run>, run: Run, hash: Hash, c: Content)
    ensures IsNewOf(runs, hash, c) || c in NewContents(Targets(run.job, hash)) ==> IsNewOf(runs + [run], hash, c)
  {
    hide NewContents, Targets;
    var all := runs + [run];
    assert all[|runs|] == run;
    if IsNewOf(runs, hash, c) {
      var k :| 0 <= k < |runs| && c in NewContents(Targets(runs[k].job, hash));
      assert all[k] == runs[k];
    }
  }

  /** No file of any run can be torn under this name. */
  predicate AreWhole(runs: seq<Run>, hash: Hash, p: string) {
    forall k | 0 <= k < |runs| :: IsWhole(runs[k], hash, p)
  }

  /** After any runs, a path that is no staging name of a torn write holds what it held at first or
      the content of one of the builds. */
  lemma {:induction false} RunsHold(files: Files, runs: seq<Run>, hash: Hash, p: string)
    requires p in AfterRuns(files, runs, hash) && AreWhole(runs, hash, p)
    ensures var c := AfterRuns(files, runs, hash)[p]; Holds(files, p, c) || IsNewOf(runs, hash, c)
    decreases |runs|
  {
    if runs != [] {
      hide NewContents, Targets, AfterRun, IsNewOf, IsWhole;
      var front, last := runs[..|runs| - 1], runs[|runs| - 1];
      var before := AfterRuns(files, front, hash);
      RunHolds(before, last, hash, p);
      var c := AfterRuns(files, runs, hash)[p];
      assert front + [last] == runs;
      IsNewGrows(front, last, hash, c);
      if c !in NewContents(Targets(last.job, hash)) {
        RunsHold(files, front, hash, p);
      }
    }
  }

  /** The contents of the builds: each is a pack, a checksum or a manifest of one of them. */
  lemma NewOfRuns(runs: seq<Run>, hash: Hash, c: Content) returns (k: nat)
    requires IsNewOf(runs, hash, c)
    ensures k < |runs|
    ensures c.Core? ==> c == CoreFile(runs[k].job)
    ensures c.Geometry? ==> c == GeometryFile(runs[k].job, hash) && runs[k].job.geometryOutput.Some?
    ensures c.Checksum? ==> c.digest == hash(CoreFile(runs[k].job))
                            || (c.digest == hash(GeometryFile(runs[k].job, hash)) && runs[k].job.geometryOutput.Some?)
  {
    k :| 0 <= k < |runs| && c in NewContents(Targets(runs[k].job, hash));
    ContentsAre(runs[k].job, hash, c);
  }

  lemma ContentsAre(job: Job, hash: Hash, c: Content)
    requires c in NewContents(Targets(job, hash))
    ensures c.Core? ==> c == CoreFile(job)
    ensures c.Geometry? ==> c == GeometryFile(job, hash) && job.geometryOutput.Some?
    ensures c.Checksum? ==> c.digest == hash(CoreFile(job))
                            || (c.digest == hash(GeometryFile(job, hash)) && job.geometryOutput.Some?)
  {
    hide ChecksumPath;
    var ts := Targets(job, hash);
    TargetsAre(job, hash);
    var i :| 0 <= i < |ts| && ts[i].content == c;
    assert i == 0 || i == 1 || i == |ts| - 1 || i == 2 || i == 3;
  }

  lemma ChecksumsAreWhole(runs: seq<Run>, hash: Hash, p: string)
    ensures AreWhole(runs, hash, ChecksumPath(p))
  {
    hide Targets, ChecksumPath, Staged;
    forall k, i | 0 <= k < |runs| && 0 <= i < |Targets(runs[k].job, hash)|
      ensures Staged(Targets(runs[k].job, hash)[i].path) != ChecksumPath(p)
    {
      StagedIsNoChecksum(Targets(runs[k].job, hash)[i].path, p);
    }
  }

  /** Nothing that a torn write leaves can be read as this pack: it has another name than the
      staging files of builds that stop in the middle of one, or the disk had at first no checksum
      without its pack. */
  predicate Guarded(files: Files, runs: seq<Run>, hash: Hash, p: string) {
    AreWhole(runs, hash, p) || ChecksumPath(p) !in files || ChecksumMatches(files, p, hash)
  }

  /** A pack that matches its checksum file is the one that was there at first, with the checksum
      that was there at first, or the pack of one of the builds. */
  lemma MatchedPack(files: Files, runs: seq<Run>, hash: Hash, p: string) returns (k: nat)
    requires Injective(hash) && ChecksumMatches(AfterRuns(files, runs, hash), p, hash)
    requires Guarded(files, runs, hash, p)
    requires var c := AfterRuns(files, runs, hash)[p]; c.Core? || c.Geometry?
    ensures var c := AfterRuns(files, runs, hash)[p];
            || (Holds(files, p, c) && ChecksumMatches(files, p, hash))
            || (k < |runs| && c.Core? && c == CoreFile(runs[k].job))
            || (k < |runs| && c.Geometry? && c == GeometryFile(runs[k].job, hash) && runs[k].job.geometryOutput.Some?)
  {
    ChecksumsAreWhole(runs, hash, p);
    hide AfterRuns, IsNewOf, ChecksumPath, AreWhole;
    var g := AfterRuns(files, runs, hash);
    var c, sum := g[p], g[ChecksumPath(p)];
    RunsHold(files, runs, hash, ChecksumPath(p));
    k := 0;
    if IsNewOf(runs, hash, sum) {
      k := NewOfRuns(runs, hash, sum);
    } else if AreWhole(runs, hash, p) {
      RunsHold(files, runs, hash, p);
      if IsNewOf(runs, hash, c) {
        k := NewOfRuns(runs, hash, c);
      }
    }
  }

  predicate IsWholeRun(runs: seq<Run>, hash: Hash, core: string, geometry: Option<string>, found: Generation) {
    exists k :: 0 <= k < |runs| && found == LoadedFrom(runs[k].job, hash, geometry)
  }

  /** What the loader makes of the packs of a build. */
  function LoadedFrom(job: Job, hash: Hash, geometry: Option<string>): Generation {
    Generation(CoreFile(job), if geometry.None? then None else Some(GeometryFile(job, hash)))
  }

  /** The core of one of the builds with the geometry that was there at first, which was made for
      exactly that core. */
  predicate IsRebound(files: Files, runs: seq<Run>, hash: Hash, geometry: Option<string>, found: Generation) {
    && geometry.Some? && found.geometry.Some?
    && Holds(files, geometry.value, found.geometry.value) && ChecksumMatches(files, geometry.value, hash)
    && found.geometry.value.Geometry? && found.geometry.value.boundTo == Some(hash(found.core))
    && exists k :: 0 <= k < |runs| && found.core == CoreFile(runs[k].job)
  }

  predicate AreGuarded(files: Files, runs: seq<Run>, hash: Hash, core: string, geometry: Option<string>) {
    Guarded(files, runs, hash, core) && (geometry.Some? ==> Guarded(files, runs, hash, geometry.value))
  }

  /** After any sequence of builds that each crashed anywhere, also in the middle of a file, on any
      disk, also one that an earlier crash left unloadable, the loader finds nothing, what it would
      have found at first, both packs of one of the builds, or the core of a build with an old
      geometry pack that was bound to exactly that core.  Where no write is torn, or the first disk
      has no checksum without its pack, no condition on the names is needed. */
  lemma LoaderNeverMixes(files: Files, runs: seq<Run>, hash: Hash, core: string, geometry: Option<string>)
    requires Injective(hash) && AreGuarded(files, runs, hash, core, geometry)
    ensures var found := Load(AfterRuns(files, runs, hash), core, geometry, hash);
            || found == None
            || found == Load(files, core, geometry, hash)
            || IsWholeRun(runs, hash, core, geometry, found.value)
            || IsRebound(files, runs, hash, geometry, found.value)
  {
    var g := AfterRuns(files, runs, hash);
    hide AfterRuns, ChecksumPath, Guarded;
    if Load(g, core, geometry, hash).Some? {
      var i := MatchedPack(files, runs, hash, core);
      if geometry.Some? {
        var j := MatchedPack(files, runs, hash, geometry.value);
        if j < |runs| && g[geometry.value] == GeometryFile(runs[j].job, hash) {
          assert hash(g[core]) == hash(CoreFile(runs[j].job));
          assert Load(g, core, geometry, hash).value == LoadedFrom(runs[j].job, hash, geometry);
        }
      } else if i < |runs| && g[core] == CoreFile(runs[i].job) {
        assert Load(g, core, geometry, hash).value == LoadedFrom(runs[i].job, hash, geometry);
      }
    }
  }

  /** From a disk that loads, or that has neither pack nor a checksum that a torn file could match,
      no mixture is left: whatever crashed since, and wherever, the loader finds nothing, the first
      generation, or both packs of one build. */
  lemma CrashesNeverMix(files: Files, runs: seq<Run>, hash: Hash, core: string, geometry: Option<string>)
    requires Injective(hash)
    requires || Load(files, core, geometry, hash).Some?
             || (core !in files && (geometry.Some? ==> geometry.value !in files)
                 && AreGuarded(files, runs, hash, core, geometry))
    ensures var found := Load(AfterRuns(files, runs, hash), core, geometry, hash);
            || found == None
            || found == Load(files, core, geometry, hash)
            || IsWholeRun(runs, hash, core, geometry, found.value)
  {
    hide AfterRuns, ChecksumPath, AreWhole;
    LoaderNeverMixes(files, runs, hash, core, geometry);
  }

  /** However the disk was left, a build that then runs to its end makes it load that build. */
  lemma RecoveryLoads(files: Files, runs: seq<Run>, job: Job, budget: nat, torn: Option<Content>, hash: Hash)
    requires RepeatsNoPath(job) && StagingIsClear(job) && budget >= 10
    ensures var core := Core(job.core);
            Load(AfterRuns(files, runs + [Run(job, budget, torn)], hash), job.output, job.geometryOutput, hash)
            == Some(Generation(core, if job.geometryOutput.None? then None
                                     else Some(Geometry(job.geometry, Some(hash(core))))))
  {
    var all := runs + [Run(job, budget, torn)];
    assert all[..|all| - 1] == runs;
    var before := AfterRuns(files, runs, hash);
    BuildPublishesIff(job, hash, before, budget, torn);
    hide PerformAll, Plan, StagingIsClear, RepeatsNoPath;
    assert AfterRuns(files, all, hash) == AfterRun(before, Run(job, budget, torn), hash);
  }

  /** While the packs are being renamed the loader has nothing to load: it finds the old
      generation before the first rename, the new one after the fourth, neither between. */
  lemma LoadableExactlyOutsideTheRenames(job: Job, hash: Hash, files: Files, r: nat)
    requires Injective(hash) && job.geometryOutput.Some?
    requires var ts := Targets(job, hash); Distinct(ts) && NoClobber(ts) && r <= |ts|
    requires Load(files, job.output, job.geometryOutput, hash).Some?
    requires files[job.output] != CoreFile(job)
    requires forall i, j | 0 <= i < |Targets(job, hash)| && 0 <= j < 4 ::
               Staged(Targets(job, hash)[i].path) != Targets(job, hash)[j].path
    ensures var ts := Targets(job, hash);
            && AfterRenames(files, ts, r).Some?
            && Load(AfterRenames(files, ts, r).value, job.output, job.geometryOutput, hash)
               == if r == 0 then Load(files, job.output, job.geometryOutput, hash)
                  else if r < 4 then None
                  else Some(NewGeneration(job, hash))
  {
    var ts := Targets(job, hash);
    TargetsAre(job, hash);
    assert ts[0].path == job.output && ts[1].path == ChecksumPath(job.output)
           && ts[2].path == job.geometryOutput.value && ts[3].path == ChecksumPath(job.geometryOutput.value);
    hide After, Ops, Staged, ChecksumPath, Targets, AfterRenames;
    RenamesSucceed(files, ts, r);
    forall j | r <= j < 4
      ensures SameAt(AfterRenames(files, ts, r).value, files, ts[j].path)
    {
      NotYetRenamed(files, ts, j, r);
    }
  }

  predicate SameAt(g: Files, files: Files, p: string) {
    (p in g <==> p in files) && (p in g ==> g[p] == files[p])
  }

  /** A destination that is no staging name keeps its old content until its own rename. */
  lemma {:induction false} NotYetRenamed(files: Files, ts: seq<Target>, j: nat, r: nat)
    requires Distinct(ts) && r <= j < |ts| && AfterRenames(files, ts, r).Some?
    requires forall i | 0 <= i < |ts| :: Staged(ts[i].path) != ts[j].path
    ensures SameAt(AfterRenames(files, ts, r).value, files, ts[j].path)
  {
    hide Staged, After, Ops;
    if r == 0 {
      StagesLeaveOthers(files, ts, |ts|, ts[j].path);
    } else {
      NextRename(files, ts, r - 1);
      NotYetRenamed(files, ts, j, r - 1);
    }
  }

  lemma {:induction false} StagesLeaveOthers(files: Files, ts: seq<Target>, n: nat, p: string)
    requires n <= |ts| && forall i | 0 <= i < |ts| :: Staged(ts[i].path) != p
    ensures After(files, Ops(ts)[..n]).Some?
    ensures SameAt(After(files, Ops(ts)[..n]).value, files, p)
  {
    hide Staged;
    if n > 0 {
      StagesLeaveOthers(files, ts, n - 1, p);
      AfterPrefix(files, Ops(ts), n - 1);
    }
  }
}
