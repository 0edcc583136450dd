// Longer runs: the calls of Runs, with folders renamed and moved in between. What stays of the invariant
// is the tree; the flags may go wrong, and with them what a delete lets through.
module Histories {
  import opened Layout
  import opened Volume
  import opened Pruning
  import opened Disks
  import opened Operations
  import opened Runs
  import opened Renaming
  import opened Moving
  import opened MoveOutcomes
  import opened FatDriver
  import opened Calls
  import opened Relinking

  datatype Call =
    | Basic(op: Op)
    | Rename(req: Request, newName: Name, now: Stamp)
    | Move(req: Request, target: nat, now: Stamp)

  // A rename or a move finds the folder first under its name. The new name is free; the target has room,
  // and it has no other folder of the name or lies in the folder.
  ghost predicate Permitted(d: Disk, v: Vol, c: Call)
    requires Tree(v)
  {
    match c
    case Basic(op) => Allowed(d, v, op)
    case Rename(req, newName, now) =>
      && Allowed(d, v, Op.ReadFolder(req, now))
      && (Opens(d, v, req, now) ==>
            Finds(AfterRead(d, v, req, now), req) && MayRename(AfterRead(d, v, req, now), req, newName))
    case Move(req, q, now) =>
      && Allowed(d, v, Op.ReadFolder(req, now))
      && (Opens(d, v, req, now) ==>
            var w := AfterRead(d, v, req, now);
            Finds(w, req) && TargetFits(w, req, q) && (MayMove(w, req, q) || MovesInside(w, req, q)))
  }

  // What a call makes of the disk and of the tree.
  ghost function Outcome(d: Disk, v: Vol, c: Call): (Disk, Vol)
    requires Tree(v) && Permitted(d, v, c)
  {
    match c
    case Basic(op) => (StepDisk(d, v, op), StepVol(d, v, op))
    case Rename(req, newName, now) =>
      var e, w := DiskAfterRead(d, v, req, now), AfterRead(d, v, req, now);
      if Opens(d, v, req, now) then
        (Apply(e, RenameWrites(w, req, newName, now)), Renamed(w, FolderSlotOf(w, req), newName, now))
      else (e, w)
    case Move(req, q, now) =>
      var e, w := DiskAfterRead(d, v, req, now), AfterRead(d, v, req, now);
      if Opens(d, v, req, now) then
        (TargetThere(w, req, q);
         (Apply(e, MoveWrites(w, req, q, now)),
          if MovesInside(w, req, q) then Detached(w, FolderSlotOf(w, req)) else Moved(w, FolderSlotOf(w, req), q, now)))
      else (e, w)
  }

  // A folder is moved into itself.
  ghost predicate Swallows(d: Disk, v: Vol, c: Call)
    requires Tree(v) && Permitted(d, v, c)
  {
    c.Move? && Opens(d, v, c.req, c.now) && MovesInside(AfterRead(d, v, c.req, c.now), c.req, c.target)
  }

  // The calls that lose what hangs from a folder, and with it the clusters: a delete of a folder whose flag
  // is wrong, and a move of a folder into itself.
  ghost predicate Loses(d: Disk, v: Vol, c: Call)
    requires Tree(v) && Permitted(d, v, c)
  {
    if c.Basic? then Orphans(d, v, c.op) else Swallows(d, v, c)
  }

  ghost predicate LosesBelow(d: Disk, v: Vol, c: Call, dir: nat)
    requires Tree(v) && Permitted(d, v, c)
  {
    if c.Basic? then LosesDir(d, v, c.op, dir)
    else Swallows(d, v, c) && HangsFrom(v, FolderSlotOf(v, c.req), dir)
  }

  // Every call keeps the tree, leaves the boot cluster alone, and keeps every file it does not concern; a
  // rename concerns none, a move none but those that go down with their folder. Calls that lose nothing
  // leak nothing, and all but a move keep the whole invariant.
  lemma CallKeeps(d: Disk, v: Vol, c: Call, f: FileName)
    requires Rep(d, v) && Tree(v) && Formatted(d) && Permitted(d, v, c)
    ensures var (e, w) := Outcome(d, v, c);
      && Rep(e, w) && Tree(w) && Formatted(e)
      && (Inv(v) && !c.Move? ==> Inv(w) && !Loses(d, v, c))
      && (NoLeak(v) && !Loses(d, v, c) ==> NoLeak(w))
      && (!(c.Basic? && Concerns(c.op, f)) && !LosesBelow(d, v, c, f.dir) ==> FileAt(e, w, f) == FileAt(d, v, f))
  {
    hide Rep, Inv, Tree, StepDisk, StepVol, NoLeak, FileAt, Allowed, Opens, MayRename, RenameWrites, Concerns, Orphans;
    match c
    case Basic(op) =>
      StepKeeps(d, v, op, f);
      StepKeepsBoot(d, v, op);
    case Rename(req, newName, now) =>
      RenameKeeps(d, v, req, newName, now, f);
    case Move(req, q, now) =>
      MoveKeeps(d, v, req, q, now, f);
  }

  // The read that comes first.
  lemma LookKeeps(d: Disk, v: Vol, req: Request, now: Stamp, f: FileName)
    requires Rep(d, v) && Tree(v) && Formatted(d) && Allowed(d, v, Op.ReadFolder(req, now))
    ensures var e, w := DiskAfterRead(d, v, req, now), AfterRead(d, v, req, now);
      && Rep(e, w) && Tree(w) && Formatted(e) && (Inv(v) ==> Inv(w)) && (NoLeak(v) ==> NoLeak(w))
      && FileAt(e, w, f) == FileAt(d, v, f)
  {
    hide Rep, Inv, Tree, StepDisk, StepVol, NoLeak, FileAt, Allowed;
    StepKeeps(d, v, Op.ReadFolder(req, now), f);
    StepKeepsBoot(d, v, Op.ReadFolder(req, now));
  }

  lemma RenameKeeps(d: Disk, v: Vol, req: Request, newName: Name, now: Stamp, f: FileName)
    requires Rep(d, v) && Tree(v) && Formatted(d) && Permitted(d, v, Rename(req, newName, now))
    ensures var (e, w) := Outcome(d, v, Rename(req, newName, now));
      && Rep(e, w) && Tree(w) && (Inv(v) ==> Inv(w)) && (NoLeak(v) ==> NoLeak(w)) && Formatted(e)
      && FileAt(e, w, f) == FileAt(d, v, f)
  {
    hide Rep, Inv, StepDisk, StepVol, NoLeak, FileAt, Allowed, Opens, MayRename, RenameWrites, Renamed, Tree;
    LookKeeps(d, v, req, now, f);
    if Opens(d, v, req, now) {
      var e, w := DiskAfterRead(d, v, req, now), AfterRead(d, v, req, now);
      RenameOutcome(e, w, req, newName, now);
      RenameNames(e, w, req, newName, now);
    }
  }

  lemma MoveKeeps(d: Disk, v: Vol, req: Request, q: nat, now: Stamp, f: FileName)
    requires Rep(d, v) && Tree(v) && Formatted(d) && Permitted(d, v, Move(req, q, now))
    ensures var c := Move(req, q, now);
      var (e, w) := Outcome(d, v, c);
      && Rep(e, w) && Tree(w) && Formatted(e)
      && (NoLeak(v) && !Loses(d, v, c) ==> NoLeak(w))
      && (!LosesBelow(d, v, c, f.dir) ==> FileAt(e, w, f) == FileAt(d, v, f))
  {
    hide Rep, Inv, StepDisk, StepVol, NoLeak, FileAt, Allowed, Opens, MayMove, MoveWrites, Moved, Tree, Detached;
    hide HangsFrom, MovesInside;
    LookKeeps(d, v, req, now, f);
    if Opens(d, v, req, now) {
      var e, w := DiskAfterRead(d, v, req, now), AfterRead(d, v, req, now);
      if MovesInside(w, req, q) {
        InsideOutcome(e, w, req, q, now);
        SwallowedDirs(d, v, req, now, f.dir);
      } else {
        MoveOutcome(e, w, req, q, now);
        MoveNames(e, w, req, q, now);
        MovedLeaksNothing(w, req, q, now);
      }
    }
  }

  lemma MovedLeaksNothing(v: Vol, req: Request, q: nat, now: Stamp)
    requires MayMove(v, req, q)
    ensures NoLeak(v) ==> NoLeak(Moved(v, FolderSlotOf(v, req), q, now))
  {
    hide Tree, First, Under, NewDepth, FolderAt;
    var s := FolderSlotOf(v, req);
    var k := Ent(v, s).cluster;
    MovedIs(v, s, q, now);
    MovedKeepsTree(v, Moved(v, s, q, now), s, Slot(q, First(TargetTable(v, s, q), Dead)),
      MovedEntry(v.tabs[k][0], k, now), k);
  }

  // What hangs from the folder is the same before and after the read.
  lemma SwallowedDirs(d: Disk, v: Vol, req: Request, now: Stamp, c: nat)
    requires Rep(d, v) && Tree(v) && Allowed(d, v, Op.ReadFolder(req, now)) && Opens(d, v, req, now)
    ensures var w := AfterRead(d, v, req, now);
      Tree(w) && (HangsFrom(w, FolderSlotOf(w, req), c) <==> HangsFrom(v, FolderSlotOf(v, req), c))
  {
    hide Rep, Tree, StepVol, StepDisk, Allowed, Opens, First, Under;
    OpenedSlot(d, v, req, now);
    if c in v.tabs {
      StillUnder(v, AfterRead(d, v, req, now), Ent(v, FolderSlotOf(v, req)).cluster, c);
    }
  }

  // Whether a move is permitted can be seen before the read.
  lemma {:induction false} MovePermitted(d: Disk, v: Vol, req: Request, q: nat, now: Stamp)
    requires Rep(d, v) && Tree(v) && Allowed(d, v, Op.ReadFolder(req, now)) && Opens(d, v, req, now)
    requires TargetFits(v, req, q) && First(v.tabs[req.parent], Named(req.name)) == FolderSlotOf(v, req).index
    requires Under(v, Ent(v, FolderSlotOf(v, req)).cluster, q) || FreeIn(v, FolderSlotOf(v, req), q)
    ensures Permitted(d, v, Move(req, q, now))
    ensures Swallows(d, v, Move(req, q, now)) <==> Under(v, Ent(v, FolderSlotOf(v, req)).cluster, q)
  {
    hide Rep, Tree, StepVol, StepDisk, Allowed, Opens, First, Under, FolderAt;
    OpenedSlot(d, v, req, now);
    var e, w, s := DiskAfterRead(d, v, req, now), AfterRead(d, v, req, now), FolderSlotOf(v, req);
    SameFolders(v, w, q, Ent(v, s).name);
    SameTreeFinds(v, w, q, Dead);
    StillUnder(v, w, Ent(v, s).cluster, q);
    FolderRange(e, w, req);
  }

  /* Runs */

  ghost predicate PermittedRun(d: Disk, v: Vol, calls: seq<Call>)
    requires Rep(d, v) && Tree(v) && Formatted(d)
    decreases |calls|
  {
    calls == [] ||
    (Permitted(d, v, calls[0]) &&
     (CallKeeps(d, v, calls[0], FileName(0, ZERO_NAME, ZERO_EXT));
      PermittedRun(Outcome(d, v, calls[0]).0, Outcome(d, v, calls[0]).1, calls[1..])))
  }

  ghost function History(d: Disk, v: Vol, calls: seq<Call>): (r: (Disk, Vol))
    requires Rep(d, v) && Tree(v) && Formatted(d) && PermittedRun(d, v, calls)
    ensures Rep(r.0, r.1) && Tree(r.1) && Formatted(r.0)
    decreases |calls|
  {
    if calls == [] then (d, v)
    else
      CallKeeps(d, v, calls[0], FileName(0, ZERO_NAME, ZERO_EXT));
      History(Outcome(d, v, calls[0]).0, Outcome(d, v, calls[0]).1, calls[1..])
  }

  // No call of the run loses anything that hangs from a folder.
  ghost predicate LosesNothing(d: Disk, v: Vol, calls: seq<Call>)
    requires Rep(d, v) && Tree(v) && Formatted(d) && PermittedRun(d, v, calls)
    decreases |calls|
  {
    calls == [] ||
    (!Loses(d, v, calls[0]) &&
     (CallKeeps(d, v, calls[0], FileName(0, ZERO_NAME, ZERO_EXT));
      LosesNothing(Outcome(d, v, calls[0]).0, Outcome(d, v, calls[0]).1, calls[1..])))
  }

  // No call of the run deletes the name, or loses a folder above it.
  ghost predicate Spares(d: Disk, v: Vol, calls: seq<Call>, f: FileName)
    requires Rep(d, v) && Tree(v) && Formatted(d) && PermittedRun(d, v, calls)
    decreases |calls|
  {
    calls == [] ||
    (!Deletes(calls[0], f) && !LosesBelow(d, v, calls[0], f.dir) &&
     (CallKeeps(d, v, calls[0], f);
      Spares(Outcome(d, v, calls[0]).0, Outcome(d, v, calls[0]).1, calls[1..], f)))
  }

  // Every run, whatever it renames and moves, ends in a tree, and a file keeps its bytes until its name is
  // deleted or a folder above it is lost. A run that loses nothing leaks nothing.
  lemma {:induction false} HistoryKeeps(d: Disk, v: Vol, calls: seq<Call>, f: FileName)
    requires Rep(d, v) && Tree(v) && Formatted(d) && PermittedRun(d, v, calls)
    ensures var (e, w) := History(d, v, calls);
      && Rep(e, w) && Tree(w)
      && (NoLeak(v) && LosesNothing(d, v, calls) ==> NoLeak(w))
      && (FileAt(d, v, f).Some? && Spares(d, v, calls, f) ==> FileAt(e, w, f) == FileAt(d, v, f))
    decreases |calls|
  {
    hide Rep, Tree, Permitted, Outcome, NoLeak, FileAt, Formatted, Loses, LosesBelow, Deletes;
    if calls != [] {
      var c := calls[0];
      CallKeeps(d, v, c, f);
      HistoryKeeps(Outcome(d, v, c).0, Outcome(d, v, c).1, calls[1..], f);
      if FileAt(d, v, f).Some? && Spares(d, v, calls, f) {
        BoundKept(d, v, c, f);
      }
    }
  }

  // Without moves the whole invariant stays, and nothing is lost but by deleting its name.
  lemma {:induction false} HistoryKeepsInv(d: Disk, v: Vol, calls: seq<Call>, f: FileName)
    requires Rep(d, v) && Inv(v) && Tree(v) && Formatted(d) && PermittedRun(d, v, calls)
    requires forall i :: 0 <= i < |calls| ==> !calls[i].Move?
    ensures Inv(History(d, v, calls).1) && LosesNothing(d, v, calls)
    ensures Spares(d, v, calls, f) <==> forall i :: 0 <= i < |calls| ==> !Deletes(calls[i], f)
    decreases |calls|
  {
    hide Rep, Inv, Tree, Permitted, Outcome, FileAt, Formatted, Deletes, Orphans, Opens, NoLeak;
    if calls != [] {
      var c := calls[0];
      CallKeeps(d, v, c, f);
      var (e, w) := Outcome(d, v, c);
      HistoryKeepsInv(e, w, calls[1..], f);
      assert forall i :: 1 <= i < |calls| ==> calls[i] == calls[1..][i - 1];
    }
  }

  predicate Deletes(c: Call, f: FileName) {
    c.Basic? && c.op.Delete? && Concerns(c.op, f)
  }

  lemma BoundKept(d: Disk, v: Vol, c: Call, f: FileName)
    requires Rep(d, v) && Tree(v) && Formatted(d) && Permitted(d, v, c) && FileAt(d, v, f).Some?
    requires !Deletes(c, f) && !LosesBelow(d, v, c, f.dir)
    ensures var (e, w) := Outcome(d, v, c); Tree(w) && FileAt(e, w, f) == FileAt(d, v, f)
  {
    hide Rep, Tree, StepDisk, StepVol, FileAt, Allowed, Opens, MayRename, RenameWrites, Renamed, HangsFrom, IsLeaf;
    hide Moved, Detached, MoveWrites;
    CallKeeps(d, v, c, f);
    if c.Basic? {
      BoundStays(d, v, c.op, f);
    }
  }
}
