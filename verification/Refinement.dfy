// Runs with renames and moves, too, are runs of the abstract file system.
module Refinement {
  import opened Layout
  import opened Volume
  import opened Pruning
  import opened Disks
  import opened Operations
  import opened Deleting
  import opened Reading
  import opened Runs
  import opened Simulation
  import opened Renaming
  import opened Moving
  import opened FatDriver
  import opened Relinking
  import opened Histories

  // One folder has another name, or another directory.
  ghost function Rebound(a: Fs, g: FolderName, h: FolderName): Fs
    requires g in a.folders
  {
    a.(folders := (a.folders - {g})[h := a.folders[g]])
  }

  ghost predicate AbstractCall(a: Fs, b: Fs, c: Call, code: int) {
    match c
    case Basic(op) => AbstractStep(a, b, op, code)
    case Rename(req, newName, now) =>
      && AbstractStep(a, a, Op.ReadFolder(req, now), code)
      && (if code == 0 then FolderTakes(a, req) && b == Rebound(a, FolderOf(req), FolderName(req.parent, newName))
          else b == a)
    case Move(req, q, now) =>
      && AbstractStep(a, a, Op.ReadFolder(req, now), code)
      && (if code == 0 then FolderTakes(a, req) && b == Rebound(a, FolderOf(req), FolderName(q, req.name))
          else b == a)
  }

  // What the call returns.
  ghost function Returned(d: Disk, v: Vol, c: Call): int
    requires Tree(v) && Permitted(d, v, c)
  {
    if c.Basic? then CallCode(d, v, c.op) else CallCode(d, v, Op.ReadFolder(c.req, c.now))
  }

  // The flag of a folder that is to be deleted is right, and no folder is moved into itself.
  ghost predicate Candid(d: Disk, v: Vol, c: Call)
    requires Tree(v) && Permitted(d, v, c)
  {
    if c.Basic? then c.op.Delete? ==> FlagTells(v, c.op.req) else !Swallows(d, v, c)
  }

  /* One call */

  // The read that comes first.
  lemma LookSimulates(d: Disk, v: Vol, req: Request, now: Stamp)
    requires Rep(d, v) && Tree(v) && Allowed(d, v, Op.ReadFolder(req, now))
    ensures var e, w, op := DiskAfterRead(d, v, req, now), AfterRead(d, v, req, now), Op.ReadFolder(req, now);
      && Rep(e, w) && Tree(w) && View(e, w) == View(d, v)
      && AbstractStep(View(d, v), View(d, v), op, CallCode(d, v, op))
      && (CallCode(d, v, op) == 0 <==> Opens(d, v, req, now))
      && (Opens(d, v, req, now) ==> FolderTakes(View(d, v), req))
  {
    hide Rep, Tree, StepDisk, StepVol, View, Allowed, Refused, ReadFolderCode;
    StepKeeps(d, v, Op.ReadFolder(req, now), FileName(0, ZERO_NAME, ZERO_EXT));
    StepSimulates(d, v, Op.ReadFolder(req, now));
  }

  // A tree in which one folder is bound elsewhere, and no content has changed.
  lemma ReboundView(d: Disk, v: Vol, e: Disk, w: Vol, s: Slot, h: FolderName)
    requires Tree(v) && Tree(w) && IsFolder(v, s)
    requires forall f :: FileAt(e, w, f) == FileAt(d, v, f)
    requires
      (forall c, n :: FolderAt(w, c, n) ==
         if c == h.dir && n == h.name then Some(Ent(v, s).cluster)
         else if c == s.dir && n == Ent(v, s).name then None
         else FolderAt(v, c, n))
    ensures FolderName(s.dir, Ent(v, s).name) in View(d, v).folders
    ensures View(e, w) == Rebound(View(d, v), FolderName(s.dir, Ent(v, s).name), h)
  {
    hide Tree, FileAt, FolderAt;
    LiveSlot(v, s);
    OnlyFolder(v, s.dir, s.index);
    var g, a, b := FolderName(s.dir, Ent(v, s).name), View(d, v), View(e, w);
    assert b.files == a.files;
    forall x: FolderName
      ensures x in b.folders <==> x == h || (x in a.folders && x != g)
      ensures x in b.folders ==> b.folders[x] == if x == h then a.folders[g] else a.folders[x]
    {
      assert FolderAt(w, x.dir, x.name) ==
        if x == h then Some(Ent(v, s).cluster) else if x == g then None else FolderAt(v, x.dir, x.name);
    }
    assert b.folders == (a.folders - {g})[h := a.folders[g]];
  }

  lemma RenameSimulates(d: Disk, v: Vol, req: Request, newName: Name, now: Stamp)
    requires Rep(d, v) && Tree(v) && Formatted(d) && Permitted(d, v, Rename(req, newName, now))
    ensures var c := Rename(req, newName, now);
      var (e, w) := Outcome(d, v, c);
      Tree(w) && AbstractCall(View(d, v), View(e, w), c, Returned(d, v, c))
  {
    hide Rep, Tree, StepDisk, StepVol, View, Allowed, Opens, MayRename, RenameWrites, Renamed, AbstractStep, CallCode;
    hide FileAt, FolderAt;
    LookKeeps(d, v, req, now, FileName(0, ZERO_NAME, ZERO_EXT));
    LookSimulates(d, v, req, now);
    if Opens(d, v, req, now) {
      var e, w := DiskAfterRead(d, v, req, now), AfterRead(d, v, req, now);
      OpenedSlot(d, v, req, now);
      RenameOutcome(e, w, req, newName, now);
      RenameNames(e, w, req, newName, now);
      var (b, u) := Outcome(d, v, Rename(req, newName, now));
      ReboundView(e, w, b, u, FolderSlotOf(w, req), FolderName(req.parent, newName));
    }
  }

  lemma MoveSimulates(d: Disk, v: Vol, req: Request, q: nat, now: Stamp)
    requires Rep(d, v) && Tree(v) && Formatted(d) && Permitted(d, v, Move(req, q, now))
    requires !Swallows(d, v, Move(req, q, now))
    ensures var c := Move(req, q, now);
      var (e, w) := Outcome(d, v, c);
      Tree(w) && AbstractCall(View(d, v), View(e, w), c, Returned(d, v, c))
  {
    hide Rep, Tree, StepDisk, StepVol, View, Allowed, Opens, MayMove, MoveWrites, Moved, AbstractStep, CallCode;
    hide FileAt, FolderAt, MovesInside, TargetFits;
    LookKeeps(d, v, req, now, FileName(0, ZERO_NAME, ZERO_EXT));
    LookSimulates(d, v, req, now);
    if Opens(d, v, req, now) {
      var e, w := DiskAfterRead(d, v, req, now), AfterRead(d, v, req, now);
      OpenedSlot(d, v, req, now);
      MoveOutcome(e, w, req, q, now);
      MoveNames(e, w, req, q, now);
      var (b, u) := Outcome(d, v, Move(req, q, now));
      ReboundView(e, w, b, u, FolderSlotOf(w, req), FolderName(q, req.name));
    }
  }

  lemma CallSimulates(d: Disk, v: Vol, c: Call)
    requires Rep(d, v) && Tree(v) && Formatted(d) && Permitted(d, v, c) && Candid(d, v, c)
    ensures var (e, w) := Outcome(d, v, c);
      Tree(w) && AbstractCall(View(d, v), View(e, w), c, Returned(d, v, c))
  {
    hide Rep, Tree, StepDisk, StepVol, View, Allowed, Opens, AbstractStep, CallCode, Swallows, FlagTells;
    match c
    case Basic(op) =>
      StepSimulates(d, v, op);
    case Rename(req, newName, now) =>
      RenameSimulates(d, v, req, newName, now);
    case Move(req, q, now) =>
      MoveSimulates(d, v, req, q, now);
  }

  /* Runs */

  ghost predicate CandidRun(d: Disk, v: Vol, calls: seq<Call>)
    requires Rep(d, v) && Tree(v) && Formatted(d) && PermittedRun(d, v, calls)
    decreases |calls|
  {
    calls == [] ||
    (Candid(d, v, calls[0]) &&
     (CallKeeps(d, v, calls[0], FileName(0, ZERO_NAME, ZERO_EXT));
      CandidRun(Outcome(d, v, calls[0]).0, Outcome(d, v, calls[0]).1, calls[1..])))
  }

  ghost function AllReturned(d: Disk, v: Vol, calls: seq<Call>): (codes: seq<int>)
    requires Rep(d, v) && Tree(v) && Formatted(d) && PermittedRun(d, v, calls)
    decreases |calls|
  {
    if calls == [] then []
    else
      CallKeeps(d, v, calls[0], FileName(0, ZERO_NAME, ZERO_EXT));
      [Returned(d, v, calls[0])] + AllReturned(Outcome(d, v, calls[0]).0, Outcome(d, v, calls[0]).1, calls[1..])
  }

  ghost predicate AbstractHistory(a: Fs, b: Fs, calls: seq<Call>, codes: seq<int>)
    decreases |calls|
  {
    if calls == [] then codes == [] && a == b
    else
      && codes != []
      && exists m :: AbstractCall(a, m, calls[0], codes[0]) && AbstractHistory(m, b, calls[1..], codes[1..])
  }

  // Every run with renames and moves is a run of the abstract file system with the same codes, as long as
  // the deletes meet right flags and no folder is moved into itself.
  lemma {:induction false} HistorySimulates(d: Disk, v: Vol, calls: seq<Call>)
    requires Rep(d, v) && Tree(v) && Formatted(d) && PermittedRun(d, v, calls) && CandidRun(d, v, calls)
    ensures var (e, w) := History(d, v, calls);
      AbstractHistory(View(d, v), View(e, w), calls, AllReturned(d, v, calls))
    decreases |calls|
  {
    hide Rep, Tree, Formatted, Permitted, Outcome, View, AbstractCall, Returned, Candid;
    if calls != [] {
      var c := calls[0];
      CallKeeps(d, v, c, FileName(0, ZERO_NAME, ZERO_EXT));
      CallSimulates(d, v, c);
      var (e, w) := Outcome(d, v, c);
      HistorySimulates(e, w, calls[1..]);
      var codes := AllReturned(d, v, calls);
      assert codes[1..] == AllReturned(e, w, calls[1..]);
      assert AbstractCall(View(d, v), View(e, w), c, codes[0]);
    }
  }

  // ... as they do without moves.
  lemma {:induction false} CandidWithoutMoves(d: Disk, v: Vol, calls: seq<Call>)
    requires Rep(d, v) && Inv(v) && Tree(v) && Formatted(d) && PermittedRun(d, v, calls)
    requires forall i :: 0 <= i < |calls| ==> !calls[i].Move?
    ensures CandidRun(d, v, calls)
    decreases |calls|
  {
    hide Rep, Inv, Tree, Formatted, Permitted, Outcome, FlagTells;
    if calls != [] {
      var c := calls[0];
      CallKeeps(d, v, c, FileName(0, ZERO_NAME, ZERO_EXT));
      if c.Basic? {
        FlagsTell(v, c.op.req);
      }
      assert forall i :: 1 <= i < |calls| ==> calls[i] == calls[1..][i - 1];
      CandidWithoutMoves(Outcome(d, v, c).0, Outcome(d, v, c).1, calls[1..]);
    }
  }
}
