// What rm removes: the path of every entry is spelled and resolved anew, in a tree from which part is
// gone, so which slots go depends on what each path still leads to.
module Sweeping {
  import opened Layout
  import opened Volume
  import opened Pruning
  import opened Strings
  import opened Paths
  import opened Clearing
  import opened Walking

  const PATH_ROOM := 50

  /* Spelling a name in a path */

  // What rm appends to the path for an entry. Copying a name of eight characters runs on into the extension.
  function NameText(e: Entry): Text {
    if IsDir(e) then Unpad(e.name)
    else Unpad(e.name) + (if |Unpad(e.name)| == 8 then Unpad(e.ext) else []) + [DOT] + Unpad(e.ext)
  }

  function Spelled(src: Text, e: Entry): (r: Text)
    ensures |r| == |src| + 1 + |NameText(e)|
  {
    src + [SLASH] + NameText(e)
  }

  function Parts(src: Text): (ts: seq<Text>)
    ensures |ts| > 0
  {
    Split(src, SLASH)
  }

  function Last(src: Text): Text {
    Parts(src)[|Parts(src)| - 1]
  }

  // The room that is left for the path.
  function Slack(src: Text): nat {
    if |src| < PATH_ROOM then PATH_ROOM - |src| else 0
  }

  /* Deleting what has been chosen */

  ghost predicate EntriesGone(v: Vol, k: nat, gone: set<Slot>) {
    forall j :: 1 <= j < TABLE_SIZE && Slot(k, j) in v.chains ==> Slot(k, j) in gone
  }

  // The folder is empty, and its flag says that it is not.
  ghost predicate Stuck(v: Vol, s: Slot) {
    && IsSlot(v, s) && IsDir(Ent(v, s)) && Ent(v, s).cluster in v.tabs
    && !HasLive(v.tabs[Ent(v, s).cluster]) && v.tabs[Ent(v, s).cluster][0].userAttribute == UATTR_NOT_EMPTY
  }

  // If there is something in the folder, its flag says so.
  ghost predicate FlagSound(v: Vol, s: Slot) {
    IsSlot(v, s) && IsDir(Ent(v, s)) && Ent(v, s).cluster in v.tabs && HasLive(v.tabs[Ent(v, s).cluster]) ==>
      v.tabs[Ent(v, s).cluster][0].userAttribute == UATTR_NOT_EMPTY
  }

  // The flag of the folder says that something is left in it.
  ghost predicate Occupied(v: Vol, s: Slot, gone: set<Slot>)
    requires IsSlot(v, s)
  {
    !EntriesGone(v, Ent(v, s).cluster, gone) || Stuck(v, s)
  }

  // What is gone after the delete of a name: the first file or folder that has it, unless that is a folder
  // with something left in it.
  ghost function Dropped(v: Vol, s: Slot, gone: set<Slot>): set<Slot>
    requires IsSlot(v, s)
  {
    var i := Found(v, s, gone);
    if i == TABLE_SIZE || (IsDir(v.tabs[s.dir][i]) && Occupied(v, Slot(s.dir, i), gone)) then gone
    else gone + {Slot(s.dir, i)}
  }

  /* What is gone after rm */

  lemma SlotsAreThere(v: Vol, q: Slot)
    requires Tree(v)
    ensures q in v.chains <==> IsSlot(v, q) && Live(Ent(v, q))
  {
    hide Tree;
    LiveSlot(v, q);
  }

  ghost function After(v: Vol, st: seq<Frame>, src: Text, gone: set<Slot>, recursive: bool, root: bool): set<Slot>
    requires Tree(v) && |st| > 0
    decreases Slack(src), TABLE_SIZE + 2
  {
    var p := Picked(v, st, Parts(src), gone, root);
    if p.None? then gone
    else
      SlotsAreThere(v, p.value);
      if IsDir(Ent(v, p.value)) && !recursive && Occupied(v, p.value, gone) then gone
      else Swept(v, st, src, gone, p.value)
  }

  // ... once the recursive rm has chosen `s`.
  ghost function Swept(v: Vol, st: seq<Frame>, src: Text, gone: set<Slot>, s: Slot): set<Slot>
    requires Tree(v) && |st| > 0 && s in v.chains
    decreases Slack(src), TABLE_SIZE + 1
  {
    SlotsAreThere(v, s);
    Dropped(v, s, if IsDir(Ent(v, s)) then SweptBefore(v, st, src, gone, s, TABLE_SIZE) else gone)
  }

  // ... when the loop over the entries of the folder comes to entry `i`. The entries are those that were
  // there before the loop, whatever their paths name now.
  ghost function SweptBefore(v: Vol, st: seq<Frame>, src: Text, gone: set<Slot>, s: Slot, i: nat): set<Slot>
    requires Tree(v) && |st| > 0 && s in v.chains && IsSlot(v, s) && IsDir(Ent(v, s)) && i <= TABLE_SIZE
    decreases Slack(src), i
  {
    if i <= 1 then gone
    else
      var g, q := SweptBefore(v, st, src, gone, s, i - 1), Slot(Ent(v, s).cluster, i - 1);
      SlotsAreThere(v, q);
      if q in v.chains && q !in gone && |Spelled(src, Ent(v, q))| < PATH_ROOM
      then After(v, st, Spelled(src, Ent(v, q)), g, true, false) else g
  }

  /* What rm asks for */

  // The characters of a full extension are followed by the attribute, which is zero in a file.
  predicate ExtEnds(e: Entry) {
    !IsDir(e) && |Unpad(e.ext)| == 3 ==> e.attribute == 0
  }

  // Every call on the way finds room for its path and its last component, starts in a directory that is
  // there, and chooses no folder whose flag hides what is in it.
  ghost predicate RmReady(v: Vol, st: seq<Frame>, src: Text, gone: set<Slot>, recursive: bool, root: bool)
    requires Tree(v) && |st| > 0
    decreases Slack(src), TABLE_SIZE + 2
  {
    && 0 !in src && |src| < PATH_ROOM && |Parts(src)| <= 12
    && Grounded(v, st, Parts(src)) && StartStays(v, st, Parts(src), gone)
    && var leaf := Walk(v, st, Parts(src), gone).leaf;
    && (leaf.Some? ==> |leaf.value| < 12)
    && var p := Picked(v, st, Parts(src), gone, root);
    (p.Some? ==>
      && FlagSound(v, p.value)
      && (SlotsAreThere(v, p.value);
          IsDir(Ent(v, p.value)) && recursive && Occupied(v, p.value, gone) ==>
            && EntriesReady(v, st, src, gone, p.value, TABLE_SIZE)
            && !DirGone(v, p.value.dir, SweptBefore(v, st, src, gone, p.value, TABLE_SIZE))))
  }

  ghost predicate EntriesReady(v: Vol, st: seq<Frame>, src: Text, gone: set<Slot>, s: Slot, i: nat)
    requires Tree(v) && |st| > 0 && s in v.chains && IsSlot(v, s) && IsDir(Ent(v, s)) && i <= TABLE_SIZE
    decreases Slack(src), i
  {
    i <= 1 ||
    (EntriesReady(v, st, src, gone, s, i - 1) &&
     var g, q := SweptBefore(v, st, src, gone, s, i - 1), Slot(Ent(v, s).cluster, i - 1);
     (SlotsAreThere(v, q);
      q in v.chains && q !in gone ==>
        && ExtEnds(Ent(v, q)) && |src| < |Spelled(src, Ent(v, q))| < PATH_ROOM
        && RmReady(v, st, Spelled(src, Ent(v, q)), g, true, false)))
  }
}
