// What the paths that rm builds lead to: the directory in which the entries of a folder are looked for,
// and the entry that each of their texts names there.
module Spelling {
  import opened Layout
  import opened Volume
  import opened Operations
  import opened Strings
  import opened Paths
  import opened Sweeping

  /* Names */

  // No entry has an empty name and an empty extension.
  ghost predicate Worded(v: Vol) {
    forall q :: q in v.chains && IsSlot(v, q) ==> Ent(v, q).name != ZERO_NAME || Ent(v, q).ext != ZERO_EXT
  }

  // The fields are texts followed by zeros, and what rm makes of them is one component that fits its buffer.
  predicate Neat(e: Entry) {
    && Pad(Unpad(e.name), 8) == e.name && Pad(Unpad(e.ext), 3) == e.ext
    && SLASH !in NameText(e) && |NameText(e)| < 12 && ExtEnds(e)
  }

  // The text that rm makes of the entry separates into the entry's fields again.
  predicate Spellable(e: Entry) {
    NameAndExt(NameText(e)) == Some((e.name, e.ext))
  }

  lemma {:induction false} UnpadFree(t: Text)
    ensures 0 !in Unpad(t)
  {
  }

  // What a text stands for, without its dots.
  lemma {:induction false} Separated(t: Text, name: Name, ext: Ext)
    requires NameAndExt(t) == Some((name, ext)) && 0 !in t
    ensures DOT !in Unpad(name) && DOT !in Unpad(ext)
    ensures Pad(Unpad(name), 8) == name && Pad(Unpad(ext), 3) == ext
    ensures |Unpad(name)| <= |t|
    ensures DOT !in t ==> |t| <= 8 && name == Pad(t, 8) && ext == ZERO_EXT && Unpad(name) == t
    ensures DOT in t ==> |Unpad(name)| < |t| && Unpad(name) == t[..|Unpad(name)|] && t[|Unpad(name)|] == DOT
  {
    hide Pad, SplitFrom, Unpad;
    var k := NextDelim(t, DOT, 0);
    SplitStep(t, DOT);
    var parts := Split(t, DOT);
    JoinOfSplit(t, DOT, 0);
    var x := if |parts| > 1 then parts[1] else [];
    assert parts[0] in parts && (|parts| > 1 ==> parts[1] in parts);
    TokensFreeOf(t);
    UnpadPad(parts[0], 8);
    UnpadPad(x, 3);
    if k == |t| {
      assert parts == [t];
      PadNothing();
    }
  }

  lemma PadNothing()
    ensures Pad([], 3) == ZERO_EXT && Pad([], 8) == ZERO_NAME
  {
  }

  lemma TokensFreeOf(t: Text)
    requires 0 !in t
    ensures forall p :: p in Split(t, DOT) ==> 0 !in p
  {
    TokensFree(t, DOT, 0);
  }

  lemma {:induction false} TokensFree(s: Text, delim: Byte, i: nat)
    requires 0 !in s && i <= |s|
    ensures forall t :: t in SplitFrom(s, delim, i) ==> 0 !in t
    decreases |s| - i
  {
    var k := NextDelim(s, delim, i);
    if k < |s| {
      TokensFree(s, delim, k + 1);
    }
  }

  // A folder is spelled by its name exactly when that has no dot, a file when its name has none and leaves
  // room for the end of the text, or has no extension.
  lemma SpellableExact(e: Entry)
    requires Neat(e) && (IsDir(e) ==> e.ext == ZERO_EXT)
    ensures IsDir(e) ==> (Spellable(e) <==> DOT !in Unpad(e.name))
    ensures !IsDir(e) ==>
      (Spellable(e) <==> DOT !in Unpad(e.name) && DOT !in Unpad(e.ext) && (|Unpad(e.name)| < 8 || Unpad(e.ext) == []))
  {
    hide NameAndExt, Pad, Unpad;
    var t, n, x := NameText(e), Unpad(e.name), Unpad(e.ext);
    if Spellable(e) {
      Separated(t, e.name, e.ext);
      RunsOn(n, x);
    }
    if IsDir(e) {
      if DOT !in n {
        SeparateText(n, []);
      }
    } else if DOT !in n && DOT !in x && (|n| < 8 || x == []) {
      assert t == n + [DOT] + x;
      SeparateText(n, x);
    }
  }

  lemma RunsOn(n: Text, x: Text)
    ensures x != [] && DOT !in x ==> (n + x + [DOT] + x)[|n|] != DOT
  {
    if x != [] {
      assert (n + x + [DOT] + x)[|n|] == x[0] && x[0] in x;
    }
  }

  // A name with or without an extension.
  lemma SeparateText(n: Text, x: Text)
    requires DOT !in n && DOT !in x && |n| <= 8 && |x| <= 3
    ensures NameAndExt(n + [DOT] + x) == Some((Pad(n, 8), Pad(x, 3)))
    ensures NameAndExt(n) == Some((Pad(n, 8), ZERO_EXT))
  {
    hide Pad, Split;
    SplitCons(n, x, DOT);
    SplitOne(x, DOT);
    SplitOne(n, DOT);
    PadNothing();
  }

  // Whatever the text of an entry names is itself spelled by its text.
  lemma TextsNameSpelled(e: Entry, f: Entry)
    requires Neat(e) && (IsDir(e) ==> e.ext == ZERO_EXT) && (IsDir(f) ==> f.ext == ZERO_EXT)
    requires NameAndExt(NameText(e)) == Some((f.name, f.ext))
    ensures Spellable(f)
  {
    hide NameAndExt, Pad, Unpad;
    var t, n, x := NameText(e), Unpad(f.name), Unpad(f.ext);
    Separated(t, f.name, f.ext);
    PadNothing();
    SeparateText(n, x);
    assert n + [] + [DOT] + x == n + [DOT] + x;
    if !IsDir(f) && |n| == 8 {
      LongName(e, f.name, f.ext);
      SeparateText(n, []);
      assert n + [] + [DOT] + [] == n + [DOT] + [];
    }
  }

  // A name of eight characters comes without an extension.
  lemma {:induction false} LongName(e: Entry, name: Name, ext: Ext)
    requires Neat(e) && (IsDir(e) ==> e.ext == ZERO_EXT)
    requires NameAndExt(NameText(e)) == Some((name, ext)) && |Unpad(name)| == 8
    ensures Unpad(ext) == [] && ext == ZERO_EXT
  {
    hide NameAndExt, Pad, Unpad;
    var t, m, y := NameText(e), Unpad(e.name), Unpad(e.ext);
    Separated(t, name, ext);
    UnpadZero();
    PadNothing();
    if DOT in t && !IsDir(e) {
      DotComesFirst(m, y);
      assert |m| == 8 && t[8] == DOT;
      assert |y| <= 1;
      if y == [] {
        assert t == m + [DOT] + [] && m == t[..8];
        SeparateText(m, []);
      } else {
        assert y == [DOT] && t == m + [DOT] + [DOT, DOT] && m == t[..8];
        TwoDots(m);
      }
    }
  }

  lemma UpIsNameless()
    ensures NameAndExt([DOT, DOT]) == Some((ZERO_NAME, ZERO_EXT))
  {
    hide Split, Pad;
    assert [DOT, DOT] == [] + [DOT] + [DOT];
    assert [DOT] == [] + [DOT] + [];
    SplitCons([], [DOT], DOT);
    SplitCons([], [], DOT);
    PadNothing();
  }

  lemma DotComesFirst(m: Text, y: Text)
    ensures forall k :: |m| < k <= |m| + 1 + |y| ==> DOT in (m + [DOT] + y)[..k]
    ensures m + [] + [DOT] + y == m + [DOT] + y
  {
    forall k | |m| < k <= |m| + 1 + |y|
      ensures DOT in (m + [DOT] + y)[..k]
    {
      assert (m + [DOT] + y)[..k][|m|] == DOT;
    }
  }

  lemma UnpadZero()
    ensures Unpad(ZERO_EXT) == [] && Unpad(ZERO_NAME) == []
  {
  }

  lemma TwoDots(m: Text)
    requires DOT !in m && |m| <= 8
    ensures NameAndExt(m + [DOT] + [DOT, DOT]) == Some((Pad(m, 8), ZERO_EXT))
  {
    hide Split, Pad;
    SplitCons(m, [DOT, DOT], DOT);
    assert [DOT, DOT] == [] + [DOT] + [DOT];
    SplitCons([], [DOT], DOT);
    PadNothing();
  }
}
