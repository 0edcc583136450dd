// Splitting C strings in place: strtok with its hidden position, strparse and separate_filename.
module Strings {
  import opened Layout
  import opened Operations

  type Text = seq<Byte>

  const SLASH: Byte := 47
  const DOT: Byte := 46

  /* Splitting and joining */

  // The index of the first delimiter at or after `i`, or the length.
  function NextDelim(s: Text, delim: Byte, i: nat): (k: nat)
    requires i <= |s|
    ensures i <= k <= |s|
    ensures k < |s| ==> s[k] == delim
    ensures forall j :: i <= j < k ==> s[j] != delim
    decreases |s| - i
  {
    if i == |s| || s[i] == delim then i else NextDelim(s, delim, i + 1)
  }

  // The tokens of the text from position `i` on, empty ones included.
  function SplitFrom(s: Text, delim: Byte, i: nat): (ts: seq<Text>)
    requires i <= |s|
    ensures |ts| > 0
    decreases |s| - i
  {
    var k := NextDelim(s, delim, i);
    if k == |s| then [s[i..]] else [s[i..k]] + SplitFrom(s, delim, k + 1)
  }

  function Split(s: Text, delim: Byte): (ts: seq<Text>)
    ensures |ts| > 0
  {
    SplitFrom(s, delim, 0)
  }

  function Join(ts: seq<Text>, delim: Byte): Text {
    if |ts| == 0 then []
    else if |ts| == 1 then ts[0]
    else ts[0] + [delim] + Join(ts[1..], delim)
  }

  // Joining the tokens with the delimiter gives back the text, and no token contains it.
  lemma {:induction false} JoinOfSplit(s: Text, delim: Byte, i: nat)
    requires i <= |s|
    ensures Join(SplitFrom(s, delim, i), delim) == s[i..]
    ensures forall t :: t in SplitFrom(s, delim, i) ==> delim !in t
    decreases |s| - i
  {
    var k := NextDelim(s, delim, i);
    if k < |s| {
      JoinOfSplit(s, delim, k + 1);
      var rest := SplitFrom(s, delim, k + 1);
      assert SplitFrom(s, delim, i) == [s[i..k]] + rest;
      hide SplitFrom;
      JoinCons(s[i..k], rest, delim);
      assert s[i..] == s[i..k] + [delim] + s[k + 1..];
    }
  }

  lemma {:induction false} JoinCons(t: Text, ts: seq<Text>, delim: Byte)
    requires |ts| > 0
    ensures Join([t] + ts, delim) == t + [delim] + Join(ts, delim)
  {
    assert ([t] + ts)[1..] == ts;
  }

  lemma {:induction false} NextDelimIs(s: Text, delim: Byte, i: nat, k: nat)
    requires i <= k <= |s| && (k < |s| ==> s[k] == delim)
    requires forall j :: i <= j < k ==> s[j] != delim
    ensures NextDelim(s, delim, i) == k
  {
  }

  lemma {:induction false} SplitShift(s: Text, r: Text, delim: Byte, i: nat)
    requires i <= |r|
    ensures SplitFrom(s + r, delim, |s| + i) == SplitFrom(r, delim, i)
    decreases |r| - i
  {
    var k := NextDelim(r, delim, i);
    NextDelimIs(s + r, delim, |s| + i, |s| + k);
    assert (s + r)[|s| + i..|s| + k] == r[i..k];
    if k < |r| {
      SplitShift(s, r, delim, k + 1);
    } else {
      assert (s + r)[|s| + i..] == r[i..];
    }
  }

  lemma SplitCons(t: Text, r: Text, delim: Byte)
    requires delim !in t
    ensures Split(t + [delim] + r, delim) == [t] + Split(r, delim)
  {
    var s := t + [delim] + r;
    NextDelimIs(s, delim, 0, |t|);
    assert s[0..|t|] == t;
    SplitShift(t + [delim], r, delim, 0);
  }

  // Splitting what was joined gives back the tokens.
  lemma {:induction false} SplitOfJoin(ts: seq<Text>, delim: Byte)
    requires |ts| > 0 && forall t :: t in ts ==> delim !in t
    ensures Split(Join(ts, delim), delim) == ts
  {
    assert ts[0] in ts;
    if |ts| == 1 {
      NextDelimIs(ts[0], delim, 0, |ts[0]|);
    } else {
      hide Split;
      SplitOfJoin(ts[1..], delim);
      SplitCons(ts[0], Join(ts[1..], delim), delim);
    }
  }

  lemma {:induction false} JoinAppend(ts: seq<Text>, t: Text, delim: Byte)
    requires |ts| > 0
    ensures Join(ts + [t], delim) == Join(ts, delim) + [delim] + t
  {
    if |ts| > 1 {
      JoinAppend(ts[1..], t, delim);
      assert (ts + [t])[1..] == ts[1..] + [t];
    } else {
      assert (ts + [t])[1..] == [t];
    }
  }

  // A component appended to a path is one more token.
  lemma SplitAppend(s: Text, t: Text, delim: Byte)
    requires delim !in t
    ensures Split(s + [delim] + t, delim) == Split(s, delim) + [t]
  {
    hide SplitFrom, Join;
    JoinOfSplit(s, delim, 0);
    assert s[0..] == s;
    JoinAppend(Split(s, delim), t, delim);
    SplitOfJoin(Split(s, delim) + [t], delim);
  }

  /* strtok */

  // A C string held in an array: everything before the first zero.
  ghost predicate Terminated(a: array<Byte>)
    reads a
  {
    a.Length > 0 && a[a.Length - 1] == 0
  }

  // The characters from position `p` up to the first zero.
  function CString(s: Text, p: nat): (t: Text)
    requires p < |s| && s[|s| - 1] == 0
    ensures p + |t| < |s| && t == s[p..p + |t|] && s[p + |t|] == 0 && 0 !in t
    decreases |s| - p
  {
    if s[p] == 0 then [] else [s[p]] + CString(s, p + 1)
  }

  class Tokenizer {
    // The text being cut up, and where the next token starts.
    var text: array<Byte>
    var nextToken: Option<nat>

    constructor ()
      ensures nextToken == None
    {
      text := new Byte[1](_ => 0);
      nextToken := None;
    }

    // Start a new text.
    method Start(s: array<Byte>)
      modifies this
      ensures text == s && nextToken == Some(0)
    {
      text := s;
      nextToken := Some(0);
    }

    // Cut off the next token: its end is overwritten by a zero.
    method Next(delim: Byte) returns (token: Option<nat>)
      requires nextToken.Some? ==> nextToken.value < text.Length && Terminated(text)
      requires delim != 0
      modifies this`nextToken, text
      ensures old(nextToken).None? ==> token == None && nextToken == None && text[..] == old(text[..])
      ensures old(nextToken).Some? ==>
        var p := old(nextToken).value;
        var rest := old(CString(text[..], p));
        var k := NextDelim(rest, delim, 0);
        && token == Some(p)
        && (if k < |rest| then nextToken == Some(p + k + 1) && text[..] == old(text[..])[p + k := 0]
            else nextToken == None && text[..] == old(text[..]))
    {
      if nextToken.None? {
        return None;
      }
      var start := nextToken.value;
      var p := start;
      ghost var rest := CString(text[..], start);
      while text[p] != 0
        invariant start <= p <= start + |rest|
        invariant forall j :: 0 <= j < p - start ==> rest[j] != delim
        decreases text.Length - p
      {
        if text[p] == delim {
          NextDelimIs(rest, delim, 0, p - start);
          text[p] := 0;
          nextToken := Some(p + 1);
          return Some(start);
        }
        p := p + 1;
      }
      assert p == start + |rest|;
      NextDelimIs(rest, delim, 0, |rest|);
      nextToken := None;
      token := Some(start);
    }
  }

  lemma {:induction false} CStringIs(s: Text, p: nat, t: Text)
    requires p + |t| < |s| && s[|s| - 1] == 0
    requires t == s[p..p + |t|] && 0 !in t && s[p + |t|] == 0
    ensures CString(s, p) == t
    decreases |t|
  {
    if |t| > 0 {
      assert s[p] == t[0];
      CStringIs(s, p + 1, t[1..]);
    }
  }

  // What one cut leaves: the token in front, the rest of the text behind.
  lemma CutText(s: Text, u: Text, p: nat, k: nat)
    requires p < |s| && s[|s| - 1] == 0 && k < |CString(s, p)| && u == s[p + k := 0]
    ensures CString(u, p) == CString(s, p)[..k]
    ensures CString(u, p + k + 1) == CString(s, p)[k + 1..]
  {
    var t := CString(s, p);
    CStringIs(u, p, t[..k]);
    CStringIs(u, p + k + 1, t[k + 1..]);
  }

  lemma {:induction false} SplitStep(t: Text, delim: Byte)
    ensures var k := NextDelim(t, delim, 0);
      Split(t, delim) == if k < |t| then [t[..k]] + Split(t[k + 1..], delim) else [t]
  {
    var k := NextDelim(t, delim, 0);
    if k < |t| {
      SplitShift(t[..k + 1], t[k + 1..], delim, 0);
      assert t == t[..k + 1] + t[k + 1..];
    }
  }

  /* strparse and separate_filename */

  // The tokens still to come.
  ghost function Remaining(text: Text, next: Option<nat>, delim: Byte): seq<Text>
    requires next.Some? ==> next.value < |text| && text[|text| - 1] == 0
  {
    if next.None? then [] else Split(CString(text, next.value), delim)
  }

  // The next token as a string of its own.
  method NextText(tokenizer: Tokenizer, delim: Byte) returns (token: Option<Text>)
    requires tokenizer.nextToken.Some? ==>
      tokenizer.nextToken.value < tokenizer.text.Length && Terminated(tokenizer.text)
    requires delim != 0
    modifies tokenizer`nextToken, tokenizer.text
    ensures tokenizer.nextToken.Some? ==>
      tokenizer.nextToken.value < tokenizer.text.Length && Terminated(tokenizer.text)
    ensures var before := old(Remaining(tokenizer.text[..], tokenizer.nextToken, delim));
      var after := Remaining(tokenizer.text[..], tokenizer.nextToken, delim);
      if before == [] then token == None && after == []
      else token == Some(before[0]) && after == before[1..]
  {
    hide Split, CString, NextDelim, SplitFrom;
    if tokenizer.nextToken.None? {
      return None;
    }
    ghost var s, p := tokenizer.text[..], tokenizer.nextToken.value;
    ghost var rest := CString(s, p);
    ghost var k := NextDelim(rest, delim, 0);
    SplitStep(rest, delim);
    var at := tokenizer.Next(delim);
    if k < |rest| {
      CutText(s, tokenizer.text[..], p, k);
    }
    token := Some(CString(tokenizer.text[..], at.value));
  }

  lemma {:induction false} RemainingStart(s: Text, delim: Byte)
    requires |s| > 0 && s[|s| - 1] == 0
    ensures Remaining(s, Some(0), delim) == Split(CString(s, 0), delim)
  {
  }

  // Cut a text into its tokens. The caller provides room for 12 tokens of at most 127 characters.
  method Strparse(tokenizer: Tokenizer, str: array<Byte>, delim: Byte) returns (tokens: seq<Text>)
    requires Terminated(str) && delim != 0
    requires var ts := Split(CString(str[..], 0), delim); |ts| <= 12 && forall t :: t in ts ==> |t| < 128
    modifies tokenizer, str
    ensures tokens == Split(old(CString(str[..], 0)), delim)
  {
    hide Split, CString, Remaining, NextDelim, SplitFrom;
    RemainingStart(str[..], delim);
    ghost var all := Split(CString(str[..], 0), delim);
    tokens := [];
    var i := 0;
    tokenizer.Start(str);
    var token := NextText(tokenizer, delim);
    while token.Some? && i < 128
      invariant tokenizer.text == str
      invariant tokenizer.nextToken.Some? ==> tokenizer.nextToken.value < str.Length && Terminated(str)
      invariant i == |tokens|
      invariant all == tokens + (if token.Some? then [token.value] else [])
        + Remaining(str[..], tokenizer.nextToken, delim)
      invariant token.None? ==> Remaining(str[..], tokenizer.nextToken, delim) == []
      decreases |all| - i
    {
      tokens := tokens + [token.value];
      i := i + 1;
      token := NextText(tokenizer, delim);
    }
  }

  // A string in a cell of `n` bytes, padded with zeros or cut off.
  function Pad(t: Text, n: nat): (r: Text)
    ensures |r| == n
  {
    if |t| >= n then t[..n] else t + seq(n - |t|, _ => 0)
  }

  // What a file name stands for: the parts before and after its first dot, if they fit.
  function NameAndExt(fileName: Text): (r: Option<(Name, Ext)>) {
    var parts := Split(fileName, DOT);
    var ext := if |parts| > 1 then parts[1] else [];
    if |parts[0]| > 8 || |ext| > 3 then None else Some((Pad(parts[0], 8), Pad(ext, 3)))
  }

  // Position `i` is that of the first dot, and `j` that of the next one; the length stands for none.
  predicate DotsAt(s: Text, i: nat, j: nat) {
    && i <= j <= |s| && (forall k :: 0 <= k < i ==> s[k] != 46)
    && (if i < |s| then s[i] == 46 && i < j && (j < |s| ==> s[j] == 46) && forall k :: i < k < j ==> s[k] != 46
        else j == i)
  }

  // Which texts separate: at most 8 characters up to the first dot, and at most 3 from there to the next
  // dot or the end. The fields are those characters followed by zeros; what is behind a second dot is
  // not looked at.
  lemma SeparatesExact(s: Text, i: nat, j: nat)
    requires DotsAt(s, i, j)
    ensures NameAndExt(s).Some? <==> i <= 8 && j <= i + 4
    ensures NameAndExt(s).Some? ==>
      && (forall k :: 0 <= k < 8 ==> NameAndExt(s).value.0[k] == if k < i then s[k] else 0)
      && (forall k :: 0 <= k < 3 ==> NameAndExt(s).value.1[k] == if i + 1 + k < j then s[i + 1 + k] else 0)
  {
    hide Split, NextDelim;
    NextDelimIs(s, DOT, 0, i);
    SplitStep(s, DOT);
    if i < |s| {
      var rest := s[i + 1..];
      NextDelimIs(rest, DOT, 0, j - i - 1);
      SplitStep(rest, DOT);
      assert rest[..j - i - 1] == s[i + 1..j];
      assert j == |s| ==> rest == s[i + 1..j];
      assert Split(s, DOT)[1] == s[i + 1..j];
    }
  }

  // Returns 0 and the two padded parts, or 3 and leaves them alone.
  method SeparateFilename(tokenizer: Tokenizer, fileName: array<Byte>, name: array<Byte>, ext: array<Byte>)
    returns (code: int)
    requires Terminated(fileName) && name.Length == 8 && ext.Length == 3
    requires name != ext && name != fileName && ext != fileName
    modifies tokenizer, fileName, name, ext
    ensures var r := old(NameAndExt(CString(fileName[..], 0)));
      if r.Some? then code == 0 && name[..] == r.value.0 && ext[..] == r.value.1
      else code == 3 && name[..] == old(name[..]) && ext[..] == old(ext[..])
    ensures var s := old(CString(fileName[..], 0));
      forall i, j :: DotsAt(s, i, j) ==> (code == 0 <==> i <= 8 && j <= i + 4)
  {
    hide Split, CString;
    ghost var s := CString(fileName[..], 0);
    forall i, j | DotsAt(s, i, j)
      ensures NameAndExt(s).Some? <==> i <= 8 && j <= i + 4
    {
      SeparatesExact(s, i, j);
    }
    tokenizer.Start(fileName);
    var first := NextText(tokenizer, DOT);
    var second := NextText(tokenizer, DOT);
    var newName := first.value;
    var newExt := if second.Some? then second.value else [];
    if |newName| > 8 || |newExt| > 3 {
      return 3;
    }
    var n, e := Pad(newName, 8), Pad(newExt, 3);
    forall k | 0 <= k < 8 {
      name[k] := n[k];
    }
    forall k | 0 <= k < 3 {
      ext[k] := e[k];
    }
    assert name[..] == n && ext[..] == e;
    code := 0;
  }

  // The name of a padded field: everything before the first zero.
  function Unpad(t: Text): (r: Text)
    ensures |r| <= |t| && 0 !in r
  {
    if |t| == 0 || t[0] == 0 then [] else [t[0]] + Unpad(t[1..])
  }

  // A name and an extension as they appear in an entry: characters, then zeros.
  predicate Printable(name: Text) {
    DOT !in name && Pad(Unpad(name), |name|) == name
  }

  // The name that is printed for a file, `name.ext`, separates into the same two fields.
  lemma {:induction false} SeparateInverts(name: Name, ext: Ext)
    requires Printable(name) && Printable(ext)
    ensures NameAndExt(Unpad(name) + [DOT] + Unpad(ext)) == Some((name, ext))
  {
    hide Split, Pad;
    UnpadSubset(name);
    UnpadSubset(ext);
    SplitCons(Unpad(name), Unpad(ext), DOT);
    SplitOne(Unpad(ext), DOT);
  }

  // A folder's name has no dot and separates into itself and no extension.
  lemma {:induction false} SeparateFolder(name: Name)
    requires Printable(name)
    ensures NameAndExt(Unpad(name)) == Some((name, ZERO_EXT))
  {
    UnpadSubset(name);
    SplitOne(Unpad(name), DOT);
    assert Pad([], 3) == ZERO_EXT;
  }

  lemma SplitOne(t: Text, delim: Byte)
    requires delim !in t
    ensures Split(t, delim) == [t]
  {
    NextDelimIs(t, delim, 0, |t|);
  }

  lemma {:induction false} UnpadSubset(t: Text)
    ensures forall c :: c in Unpad(t) ==> c in t
  {
    if |t| > 0 && t[0] != 0 {
      UnpadSubset(t[1..]);
    }
  }
}
