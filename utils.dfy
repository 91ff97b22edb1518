/** utils.py: the file-name sanitiser used for cover file names, and the
    choice of which cached covers to delete. */
module Utils {
  import opened Common

  /** How many cover images the cache keeps. */
  const CoverCacheSize: nat := 100

  /** The 24 characters `normalize_path` turns into spaces. */
  const Specials: string := "!@#$%*=+-[]{}:?<>,|/\\;~\""

  predicate IsSpecial(c: char) {
    c in Specials
  }

  /** The characters of `s` that are not whitespace, in order. */
  function Letters(s: string): string {
    if s == [] then [] else (if IsSpace(s[0]) then [] else [s[0]]) + Letters(s[1..])
  }

  /** The characters of `s` that are neither special nor whitespace, in
      order: what `normalize_path` must keep. */
  function Kept(s: string): (r: string)
    ensures forall k :: 0 <= k < |r| ==> !IsSpecial(r[k]) && !IsSpace(r[k])
  {
    if s == [] then []
    else (if IsSpecial(s[0]) || IsSpace(s[0]) then [] else [s[0]]) + Kept(s[1..])
  }

  // ---------------------------------------------------------------------
  // The three steps of normalize_path: translate, split, join.

  /** `value.translate(special_table)`: every special character becomes a
      space. */
  function Translate(s: string): string {
    if s == [] then [] else [if IsSpecial(s[0]) then ' ' else s[0]] + Translate(s[1..])
  }

  /** A word produced by `str.split()`: non-empty, without whitespace. */
  predicate IsWord(w: string) {
    w != [] && forall k :: 0 <= k < |w| ==> !IsSpace(w[k])
  }

  /** The longest prefix of `s` holding no whitespace. */
  function WordAt(s: string): (w: string)
    ensures |w| <= |s| && w == s[..|w|]
    ensures forall k :: 0 <= k < |w| ==> !IsSpace(w[k])
    ensures |w| < |s| ==> IsSpace(s[|w|])
  {
    if s == [] || IsSpace(s[0]) then [] else [s[0]] + WordAt(s[1..])
  }

  /** `str.split()` with no argument: the maximal runs of non-whitespace. */
  function Split(s: string): (ws: seq<string>)
    ensures forall i :: 0 <= i < |ws| ==> IsWord(ws[i])
    decreases |s|
  {
    if s == [] then []
    else if IsSpace(s[0]) then Split(s[1..])
    else
      var w := WordAt(s);
      [w] + Split(s[|w|..])
  }

  /** `" ".join(ws)`. */
  function Join(ws: seq<string>): string {
    if ws == [] then "" else if |ws| == 1 then ws[0] else ws[0] + " " + Join(ws[1..])
  }

  function Concat(ws: seq<string>): string {
    if ws == [] then "" else ws[0] + Concat(ws[1..])
  }

  /** The shape of a normalised name: no whitespace at either end, no
      whitespace other than the space, and never two spaces in a row. */
  predicate Tidy(s: string) {
    && (s != [] ==> !IsSpace(s[0]) && !IsSpace(s[|s| - 1]))
    && (forall k :: 0 <= k < |s| && IsSpace(s[k]) ==> s[k] == ' ')
    && (forall k :: 0 <= k < |s| - 1 ==> !(s[k] == ' ' && s[k + 1] == ' '))
  }

  predicate NoSpecials(s: string) {
    forall k :: 0 <= k < |s| ==> !IsSpecial(s[k])
  }

  /** utils.normalize_path: the result has none of the special characters,
      is tidy, keeps exactly the non-special, non-whitespace characters of
      the input in their original order, and has the same words as the
      input once the special characters are read as blanks. */
  function NormalizePath(value: string): (r: string)
    ensures NoSpecials(r)
    ensures Tidy(r)
    ensures Letters(r) == Kept(value)
    ensures Split(r) == Split(Translate(value))
  {
    var ws := Split(Translate(value));
    SplitJoin(ws);
    JoinTidy(ws);
    LettersJoin(ws);
    ConcatSplit(Translate(value));
    LettersTranslate(value);
    var r := Join(ws);
    forall k | 0 <= k < |r| ensures !IsSpecial(r[k]) {
      if !IsSpace(r[k]) {
        LettersHas(r, k);
      }
    }
    r
  }

  // ---------------------------------------------------------------------
  // Lemmas about the three steps.

  lemma {:induction false} LettersAppend(a: string, b: string)
    ensures Letters(a + b) == Letters(a) + Letters(b)
  {
    if a == [] {
      assert a + b == b;
    } else {
      assert (a + b)[1..] == a[1..] + b;
      LettersAppend(a[1..], b);
    }
  }

  lemma {:induction false} LettersOfWord(w: string)
    requires forall k :: 0 <= k < |w| ==> !IsSpace(w[k])
    ensures Letters(w) == w
  {
    if w != [] {
      LettersOfWord(w[1..]);
    }
  }

  /** A non-whitespace character of `s` is among its letters. */
  lemma {:induction false} LettersHas(s: string, k: nat)
    requires k < |s| && !IsSpace(s[k])
    ensures s[k] in Letters(s)
  {
    if k > 0 {
      LettersHas(s[1..], k - 1);
    }
  }

  /** Joining words with single spaces adds nothing but spaces. */
  lemma {:induction false} LettersJoin(ws: seq<string>)
    requires forall i :: 0 <= i < |ws| ==> IsWord(ws[i])
    ensures Letters(Join(ws)) == Concat(ws)
  {
    if ws == [] {
    } else if |ws| == 1 {
      LettersOfWord(ws[0]);
      assert Concat(ws[1..]) == "";
    } else {
      LettersJoin(ws[1..]);
      LettersOfWord(ws[0]);
      LettersAppend(ws[0] + " ", Join(ws[1..]));
      LettersAppend(ws[0], " ");
      assert Letters(" ") == [];
    }
  }

  /** Splitting keeps every non-whitespace character, in order. */
  lemma {:induction false} ConcatSplit(s: string)
    ensures Concat(Split(s)) == Letters(s)
    decreases |s|
  {
    if s == [] {
    } else if IsSpace(s[0]) {
      ConcatSplit(s[1..]);
    } else {
      var w := WordAt(s);
      assert s == w + s[|w|..];
      ConcatSplit(s[|w|..]);
      LettersAppend(w, s[|w|..]);
      LettersOfWord(w);
    }
  }

  lemma {:induction false} LettersTranslate(s: string)
    ensures Letters(Translate(s)) == Kept(s)
  {
    if s != [] {
      LettersTranslate(s[1..]);
      assert Translate(s) == [Translate(s)[0]] + Translate(s[1..]);
      LettersAppend([Translate(s)[0]], Translate(s[1..]));
    }
  }

  /** The join of words starts and ends with a word character. */
  lemma {:induction false} JoinEnds(ws: seq<string>)
    requires ws != [] && forall i :: 0 <= i < |ws| ==> IsWord(ws[i])
    ensures Join(ws) != []
    ensures !IsSpace(Join(ws)[0]) && !IsSpace(Join(ws)[|Join(ws)| - 1])
  {
    if |ws| > 1 {
      JoinEnds(ws[1..]);
    }
  }

  lemma {:induction false} JoinTidy(ws: seq<string>)
    requires forall i :: 0 <= i < |ws| ==> IsWord(ws[i])
    ensures Tidy(Join(ws))
  {
    if |ws| > 1 {
      JoinTidy(ws[1..]);
      JoinEnds(ws[1..]);
      JoinEnds(ws);
      var w, rest := ws[0], Join(ws[1..]);
      var r := Join(ws);
      assert r == w + " " + rest;
      forall k | 0 <= k < |r| && IsSpace(r[k]) ensures r[k] == ' ' {
        if k > |w| {
          assert r[k] == rest[k - |w| - 1];
        }
      }
      forall k | 0 <= k < |r| - 1 ensures !(r[k] == ' ' && r[k + 1] == ' ') {
        if k > |w| {
          assert r[k] == rest[k - |w| - 1] && r[k + 1] == rest[k - |w|];
        } else if k == |w| {
          assert r[k + 1] == rest[0];
        }
      }
    }
  }

  /** The word at the front of `w + t` is `w`, when `t` is empty or starts
      with whitespace. */
  lemma {:induction false} WordAtPrefix(w: string, t: string)
    requires forall k :: 0 <= k < |w| ==> !IsSpace(w[k])
    requires t == [] || IsSpace(t[0])
    ensures WordAt(w + t) == w
  {
    if w != [] {
      assert (w + t)[1..] == w[1..] + t;
      WordAtPrefix(w[1..], t);
    } else {
      assert w + t == t;
    }
  }

  /** Round trip: splitting the join of words gives the words back. */
  lemma {:induction false} SplitJoin(ws: seq<string>)
    requires forall i :: 0 <= i < |ws| ==> IsWord(ws[i])
    ensures Split(Join(ws)) == ws
  {
    if ws == [] {
    } else if |ws| == 1 {
      WordAtPrefix(ws[0], []);
      assert ws[0] + [] == ws[0];
      assert Join(ws)[|ws[0]|..] == [];
    } else {
      var w, rest := ws[0], Join(ws[1..]);
      var s := Join(ws);
      assert s == w + (" " + rest);
      WordAtPrefix(w, " " + rest);
      assert s[|w|..] == " " + rest;
      assert (" " + rest)[1..] == rest;
      SplitJoin(ws[1..]);
    }
  }

  lemma {:induction false} TranslateNoSpecials(s: string)
    requires NoSpecials(s)
    ensures Translate(s) == s
  {
    if s != [] {
      TranslateNoSpecials(s[1..]);
    }
  }

  /** normalize_path is idempotent: a normalised name is its own
      normalisation. */
  lemma NormalizePathIdempotent(value: string)
    ensures NormalizePath(NormalizePath(value)) == NormalizePath(value)
  {
    var ws := Split(Translate(value));
    var r := NormalizePath(value);
    assert r == Join(ws);
    TranslateNoSpecials(r);
    SplitJoin(ws);
  }

  // ---------------------------------------------------------------------
  // remove_old_covers: which covers are deleted.

  /** One cover file and the time since it was last read, in seconds. */
  datatype Cover = Cover(path: string, lifetime: real)

  /** Python 2 `int()` on a float: truncation toward zero. */
  function Trunc(x: real): int {
    if x >= 0.0 then x.Floor else -((-x).Floor)
  }

  /** The sort key of `lst.sort(lambda a, b: int(a[1]) - int(b[1]))`. */
  function Age(c: Cover): int {
    Trunc(c.lifetime)
  }

  predicate SortedByAge(s: seq<Cover>) {
    forall i, j :: 0 <= i < j < |s| ==> Age(s[i]) <= Age(s[j])
  }

  /** Inserts `c` before the first entry that is not younger than it, which
      keeps equal ages in their original order as Python's stable sort does. */
  function InsertByAge(c: Cover, s: seq<Cover>): (r: seq<Cover>)
    requires SortedByAge(s)
    ensures SortedByAge(r)
    ensures |r| == |s| + 1 && multiset(r) == multiset(s) + multiset{c}
  {
    if s == [] then [c]
    else if Age(c) <= Age(s[0]) then [c] + s
    else
      var t := InsertByAge(c, s[1..]);
      assert s == [s[0]] + s[1..];
      assert forall k :: 0 <= k < |t| ==> t[k] in multiset(s[1..]) + multiset{c};
      [s[0]] + t
  }

  /** The stable ascending sort by truncated age. */
  function SortByAge(s: seq<Cover>): (r: seq<Cover>)
    ensures SortedByAge(r)
    ensures |r| == |s| && multiset(r) == multiset(s)
  {
    if s == [] then []
    else
      assert s == [s[0]] + s[1..];
      InsertByAge(s[0], SortByAge(s[1..]))
  }

  function Paths(s: seq<Cover>): (r: seq<string>)
    ensures |r| == |s|
  {
    if s == [] then [] else [s[0].path] + Paths(s[1..])
  }

  /** The covers listed with how long ago each was read. */
  function Lifetimes(files: seq<(string, real)>, now: real): (r: seq<Cover>)
    ensures |r| == |files|
  {
    if files == [] then []
    else [Cover(files[0].0, now - files[0].1)] + Lifetimes(files[1..], now)
  }

  /** The covers past the first `CoverCacheSize` of the sorted list: the
      ones `remove_old_covers` deletes. */
  function Evicted(files: seq<(string, real)>, now: real): seq<Cover>
    requires |files| > CoverCacheSize
  {
    SortByAge(Lifetimes(files, now))[CoverCacheSize..]
  }

  /** utils.remove_old_covers, given the `*.jpg` files of the cover
      directory as (path, last access time) and the current time; returns
      the paths it unlinks, in the order it unlinks them. */
  method RemoveOldCovers(files: seq<(string, real)>, now: real) returns (removed: seq<string>)
    ensures |files| <= CoverCacheSize ==> removed == []
    ensures |files| > CoverCacheSize ==>
              |removed| == |files| - CoverCacheSize && removed == Paths(Evicted(files, now))
  {
    if |files| <= CoverCacheSize {
      return [];
    }
    var lst: seq<Cover> := [];
    for i := 0 to |files|
      invariant lst == Lifetimes(files[..i], now)
    {
      LifetimesSnoc(files[..i], files[i], now);
      assert files[..i + 1] == files[..i] + [files[i]];
      lst := lst + [Cover(files[i].0, now - files[i].1)];
    }
    assert files[..|files|] == files;
    assert |lst| == |files|;
    lst := SortByAge(lst);
    removed := [];
    for i := CoverCacheSize to |lst|
      invariant removed == Paths(lst[CoverCacheSize..i])
    {
      PathsSnoc(lst[CoverCacheSize..i], lst[i]);
      assert lst[CoverCacheSize..i + 1] == lst[CoverCacheSize..i] + [lst[i]];
      removed := removed + [lst[i].path];
    }
    assert lst[CoverCacheSize..|lst|] == lst[CoverCacheSize..];
  }

  lemma {:induction false} LifetimesSnoc(files: seq<(string, real)>, f: (string, real), now: real)
    ensures Lifetimes(files + [f], now) == Lifetimes(files, now) + [Cover(f.0, now - f.1)]
  {
    if files != [] {
      assert (files + [f])[1..] == files[1..] + [f];
      LifetimesSnoc(files[1..], f, now);
    }
  }

  lemma {:induction false} PathsSnoc(s: seq<Cover>, c: Cover)
    ensures Paths(s + [c]) == Paths(s) + [c.path]
  {
    if s != [] {
      assert (s + [c])[1..] == s[1..] + [c];
      PathsSnoc(s[1..], c);
    }
  }

  /** What the eviction keeps and deletes: every listed cover ends up on
      exactly one side, the `CoverCacheSize` kept covers are all at least as
      young (by truncated age) as every deleted one. */
  lemma EvictionKeepsYoungest(files: seq<(string, real)>, now: real)
    requires |files| > CoverCacheSize
    ensures var sorted := SortByAge(Lifetimes(files, now));
            && multiset(sorted[..CoverCacheSize]) + multiset(Evicted(files, now))
               == multiset(Lifetimes(files, now))
            && forall i, j :: 0 <= i < CoverCacheSize <= j < |sorted| ==>
                 Age(sorted[i]) <= Age(sorted[j])
  {
    var sorted := SortByAge(Lifetimes(files, now));
    assert sorted == sorted[..CoverCacheSize] + sorted[CoverCacheSize..];
  }
}
