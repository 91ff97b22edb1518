/** Small shared vocabulary: an optional value, and the handful of Python 2
    string operations the plugin relies on (whitespace test, `strip`,
    `lower`, substring search). Strings are byte strings in the source; here
    they are `seq<char>` and only ASCII behaviour is modelled. */
module Common {

  datatype Option<T> = None | Some(value: T)

  /** Python 2 `str.isspace` for one byte: space, tab, newline, vertical tab,
      form feed, carriage return. */
  predicate IsSpace(c: char) {
    c == ' ' || c == '\t' || c == '\n' || c == '\U{000B}' || c == '\U{000C}' || c == '\r'
  }

  /** Truthiness of an optional string, as in `if self.session_id`: `None`
      and `""` are both false. */
  predicate Truthy(o: Option<string>) {
    o.Some? && o.value != ""
  }

  /** `s` with its leading whitespace removed. */
  function TrimLeft(s: string): (r: string)
    ensures |r| <= |s|
    ensures r != [] ==> !IsSpace(r[0])
  {
    if s != [] && IsSpace(s[0]) then TrimLeft(s[1..]) else s
  }

  /** `s` with its trailing whitespace removed. */
  function TrimRight(s: string): (r: string)
    ensures |r| <= |s|
    ensures r != [] ==> !IsSpace(r[|r| - 1])
  {
    if s != [] && IsSpace(s[|s| - 1]) then TrimRight(s[..|s| - 1]) else s
  }

  /** Python `str.strip()`. */
  function Strip(s: string): string {
    TrimRight(TrimLeft(s))
  }

  /** `TrimLeft` cuts whitespace off the front and nothing else. */
  lemma {:induction false} TrimLeftCuts(s: string)
    ensures TrimLeft(s) == s[|s| - |TrimLeft(s)|..]
    ensures forall k :: 0 <= k < |s| - |TrimLeft(s)| ==> IsSpace(s[k])
  {
    if s != [] && IsSpace(s[0]) {
      TrimLeftCuts(s[1..]);
    }
  }

  /** `TrimRight` cuts whitespace off the end and nothing else. */
  lemma {:induction false} TrimRightCuts(s: string)
    ensures TrimRight(s) == s[..|TrimRight(s)|]
    ensures forall k :: |TrimRight(s)| <= k < |s| ==> IsSpace(s[k])
  {
    if s != [] && IsSpace(s[|s| - 1]) {
      TrimRightCuts(s[..|s| - 1]);
    }
  }

  /** What `strip` leaves: a slice of `s` that neither starts nor ends with
      whitespace, everything cut off on either side being whitespace. */
  lemma StripSpec(s: string)
    ensures exists i :: TrimmedAt(s, Strip(s), i)
    ensures Strip(s) != [] ==> !IsSpace(Strip(s)[0]) && !IsSpace(Strip(s)[|Strip(s)| - 1])
  {
    var left := TrimLeft(s);
    TrimLeftCuts(s);
    TrimRightCuts(left);
    var i := |s| - |left|;
    assert Strip(s) == s[i..i + |Strip(s)|];
    assert TrimmedAt(s, Strip(s), i);
  }

  /** `r` is the slice of `s` starting at `i`, and everything of `s` outside
      that slice is whitespace. */
  predicate TrimmedAt(s: string, r: string, i: int) {
    0 <= i <= |s| - |r| && r == s[i..i + |r|]
    && (forall k :: 0 <= k < i ==> IsSpace(s[k]))
    && (forall k :: i + |r| <= k < |s| ==> IsSpace(s[k]))
  }

  /** Python 2 `str.lower()` on one byte: only `A`-`Z` change. */
  function LowerChar(c: char): char {
    if 'A' <= c <= 'Z' then (c as int + 32) as char else c
  }

  function Lower(s: string): string {
    seq(|s|, i requires 0 <= i < |s| => LowerChar(s[i]))
  }

  /** Lower-casing a name twice changes nothing more, and no upper-case
      letter is left. */
  lemma LowerIdempotent(s: string)
    ensures Lower(Lower(s)) == Lower(s)
    ensures forall i :: 0 <= i < |s| ==> !('A' <= Lower(s)[i] <= 'Z')
  {
  }

  /** `s.find(sub) >= 0`: `sub` occurs somewhere in `s`. */
  predicate Contains(s: string, sub: string) {
    exists i | 0 <= i <= |s| - |sub| :: OccursAt(s, sub, i)
  }

  predicate OccursAt(s: string, sub: string, i: int) {
    0 <= i <= |s| - |sub| && s[i..i + |sub|] == sub
  }
}
