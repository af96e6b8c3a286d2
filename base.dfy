/** Shared wrappers and the string helpers the components rely on
    (`trim`, `toLowerCase`, `includes`), modelled on ASCII. */
module Base {

  datatype Option<T> = None | Some(value: T)

  /** The outcome of an HTTP request or a fetch helper: the parsed body, or
      the failure that the caller's `catch` receives. */
  datatype Fetch<T> = Fetched(value: T) | FetchFailed(reason: string)

  /** JavaScript truthiness of a `string | null | undefined` value: absent
      values and the empty string are falsy. */
  predicate Present(s: Option<string>) {
    s.Some? && s.value != ""
  }

  // ---------------------------------------------------------------------
  // trim

  /** The whitespace characters `String.prototype.trim` removes, restricted
      to ASCII: space, tab, line feed, vertical tab, form feed, return. */
  predicate IsSpace(c: char) {
    c == ' ' || c == '\t' || c == '\n' || c == '\r' || c == '\U{B}' || c == '\U{C}'
  }

  predicate IsBlank(s: string) {
    forall i :: 0 <= i < |s| ==> IsSpace(s[i])
  }

  /** `s` with its leading whitespace removed: a suffix of `s`, the part
      cut off is blank, and what is left does not start with whitespace. */
  function TrimStart(s: string): (r: string)
    ensures |r| <= |s| && r == s[|s| - |r|..]
    ensures IsBlank(s[..|s| - |r|])
    ensures r != [] ==> !IsSpace(r[0])
  {
    if s != [] && IsSpace(s[0]) then TrimStart(s[1..]) else s
  }

  /** `s` with its trailing whitespace removed: a prefix of `s`, the part
      cut off is blank, and what is left does not end with whitespace. */
  function TrimEnd(s: string): (r: string)
    ensures |r| <= |s| && r == s[..|r|]
    ensures IsBlank(s[|r|..])
    ensures r != [] ==> !IsSpace(r[|r| - 1])
  {
    if s != [] && IsSpace(s[|s| - 1]) then TrimEnd(s[..|s| - 1]) else s
  }

  function Trim(s: string): string {
    TrimEnd(TrimStart(s))
  }

  /** `s.trim() === ""` holds exactly when `s` is all whitespace. */
  lemma TrimEmptyIffBlank(s: string)
    ensures Trim(s) == "" <==> IsBlank(s)
  {
    var t := TrimStart(s);
    assert s[..|s|] == s;
    assert t[0..] == t;
    assert t != [] ==> t[0] == s[|s| - |t|];
  }

  // ---------------------------------------------------------------------
  // toLowerCase and includes

  function LowerChar(c: char): char {
    if 'A' <= c <= 'Z' then (c as int - 'A' as int + 'a' as int) as char else c
  }

  /** `s.toLowerCase()` on ASCII: every upper-case letter replaced by its
      lower-case letter, every other character kept, position by position. */
  function ToLower(s: string): (r: string)
    ensures |r| == |s|
    ensures forall i :: 0 <= i < |s| ==> r[i] == LowerChar(s[i])
  {
    seq(|s|, i requires 0 <= i < |s| => LowerChar(s[i]))
  }

  predicate StartsWith(s: string, prefix: string) {
    |prefix| <= |s| && s[..|prefix|] == prefix
  }

  /** `s.includes(sub)`: `sub` occurs in `s` at some offset. */
  predicate Contains(s: string, sub: string)
    decreases |s|
  {
    StartsWith(s, sub) || (s != [] && Contains(s[1..], sub))
  }

  /** `Contains` agrees with "there is an offset where `sub` starts". */
  lemma {:induction false} ContainsIffOccurs(s: string, sub: string)
    ensures Contains(s, sub) <==> exists k :: 0 <= k <= |s| - |sub| && StartsWith(s[k..], sub)
    decreases |s|
  {
    assert s[0..] == s;
    if !StartsWith(s, sub) && s != [] {
      ContainsIffOccurs(s[1..], sub);
      forall k | 1 <= k <= |s| - |sub|
        ensures s[1..][k - 1..] == s[k..]
      {
      }
    }
  }

  /** Every string includes the empty string. */
  lemma ContainsEmpty(s: string)
    ensures Contains(s, "")
  {
  }
}
