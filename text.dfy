/**
 * The string helpers the web package relies on: ASCII case mapping
 * (`strings.ToUpper`, `strings.ToLower`, `str.LowerFirst`), substring search
 * and `strings.Replace(s, old, new, 1)`.
 */
module Text {
  import opened Wrappers

  function UpperChar(c: char): char {
    if 'a' <= c <= 'z' then (c as int - 32) as char else c
  }

  function LowerChar(c: char): char {
    if 'A' <= c <= 'Z' then (c as int + 32) as char else c
  }

  /** `strings.ToUpper`, restricted to ASCII letters. */
  function ToUpper(s: string): (r: string)
    ensures |r| == |s|
    ensures forall i :: 0 <= i < |s| ==> r[i] == UpperChar(s[i])
  {
    if s == [] then [] else [UpperChar(s[0])] + ToUpper(s[1..])
  }

  /** `strings.ToLower`, restricted to ASCII letters. */
  function ToLower(s: string): (r: string)
    ensures |r| == |s|
    ensures forall i :: 0 <= i < |s| ==> r[i] == LowerChar(s[i])
  {
    if s == [] then [] else [LowerChar(s[0])] + ToLower(s[1..])
  }

  /** `str.LowerFirst`: lower-case the first character only. */
  function LowerFirst(s: string): (r: string)
    ensures |r| == |s|
    ensures s != [] ==> r[0] == LowerChar(s[0]) && r[1..] == s[1..]
  {
    if s == [] then [] else [LowerChar(s[0])] + s[1..]
  }

  predicate IdentChar(c: char) {
    ('a' <= c <= 'z') || ('A' <= c <= 'Z') || ('0' <= c <= '9') || c == '_'
  }

  /** A non-empty run of identifier characters: what a camel-case word of a Go name is made of. */
  predicate IsWord(s: string) {
    s != [] && forall i :: 0 <= i < |s| ==> IdentChar(s[i])
  }

  /** Concatenation of a sequence of words. */
  function Concat(ws: seq<string>): string {
    if ws == [] then [] else ws[0] + Concat(ws[1..])
  }

  /** `words` is a camel-case split of `name`: non-empty words that concatenate back to it. */
  predicate SplitsInto(name: string, words: seq<string>) {
    |words| >= 1 && Concat(words) == name && forall k :: 0 <= k < |words| ==> IsWord(words[k])
  }

  /** `p` occurs in `s` at position `j`. */
  predicate OccursAt(s: string, p: string, j: nat) {
    j + |p| <= |s| && s[j..j + |p|] == p
  }

  function FindFrom(s: string, p: string, k: nat): (r: Option<nat>)
    requires k <= |s|
    decreases |s| - k
    ensures r.Some? ==> k <= r.value && OccursAt(s, p, r.value)
    ensures r.Some? ==> forall j :: k <= j < r.value ==> !OccursAt(s, p, j)
    ensures r.None? ==> forall j :: k <= j <= |s| ==> !OccursAt(s, p, j)
  {
    if k + |p| > |s| then None
    else if s[k..k + |p|] == p then Some(k)
    else FindFrom(s, p, k + 1)
  }

  /** `strings.Index`: the first position where `p` occurs in `s`. */
  function IndexOf(s: string, p: string): (r: Option<nat>)
    ensures r.Some? ==> OccursAt(s, p, r.value) && forall j :: 0 <= j < r.value ==> !OccursAt(s, p, j)
    ensures r.None? ==> forall j :: 0 <= j <= |s| ==> !OccursAt(s, p, j)
  {
    FindFrom(s, p, 0)
  }

  /** `p` occurs at `i` and nowhere before. */
  predicate FirstOccurrence(s: string, p: string, i: nat) {
    OccursAt(s, p, i) && forall j :: 0 <= j < i ==> !OccursAt(s, p, j)
  }

  /** `strings.Replace(s, old, new, 1)`: replace the first occurrence of `pat` by `repl`, if any. */
  function ReplaceFirst(s: string, pat: string, repl: string): string {
    match IndexOf(s, pat)
    case None => s
    case Some(i) => s[..i] + repl + s[i + |pat|..]
  }

  /**
   * What `ReplaceFirst` does, stated against occurrences alone: with no
   * occurrence the string is unchanged, and at the first occurrence the
   * pattern is swapped for the replacement.
   */
  lemma ReplaceFirstSpec(s: string, pat: string, repl: string)
    ensures (forall j :: 0 <= j <= |s| ==> !OccursAt(s, pat, j)) ==> ReplaceFirst(s, pat, repl) == s
    ensures forall i: nat :: FirstOccurrence(s, pat, i) ==> ReplaceFirst(s, pat, repl) == s[..i] + repl + s[i + |pat|..]
  {
    match IndexOf(s, pat)
    case None =>
    case Some(k) =>
      assert FirstOccurrence(s, pat, k);
  }

  /** The first occurrence is pinned down by an occurrence with none before it. */
  lemma IndexOfIs(s: string, p: string, i: nat)
    requires OccursAt(s, p, i)
    requires forall j :: 0 <= j < i ==> !OccursAt(s, p, j)
    ensures IndexOf(s, p) == Some(i)
  {
  }

  /** Removing a word that the string starts with strips exactly that prefix. */
  lemma RemovePrefix(s: string, p: string)
    requires |p| <= |s| && s[..|p|] == p
    ensures ReplaceFirst(s, p, "") == s[|p|..]
  {
    assert OccursAt(s, p, 0);
  }

  /** Removing a word that occurs only at the end strips exactly that suffix. */
  lemma RemoveSuffix(s: string, p: string)
    requires |p| <= |s| && s[|s| - |p|..] == p
    requires forall j :: 0 <= j < |s| - |p| ==> !OccursAt(s, p, j)
    ensures ReplaceFirst(s, p, "") == s[..|s| - |p|]
  {
    var i := |s| - |p|;
    assert s[i..i + |p|] == p;
    IndexOfIs(s, p, i);
    assert s[i + |p|..] == [];
  }

  /** Removing the first occurrence of a pattern leaves only characters of the string. */
  lemma RemoveKeepsChars(s: string, p: string)
    ensures forall i :: 0 <= i < |ReplaceFirst(s, p, "")| ==> ReplaceFirst(s, p, "")[i] in s
  {
    var r := ReplaceFirst(s, p, "");
    match IndexOf(s, p)
    case None =>
    case Some(k) =>
      assert FirstOccurrence(s, p, k);
      assert r == s[..k] + s[k + |p|..];
      forall i | 0 <= i < |r| ensures r[i] in s {
        if i < k {
          assert r[i] == s[i];
        } else {
          assert r[i] == s[i + |p|];
        }
      }
  }

  /** The first word of a split is a prefix of the name. */
  lemma {:induction false} FirstWordIsPrefix(name: string, words: seq<string>)
    requires SplitsInto(name, words)
    ensures |words[0]| <= |name| && name[..|words[0]|] == words[0]
  {
    assert Concat(words) == words[0] + Concat(words[1..]);
  }
}
