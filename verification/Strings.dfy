/** String operations of Go's `strings` package that the store's names rely on. */
module Strings {

  /** True when `sub` occurs in `s` at offset `k`. */
  predicate OccursAt(s: string, sub: string, k: nat) {
    k + |sub| <= |s| && s[k..k + |sub|] == sub
  }

  /** Go's strings.Contains. */
  predicate Contains(s: string, sub: string) {
    exists k: nat | k <= |s| :: OccursAt(s, sub, k)
  }

  /** Go's strings.HasPrefix. */
  predicate HasPrefix(s: string, prefix: string) {
    prefix <= s
  }

  /** The offset of the first occurrence at or after `from`, or |s| + 1 when there is none. */
  function IndexFrom(s: string, sub: string, from: nat): (k: nat)
    requires from <= |s| + 1
    ensures from <= k <= |s| + 1
    ensures k <= |s| ==> OccursAt(s, sub, k)
    ensures forall j: nat :: from <= j < k ==> !OccursAt(s, sub, j)
    decreases |s| + 1 - from
  {
    if from == |s| + 1 then from
    else if OccursAt(s, sub, from) then from
    else IndexFrom(s, sub, from + 1)
  }

  function Index(s: string, sub: string): (k: nat)
    ensures k <= |s| + 1
    ensures k <= |s| <==> Contains(s, sub)
    ensures k <= |s| ==> OccursAt(s, sub, k)
    ensures forall j: nat :: j < k ==> !OccursAt(s, sub, j)
  {
    IndexFrom(s, sub, 0)
  }

  /** Go's strings.Replace(s, old, new, 1). */
  function ReplaceFirst(s: string, sub: string, replacement: string): string {
    var k := Index(s, sub);
    if k <= |s| then s[..k] + replacement + s[k + |sub|..] else s
  }

  lemma ReplaceFirstAt(s: string, sub: string, replacement: string, k: nat)
    requires OccursAt(s, sub, k)
    requires forall j: nat :: j < k ==> !OccursAt(s, sub, j)
    ensures ReplaceFirst(s, sub, replacement) == s[..k] + replacement + s[k + |sub|..]
  {
  }

  predicate IsSpace(c: char) {
    c == ' ' || '\t' <= c <= '\r'
  }

  function TrimLeft(s: string): string {
    if s != "" && IsSpace(s[0]) then TrimLeft(s[1..]) else s
  }

  function TrimRight(s: string): string {
    if s != "" && IsSpace(s[|s| - 1]) then TrimRight(s[..|s| - 1]) else s
  }

  /** Go's strings.TrimSpace, on ASCII text. */
  function TrimSpace(s: string): string {
    TrimRight(TrimLeft(s))
  }

  /** Go's strings.Split at one character. */
  function Split(s: string, separator: char): (parts: seq<string>)
    ensures parts != []
  {
    if s == "" then [""]
    else
      var rest := Split(s[1..], separator);
      if s[0] == separator then [""] + rest else [[s[0]] + rest[0]] + rest[1..]
  }

  lemma {:induction false} SplitWord(word: string, separator: char, rest: string)
    requires separator !in word
    ensures Split(word + [separator] + rest, separator) == [word] + Split(rest, separator)
    decreases |word|
  {
    var s := word + [separator] + rest;
    if word == "" {
      assert s[1..] == rest;
    } else {
      assert s[0] == word[0] && s[1..] == word[1..] + [separator] + rest;
      SplitWord(word[1..], separator, rest);
      assert word == [word[0]] + word[1..];
    }
  }

  lemma {:induction false} SplitOnce(s: string, separator: char)
    ensures |Split(s, separator)| == 1 <==> separator !in s
    ensures separator !in s ==> Split(s, separator) == [s]
    decreases |s|
  {
    if s != "" {
      SplitOnce(s[1..], separator);
      assert s == [s[0]] + s[1..];
    }
  }

  lemma {:induction false} SplitParts(before: string, separator: char, word: string)
    requires separator !in word
    ensures Split(before + [separator] + word, separator) == Split(before, separator) + [word]
    decreases |before|
  {
    var s := before + [separator] + word;
    if before == "" {
      assert s[1..] == word;
      SplitOnce(word, separator);
    } else {
      assert s[0] == before[0] && s[1..] == before[1..] + [separator] + word;
      SplitParts(before[1..], separator, word);
    }
  }
}
