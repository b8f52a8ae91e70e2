/** Finding and trimming pieces of strings, with Go's conventions. A string is its bytes, one per character. */
module Text {
  import opened Domain

  predicate Suffixed(s: string, p: string) { |p| <= |s| && s[|s| - |p|..] == p }

  function TrimPrefix(s: string, p: string): string { if p <= s then s[|p|..] else s }
  function TrimSuffix(s: string, p: string): string { if Suffixed(s, p) then s[..|s| - |p|] else s }

  predicate OccursAt(s: string, p: string, i: int) { 0 <= i <= |s| - |p| && s[i..i + |p|] == p }

  lemma Mismatch(s: string, p: string, i: nat, k: nat)
    requires k < |p| && i + k < |s| && s[i + k] != p[k]
    ensures !OccursAt(s, p, i)
  {
    if i + |p| <= |s| {
      assert s[i..i + |p|][k] == s[i + k];
    }
  }

  /** The first occurrence of `p` at `i` or later. */
  function IndexFrom(s: string, p: string, i: nat): (r: Option<nat>)
    ensures r.Some? ==> i <= r.value && OccursAt(s, p, r.value) && forall j | i <= j < r.value :: !OccursAt(s, p, j)
    ensures r.None? ==> forall j | i <= j :: !OccursAt(s, p, j)
    decreases |s| - i
  {
    if i + |p| > |s| then None else if OccursAt(s, p, i) then Some(i) else IndexFrom(s, p, i + 1)
  }

  function Index(s: string, p: string): Option<nat> { IndexFrom(s, p, 0) }

  lemma IndexIs(s: string, p: string, i: nat)
    requires OccursAt(s, p, i) && forall j | 0 <= j < i :: !OccursAt(s, p, j)
    ensures Index(s, p) == Some(i)
  {
  }

  /** The last position of `c`, if it occurs. */
  function LastIndex(s: string, c: char): (r: Option<nat>)
    ensures r.Some? ==> r.value < |s| && s[r.value] == c && c !in s[r.value + 1..]
    ensures r.None? ==> c !in s
  {
    if s == "" then None
    else
      var n := |s| - 1;
      if s[n] == c then Some(n)
      else
        var r := LastIndex(s[..n], c);
        assert r.Some? ==> s[r.value + 1..] == s[..n][r.value + 1..] + [s[n]];
        assert s == s[..n] + [s[n]];
        r
  }

  predicate Upper(c: char) { 'A' <= c <= 'Z' }
  predicate LowerCase(c: char) { 'a' <= c <= 'z' }
  function Lower(c: char): char { if Upper(c) then (c as int + 32) as char else c }
  function LowerAll(s: string): string { seq(|s|, i requires 0 <= i < |s| => Lower(s[i])) }
  function ToUpper(c: char): char requires LowerCase(c) { (c as int - 32) as char }

  predicate NoUpper(s: string) { forall c | c in s :: !Upper(c) }
}
