/**
 * The string transforms Mongoose applies to a path declared with
 * `lowercase: true, trim: true`: JavaScript's toLowerCase and trim.
 */
module Strings {

  /** JavaScript white space and line terminators: what `\s` matches and `trim` removes. */
  predicate IsSpace(c: char) {
    var n := c as int;
    (9 <= n <= 13) || n == 32 || n == 0xA0 || n == 0x1680 || (0x2000 <= n <= 0x200A) ||
    n == 0x2028 || n == 0x2029 || n == 0x202F || n == 0x205F || n == 0x3000 || n == 0xFEFF
  }

  predicate AllSpace(s: string) {
    forall i :: 0 <= i < |s| ==> IsSpace(s[i])
  }

  predicate NoSpace(s: string) {
    forall i :: 0 <= i < |s| ==> !IsSpace(s[i])
  }

  predicate IsUpper(c: char) {
    'A' <= c <= 'Z'
  }

  function LowerChar(c: char): char {
    if IsUpper(c) then (c as int + 32) as char else c
  }

  /** String.prototype.toLowerCase, on ASCII letters. */
  function ToLower(s: string): (r: string)
    ensures |r| == |s|
    ensures forall i :: 0 <= i < |s| ==> !IsUpper(r[i]) && (IsUpper(s[i]) || r[i] == s[i])
    ensures forall i :: 0 <= i < |s| && IsUpper(s[i]) ==> r[i] as int == s[i] as int + 32
  {
    seq(|s|, i requires 0 <= i < |s| => LowerChar(s[i]))
  }

  /** The length of the run of white space that starts `s`. */
  function LeadingSpace(s: string): (n: nat)
    ensures n <= |s| && AllSpace(s[..n])
    ensures n < |s| ==> !IsSpace(s[n])
  {
    if s != [] && IsSpace(s[0]) then 1 + LeadingSpace(s[1..]) else 0
  }

  /** The length of the run of white space that ends `s`. */
  function TrailingSpace(s: string): (n: nat)
    ensures n <= |s| && AllSpace(s[|s| - n..])
    ensures n < |s| ==> !IsSpace(s[|s| - n - 1])
  {
    if s != [] && IsSpace(s[|s| - 1]) then 1 + TrailingSpace(s[..|s| - 1]) else 0
  }

  predicate NoUpper(s: string) {
    forall i :: 0 <= i < |s| ==> !IsUpper(s[i])
  }

  predicate Trimmed(s: string) {
    s == [] || (!IsSpace(s[0]) && !IsSpace(s[|s| - 1]))
  }

  /** String.prototype.trim. */
  function Trim(s: string): (r: string)
    ensures Trimmed(r)
    ensures NoUpper(s) ==> NoUpper(r)
  {
    var i := LeadingSpace(s);
    var rest := s[i..];
    rest[..|rest| - TrailingSpace(rest)]
  }

  /** `s` is `i` white-space characters, then `r`, then only white space. */
  predicate PaddedAt(s: string, i: nat, r: string) {
    i + |r| <= |s| && s[i..i + |r|] == r && AllSpace(s[..i]) && AllSpace(s[i + |r|..])
  }

  /** What trim removes is white space on either side. */
  lemma TrimRemovesOnlySpace(s: string)
    ensures exists i: nat :: PaddedAt(s, i, Trim(s))
  {
    var i := LeadingSpace(s);
    var rest := s[i..];
    var j := |rest| - TrailingSpace(rest);
    assert rest[j..] == s[i + j..];
    assert s[i..i + j] == rest[..j];
    assert PaddedAt(s, i, Trim(s));
  }

  /** A string that the lowercase and trim setters leave as it is. */
  predicate IsNormal(s: string) {
    NoUpper(s) && Trimmed(s)
  }

  /** The value Mongoose stores for a `lowercase: true, trim: true` string path. */
  function Normalize(s: string): (r: string)
    ensures IsNormal(r)
  {
    Trim(ToLower(s))
  }

  lemma {:induction false} TrimKeepsTrimmed(s: string)
    requires Trimmed(s)
    ensures Trim(s) == s
  {
    if s != [] {
      assert LeadingSpace(s) == 0;
      assert TrailingSpace(s) == 0;
    }
  }

  /** Normalisation changes a string exactly when it is not already normal. */
  lemma {:induction false} NormalizeFixesExactlyNormal(s: string)
    ensures Normalize(s) == s <==> IsNormal(s)
  {
    if IsNormal(s) {
      assert ToLower(s) == s;
      TrimKeepsTrimmed(s);
    }
  }

  /** Storing an already stored value again changes nothing. */
  lemma NormalizeIdempotent(s: string)
    ensures Normalize(Normalize(s)) == Normalize(s)
  {
    NormalizeFixesExactlyNormal(Normalize(s));
  }

  /** Two strings that differ only in the case of ASCII letters. */
  predicate SameUpToCase(s: string, t: string) {
    |s| == |t| && forall i :: 0 <= i < |s| ==> LowerChar(s[i]) == LowerChar(t[i])
  }

  /** "Bob" and "bob" are stored alike, so the unique indexes compare usernames and emails without case. */
  lemma NormalizeIgnoresCase(s: string, t: string)
    requires SameUpToCase(s, t)
    ensures Normalize(s) == Normalize(t)
  {
    assert ToLower(s) == ToLower(t);
  }
}
