/**
 * The string primitives the recipe code relies on: `String.prototype.trim`,
 * `toLowerCase` (ASCII letters only), `includes` and
 * `split("\n")`, each with the property that makes it usable in contracts.
 */
module Text {

  /** ECMAScript WhiteSpace and LineTerminator code points: what `trim` removes. */
  predicate IsSpace(c: char) {
    || c == '\t' || c == '\n' || c == '\U{000B}' || c == '\U{000C}' || c == '\r' || c == ' '
    || c == '\U{00A0}' || c == '\U{1680}' || ('\U{2000}' <= c <= '\U{200A}')
    || c == '\U{2028}' || c == '\U{2029}' || c == '\U{202F}' || c == '\U{205F}'
    || c == '\U{3000}' || c == '\U{FEFF}'
  }

  /** True when every character of `s` is white space (including the empty string). */
  predicate IsBlank(s: string) {
    forall k :: 0 <= k < |s| ==> IsSpace(s[k])
  }

  /** Drops leading white space: `s` from its first non-space character on. */
  function TrimStart(s: string): string
    decreases |s|
  {
    if s != [] && IsSpace(s[0]) then TrimStart(s[1..]) else s
  }

  /** Drops trailing white space: `s` up to its last non-space character. */
  function TrimEnd(s: string): string
    decreases |s|
  {
    if s != [] && IsSpace(s[|s| - 1]) then TrimEnd(s[..|s| - 1]) else s
  }

  /** `TrimStart(s)` is the suffix of `s` after a run of white space, and it does not start with white space. */
  lemma {:induction false} TrimStartIsSuffix(s: string)
    ensures |TrimStart(s)| <= |s| && TrimStart(s) == s[|s| - |TrimStart(s)|..]
    ensures TrimStart(s) == [] || !IsSpace(TrimStart(s)[0])
    ensures IsBlank(s[..|s| - |TrimStart(s)|])
    decreases |s|
  {
    if s != [] && IsSpace(s[0]) {
      var t := TrimStart(s[1..]);
      assert TrimStart(s) == t;
      TrimStartIsSuffix(s[1..]);
      var n := |s| - |t|;
      assert s[1..][n - 1..] == s[n..];
      forall k | 0 <= k < n ensures IsSpace(s[..n][k]) {
        if k > 0 {
          assert s[..n][k] == s[1..][..n - 1][k - 1];
        }
      }
    }
  }

  /** `TrimEnd(s)` is the prefix of `s` before a run of white space, and it does not end with white space. */
  lemma {:induction false} TrimEndIsPrefix(s: string)
    ensures |TrimEnd(s)| <= |s| && TrimEnd(s) == s[..|TrimEnd(s)|]
    ensures TrimEnd(s) == [] || !IsSpace(TrimEnd(s)[|TrimEnd(s)| - 1])
    ensures IsBlank(s[|TrimEnd(s)|..])
    decreases |s|
  {
    if s != [] && IsSpace(s[|s| - 1]) {
      var t := TrimEnd(s[..|s| - 1]);
      assert TrimEnd(s) == t;
      TrimEndIsPrefix(s[..|s| - 1]);
      assert s[..|s| - 1][..|t|] == s[..|t|];
      forall k | 0 <= k < |s| - |t| ensures IsSpace(s[|t|..][k]) {
        if k < |s| - 1 - |t| {
          assert s[|t|..][k] == s[..|s| - 1][|t|..][k];
        }
      }
    }
  }

  /** `s.trim()`. */
  function Trim(s: string): string {
    TrimEnd(TrimStart(s))
  }

  /** The trimmed string is a slice of the input with no white space at either end, and it is empty exactly for blank input. */
  lemma TrimIsInnerSlice(s: string)
    ensures exists i, j :: 0 <= i <= j <= |s| && Trim(s) == s[i..j] && IsBlank(s[..i]) && IsBlank(s[j..])
    ensures Trim(s) == [] || (!IsSpace(Trim(s)[0]) && !IsSpace(Trim(s)[|Trim(s)| - 1]))
    ensures Trim(s) == [] <==> IsBlank(s)
  {
    var i, j := TrimBounds(s);
    TrimEnds(s);
    if Trim(s) == [] {
      forall k | 0 <= k < |s| ensures IsSpace(s[k]) {
        if k < i {
          assert s[k] == s[..i][k];
        } else {
          assert s[k] == s[j..][k - j];
        }
      }
    } else {
      assert Trim(s)[0] == s[i];
    }
  }

  /** The positions where the trimmed slice starts and ends, with only white space outside them. */
  lemma TrimBounds(s: string) returns (i: int, j: int)
    ensures 0 <= i <= j <= |s| && Trim(s) == s[i..j] && IsBlank(s[..i]) && IsBlank(s[j..])
  {
    var t := TrimStart(s);
    var u := TrimEnd(t);
    TrimStartIsSuffix(s);
    TrimEndIsPrefix(t);
    i := |s| - |t|;
    j := i + |u|;
    assert t == s[i..];
    assert u == s[i..][..|u|] == s[i..j];
    assert s[j..] == t[|u|..];
  }

  /** A non-empty trimmed string neither starts nor ends with white space. */
  lemma TrimEnds(s: string)
    ensures Trim(s) == [] || (!IsSpace(Trim(s)[0]) && !IsSpace(Trim(s)[|Trim(s)| - 1]))
  {
    var t := TrimStart(s);
    var u := TrimEnd(t);
    TrimStartIsSuffix(s);
    TrimEndIsPrefix(t);
    if u != [] {
      assert u[0] == t[0];
    }
  }

  /** Trimming twice is trimming once. */
  lemma TrimIdempotent(s: string)
    ensures Trim(Trim(s)) == Trim(s)
  {
    TrimIsInnerSlice(s);
  }

  /** `c.toLowerCase()` for ASCII letters; every other character is kept. */
  function LowerChar(c: char): char {
    if 'A' <= c <= 'Z' then (c as int + 32) as char else c
  }

  /** `s.toLowerCase()`, character by character. */
  function Lower(s: string): (r: string) {
    seq(|s|, k requires 0 <= k < |s| => LowerChar(s[k]))
  }

  /** Lower-casing is idempotent, and it maps white space to white space, so it commutes with trimming. */
  lemma {:induction false} LowerTrimCommute(s: string)
    ensures Lower(Lower(s)) == Lower(s)
    ensures Trim(Lower(s)) == Lower(Trim(s))
  {
    assert Lower(Lower(s)) == Lower(s);
    forall c ensures IsSpace(LowerChar(c)) == IsSpace(c) {
      LowerKeepsSpace(c);
    }
    StartCommutes(s);
    EndCommutes(TrimStart(s));
  }

  lemma LowerKeepsSpace(c: char)
    ensures IsSpace(LowerChar(c)) == IsSpace(c)
  {
    if 'A' <= c <= 'Z' {
      assert 'a' <= LowerChar(c) <= 'z';
    }
  }

  lemma {:induction false} StartCommutes(s: string)
    requires forall c :: IsSpace(LowerChar(c)) == IsSpace(c)
    ensures TrimStart(Lower(s)) == Lower(TrimStart(s))
    decreases |s|
  {
    if s != [] {
      assert Lower(s)[1..] == Lower(s[1..]);
      StartCommutes(s[1..]);
    }
  }

  lemma {:induction false} EndCommutes(s: string)
    requires forall c :: IsSpace(LowerChar(c)) == IsSpace(c)
    ensures TrimEnd(Lower(s)) == Lower(TrimEnd(s))
    decreases |s|
  {
    if s != [] {
      assert Lower(s)[..|s| - 1] == Lower(s[..|s| - 1]);
      EndCommutes(s[..|s| - 1]);
    }
  }

  /** `hay.includes(needle)`, scanning start positions left to right. */
  predicate Contains(hay: string, needle: string)
    decreases |hay|
  {
    needle <= hay || (hay != [] && Contains(hay[1..], needle))
  }

  /** `Contains` holds exactly when `needle` occurs at some position of `hay`. */
  lemma {:induction false} ContainsIff(hay: string, needle: string)
    ensures Contains(hay, needle) <==> exists i :: 0 <= i <= |hay| && needle <= hay[i..]
    decreases |hay|
  {
    assert hay[0..] == hay;
    if hay != [] {
      ContainsIff(hay[1..], needle);
      if Contains(hay[1..], needle) {
        var i :| 0 <= i <= |hay[1..]| && needle <= hay[1..][i..];
        assert hay[1..][i..] == hay[i + 1..];
      }
      if i :| 0 <= i <= |hay| && needle <= hay[i..] {
        if i > 0 {
          assert hay[1..][i - 1..] == hay[i..];
        }
      }
    }
  }

  /** `s.split("\n")`: the pieces between newlines, never an empty list (`"".split("\n")` is `[""]`). */
  function Split(s: string): (r: seq<string>)
    ensures |r| >= 1
    ensures forall k :: 0 <= k < |r| ==> '\n' !in r[k]
    decreases |s|
  {
    if s == [] then [[]]
    else
      var rest := Split(s[1..]);
      if s[0] == '\n' then [[]] + rest
      else [[s[0]] + rest[0]] + rest[1..]
  }

  /** `parts.join("\n")`. */
  function Join(parts: seq<string>): string
    requires |parts| >= 1
    decreases |parts|
  {
    if |parts| == 1 then parts[0] else parts[0] + "\n" + Join(parts[1..])
  }

  /** Splitting loses nothing: joining the pieces with newlines gives back the text. */
  lemma {:induction false} JoinSplit(s: string)
    ensures Join(Split(s)) == s
    decreases |s|
  {
    if s != [] {
      var rest := Split(s[1..]);
      JoinSplit(s[1..]);
      if s[0] == '\n' {
        assert Split(s)[1..] == rest;
      } else {
        var r := Split(s);
        assert r[1..] == rest[1..];
        if |rest| == 1 {
          assert Join(r) == [s[0]] + rest[0];
        } else {
          assert Join(r) == [s[0]] + rest[0] + "\n" + Join(rest[1..]);
        }
        assert s == [s[0]] + s[1..];
      }
    }
  }

  /** Splitting a string that starts with a newline-free piece `p` puts `p` in front of the first piece. */
  lemma {:induction false} SplitPrefix(p: string, s: string)
    requires '\n' !in p
    ensures Split(p + s) == [p + Split(s)[0]] + Split(s)[1..]
    decreases |p|
  {
    if p == [] {
      assert p + s == s;
      assert p + Split(s)[0] == Split(s)[0];
      assert [Split(s)[0]] + Split(s)[1..] == Split(s);
    } else {
      assert (p + s)[1..] == p[1..] + s;
      assert (p + s)[0] == p[0] != '\n';
      SplitPrefix(p[1..], s);
      var r := Split(p[1..] + s);
      assert r[0] == p[1..] + Split(s)[0] && r[1..] == Split(s)[1..];
      assert Split(p + s) == [[p[0]] + r[0]] + r[1..];
      assert [p[0]] + (p[1..] + Split(s)[0]) == p + Split(s)[0];
    }
  }

  /** Joining newline-free pieces and splitting again gives the pieces back. */
  lemma {:induction false} SplitJoin(parts: seq<string>)
    requires |parts| >= 1
    requires forall k :: 0 <= k < |parts| ==> '\n' !in parts[k]
    ensures Split(Join(parts)) == parts
    decreases |parts|
  {
    if |parts| == 1 {
      SplitPrefix(parts[0], []);
      assert parts[0] + [] == parts[0];
    } else {
      var rest := Join(parts[1..]);
      SplitJoin(parts[1..]);
      assert parts[0] + "\n" + rest == parts[0] + ("\n" + rest);
      SplitPrefix(parts[0], "\n" + rest);
      assert ("\n" + rest)[1..] == rest;
      assert Split("\n" + rest) == [[]] + parts[1..];
      assert parts[0] + [] == parts[0];
      assert [parts[0]] + parts[1..] == parts;
    }
  }
}
