/**
  The Python string and path operations the recipe relies on, on `seq<char>`:
  `s.split("..")`, `"..".join`, `"\n".join`, `s.split("\n")`, `str(n)` for a
  natural number, ASCII `lower()`, `endswith`, the slices `s[:n]` and `s[:-n]`,
  and the POSIX (`posixpath`) forms of `os.path.join` and `os.path.split(p)[-1]`.
 */
module PyStr {

  // ---------------------------------------------------------------------------
  // s.split("..") and "..".join(parts)
  // ---------------------------------------------------------------------------

  /** True when the separator ".." occurs in `s`. */
  predicate HasDoubleDot(s: string) {
    exists i :: 0 <= i < |s| - 1 && s[i] == '.' && s[i + 1] == '.'
  }

  /** True when `s` is empty or does not end with '.'. */
  predicate NoTrailingDot(s: string) {
    s == [] || s[|s| - 1] != '.'
  }

  /**
    Python's `s.split("..")`: the separator is searched from the left and
    occurrences do not overlap, so "a...b" splits into "a" and ".b".
   */
  function SplitDots(s: string): (parts: seq<string>)
    ensures |parts| >= 1
    decreases |s|
  {
    if |s| < 2 then [s]
    else if s[0] == '.' && s[1] == '.' then [""] + SplitDots(s[2..])
    else
      var rest := SplitDots(s[1..]);
      [[s[0]] + rest[0]] + rest[1..]
  }

  /** The first piece of a split is a prefix of the text, and no piece holds the separator. */
  lemma {:induction false} SplitDotsPieces(s: string)
    ensures SplitDots(s)[0] <= s
    ensures forall k :: 0 <= k < |SplitDots(s)| ==> !HasDoubleDot(SplitDots(s)[k])
    decreases |s|
  {
    if |s| >= 2 {
      if s[0] == '.' && s[1] == '.' {
        SplitDotsPieces(s[2..]);
      } else {
        var rest := SplitDots(s[1..]);
        SplitDotsPieces(s[1..]);
        FirstPieceExtended(s, rest[0]);
      }
    }
  }

  /** Extending a separator-free piece by a character that does not start a separator keeps it separator-free. */
  lemma FirstPieceExtended(s: string, piece: string)
    requires |s| >= 2 && !(s[0] == '.' && s[1] == '.')
    requires piece <= s[1..] && !HasDoubleDot(piece)
    ensures !HasDoubleDot([s[0]] + piece)
  {
  }

  /** Python's `"..".join(parts)`. */
  function JoinDots(parts: seq<string>): string
    decreases |parts|
  {
    if |parts| == 0 then ""
    else if |parts| == 1 then parts[0]
    else parts[0] + ".." + JoinDots(parts[1..])
  }

  /** Moving a character into the first piece of a join. */
  lemma JoinDotsFirst(c: char, parts: seq<string>)
    requires |parts| >= 1
    ensures JoinDots([[c] + parts[0]] + parts[1..]) == [c] + JoinDots(parts)
  {
    if |parts| > 1 {
      assert ([[c] + parts[0]] + parts[1..])[1..] == parts[1..];
    }
  }

  /** Joining the pieces of a split gives back the original text. */
  lemma {:induction false} JoinSplitDots(s: string)
    ensures JoinDots(SplitDots(s)) == s
    decreases |s|
  {
    if |s| < 2 {
    } else if s[0] == '.' && s[1] == '.' {
      JoinSplitDots(s[2..]);
      assert ([""] + SplitDots(s[2..]))[1..] == SplitDots(s[2..]);
      assert s == "" + ".." + s[2..];
    } else {
      JoinSplitDots(s[1..]);
      JoinDotsFirst(s[0], SplitDots(s[1..]));
      assert s == [s[0]] + s[1..];
    }
  }

  /** A text splits into the single piece it is exactly when it holds no separator. */
  lemma {:induction false} SplitDotsSingle(s: string)
    ensures !HasDoubleDot(s) <==> SplitDots(s) == [s]
    decreases |s|
  {
    if SplitDots(s) == [s] {
      SplitDotsPieces(s);
      assert !HasDoubleDot(SplitDots(s)[0]);
    }
    if !HasDoubleDot(s) && |s| >= 2 {
      assert !(s[0] == '.' && s[1] == '.');
      assert !HasDoubleDot(s[1..]);
      SplitDotsSingle(s[1..]);
      assert [s[0]] + s[1..] == s;
    }
  }

  /** Splitting distributes over a separator whose left side does not end with '.'. */
  lemma {:induction false} SplitDotsConcat(a: string, b: string)
    requires NoTrailingDot(a)
    ensures SplitDots(a + ".." + b) == SplitDots(a) + SplitDots(b)
    decreases |a|
  {
    var s := a + ".." + b;
    if |a| == 0 {
      assert s[2..] == b;
    } else if |a| >= 2 && a[0] == '.' && a[1] == '.' {
      assert s[2..] == a[2..] + ".." + b;
      SplitDotsConcat(a[2..], b);
    } else {
      SplitDotsConcat(a[1..], b);
      SplitDotsConcatStep(a, b);
    }
  }

  /** The inductive step of SplitDotsConcat when `a` does not start with the separator. */
  lemma SplitDotsConcatStep(a: string, b: string)
    requires |a| >= 1 && NoTrailingDot(a) && !(|a| >= 2 && a[0] == '.' && a[1] == '.')
    requires SplitDots(a[1..] + ".." + b) == SplitDots(a[1..]) + SplitDots(b)
    ensures SplitDots(a + ".." + b) == SplitDots(a) + SplitDots(b)
  {
    var s := a + ".." + b;
    assert s[1..] == a[1..] + ".." + b;
    SplitDotsUnfold(s);
    var q := SplitDots(a[1..]);
    if |a| == 1 {
      assert q == [""];
      assert [a[0]] + "" == a;
      ConsFirstAppend(a[0], q, SplitDots(b));
    } else {
      SplitDotsUnfold(a);
      ConsFirstAppend(a[0], q, SplitDots(b));
    }
  }

  /** Moving a character into the first piece commutes with appending pieces. */
  lemma ConsFirstAppend(c: char, q: seq<string>, t: seq<string>)
    requires |q| >= 1
    ensures [[c] + (q + t)[0]] + (q + t)[1..] == ([[c] + q[0]] + q[1..]) + t
  {
    assert (q + t)[1..] == q[1..] + t;
  }

  /** SplitDots on a text that does not start with the separator, unfolded once. */
  lemma SplitDotsUnfold(s: string)
    requires |s| >= 2 && !(s[0] == '.' && s[1] == '.')
    ensures SplitDots(s) == [[s[0]] + SplitDots(s[1..])[0]] + SplitDots(s[1..])[1..]
  {
  }

  /** Pieces that hold no separator, all but the last not ending with '.'. */
  predicate Separable(parts: seq<string>) {
    && (forall k :: 0 <= k < |parts| ==> !HasDoubleDot(parts[k]))
    && (forall k :: 0 <= k < |parts| - 1 ==> NoTrailingDot(parts[k]))
  }

  /** Splitting a join of separable pieces recovers the pieces. */
  lemma {:induction false} SplitJoinDots(parts: seq<string>)
    requires |parts| >= 1 && Separable(parts)
    ensures SplitDots(JoinDots(parts)) == parts
    decreases |parts|
  {
    SplitDotsSingle(parts[0]);
    if |parts| > 1 {
      SplitJoinDots(parts[1..]);
      SplitDotsConcat(parts[0], JoinDots(parts[1..]));
      assert parts == [parts[0]] + parts[1..];
    }
  }

  // ---------------------------------------------------------------------------
  // "\n".join(lines) and s.split("\n")
  // ---------------------------------------------------------------------------

  /** Python's `"\n".join(lines)`. */
  function JoinLines(lines: seq<string>): string
    decreases |lines|
  {
    if |lines| == 0 then ""
    else if |lines| == 1 then lines[0]
    else lines[0] + "\n" + JoinLines(lines[1..])
  }

  /** Python's `s.split("\n")`: the lines of a text. */
  function SplitLines(s: string): (lines: seq<string>)
    ensures |lines| >= 1
    decreases |s|
  {
    if |s| == 0 then [""]
    else if s[0] == '\n' then [""] + SplitLines(s[1..])
    else
      var rest := SplitLines(s[1..]);
      [[s[0]] + rest[0]] + rest[1..]
  }

  /** A line without a newline is followed, after a newline, by the lines of the rest. */
  lemma {:induction false} SplitLinesAfterLine(a: string, b: string)
    requires '\n' !in a
    ensures SplitLines(a + "\n" + b) == [a] + SplitLines(b)
    decreases |a|
  {
    var s := a + "\n" + b;
    if |a| == 0 {
      assert s[1..] == b;
    } else {
      assert s[0] == a[0];
      assert s[1..] == a[1..] + "\n" + b;
      SplitLinesAfterLine(a[1..], b);
      assert [a[0]] + a[1..] == a;
    }
  }

  /** A text without a newline is one line. */
  lemma {:induction false} SplitLinesSingle(a: string)
    requires '\n' !in a
    ensures SplitLines(a) == [a]
    decreases |a|
  {
    if |a| > 0 {
      assert a[0] != '\n';
      SplitLinesSingle(a[1..]);
      assert [a[0]] + a[1..] == a;
    }
  }

  /** Splitting a join of newline-free lines recovers the lines. */
  lemma {:induction false} SplitJoinLines(lines: seq<string>)
    requires |lines| >= 1
    requires forall k :: 0 <= k < |lines| ==> '\n' !in lines[k]
    ensures SplitLines(JoinLines(lines)) == lines
    decreases |lines|
  {
    if |lines| == 1 {
      SplitLinesSingle(lines[0]);
    } else {
      SplitJoinLines(lines[1..]);
      SplitLinesAfterLine(lines[0], JoinLines(lines[1..]));
      assert lines == [lines[0]] + lines[1..];
    }
  }

  // ---------------------------------------------------------------------------
  // str(n) for a natural number
  // ---------------------------------------------------------------------------

  predicate IsDigit(c: char) {
    '0' <= c <= '9'
  }

  function DigitChar(d: nat): (c: char)
    requires d < 10
  {
    ('0' as int + d) as char
  }

  /** Python's `str(n)`: the decimal digits of `n`, without leading zeros. */
  function FormatNat(n: nat): (s: string)
    ensures |s| >= 1
    ensures forall k :: 0 <= k < |s| ==> IsDigit(s[k])
    ensures s[0] == '0' ==> n == 0
    decreases n
  {
    if n < 10 then [DigitChar(n)]
    else FormatNat(n / 10) + [DigitChar(n % 10)]
  }

  /** The value of a string of decimal digits. */
  function ParseNat(s: string): nat
    requires forall k :: 0 <= k < |s| ==> IsDigit(s[k])
    decreases |s|
  {
    if s == [] then 0
    else
      var last := s[|s| - 1];
      assert IsDigit(last);
      ParseNat(s[..|s| - 1]) * 10 + (last as int - '0' as int)
  }

  /** Reading back the decimal form of a number gives the number. */
  lemma {:induction false} ParseFormatNat(n: nat)
    ensures ParseNat(FormatNat(n)) == n
    decreases n
  {
    if n >= 10 {
      var s := FormatNat(n);
      assert s[..|s| - 1] == FormatNat(n / 10);
      ParseFormatNat(n / 10);
    }
  }

  // ---------------------------------------------------------------------------
  // lower(), endswith, slices
  // ---------------------------------------------------------------------------

  /** `lower()` on one character, for the ASCII letters. */
  function LowerChar(c: char): char {
    if 'A' <= c <= 'Z' then (c as int + 32) as char else c
  }

  /** `lower()` on a string, for the ASCII letters. */
  function Lower(s: string): string {
    seq(|s|, k requires 0 <= k < |s| => LowerChar(s[k]))
  }

  /** `s.endswith(suffix)`. */
  predicate EndsWith(s: string, suffix: string) {
    |suffix| <= |s| && s[|s| - |suffix|..] == suffix
  }

  /** `s[:n]`: at most the first `n` characters. */
  function Take(s: string, n: nat): string {
    if n <= |s| then s[..n] else s
  }

  /** `s[:-n]` for `n > 0`: everything but the last `n` characters, or "" when `s` is shorter. */
  function DropLast(s: string, n: nat): string {
    if n <= |s| then s[..|s| - n] else ""
  }

  // ---------------------------------------------------------------------------
  // os.path.join and os.path.split(path)[-1], POSIX separator
  // ---------------------------------------------------------------------------

  /**
    `os.path.join(folder, name)` as `posixpath` does it: an absolute `name`
    replaces the folder, and a '/' is inserted only when the folder is
    non-empty and does not already end in one.
   */
  function JoinPath(folder: string, name: string): string {
    if |name| > 0 && name[0] == '/' then name
    else if folder == [] || folder[|folder| - 1] == '/' then folder + name
    else folder + "/" + name
  }

  /** `os.path.split(path)[-1]`: what follows the last '/'. */
  function BaseName(path: string): string
    decreases |path|
  {
    if path == [] then []
    else if path[|path| - 1] == '/' then []
    else BaseName(path[..|path| - 1]) + [path[|path| - 1]]
  }

  /** The base name is a suffix of the path and holds no '/'. */
  lemma {:induction false} BaseNameIsLastPart(path: string)
    ensures '/' !in BaseName(path)
    ensures |BaseName(path)| <= |path| && path[|path| - |BaseName(path)|..] == BaseName(path)
    decreases |path|
  {
    if path != [] && path[|path| - 1] != '/' {
      var init := path[..|path| - 1];
      BaseNameIsLastPart(init);
      var b := BaseName(init);
      assert path[|path| - |b| - 1..] == init[|init| - |b|..] + [path[|path| - 1]];
    }
  }

  /** The base name of a joined path is the base name of its last part. */
  lemma BaseNameJoin(folder: string, name: string)
    ensures BaseName(JoinPath(folder, name)) == BaseName(name)
  {
    if |name| > 0 && name[0] == '/' {
    } else if folder == [] || folder[|folder| - 1] == '/' {
      BaseNameAfterSeparator(folder, name);
    } else {
      assert folder + "/" + name == (folder + "/") + name;
      BaseNameAfterSeparator(folder + "/", name);
    }
  }

  /** Whatever precedes a '/' (or nothing) does not reach the base name. */
  lemma {:induction false} BaseNameAfterSeparator(prefix: string, name: string)
    requires prefix == [] || prefix[|prefix| - 1] == '/'
    ensures BaseName(prefix + name) == BaseName(name)
    decreases |name|
  {
    var p := prefix + name;
    if name == [] {
      assert p == prefix;
    } else {
      assert p[|p| - 1] == name[|name| - 1];
      assert p[..|p| - 1] == prefix + name[..|name| - 1];
      BaseNameAfterSeparator(prefix, name[..|name| - 1]);
    }
  }
}
