/** Text helpers with JavaScript's string semantics: the `\s` character class
    (also what `String.prototype.trim` strips), `startsWith`, `includes`,
    `split` on one character, `join`, and `replace(/\s+/g, "_")`. */
module Strings {

  /** ECMAScript WhiteSpace and LineTerminator code points: what `\s` matches
      and what `trim()` removes. */
  predicate IsSpace(c: char) {
    var n := c as int;
    || (9 <= n <= 13)                      // \t \n \v \f \r
    || n == 0x20 || n == 0xA0 || n == 0x1680
    || (0x2000 <= n <= 0x200A)
    || n == 0x2028 || n == 0x2029 || n == 0x202F || n == 0x205F
    || n == 0x3000 || n == 0xFEFF
  }

  /** Every character of `s` is whitespace (vacuously true of ""). */
  predicate AllSpace(s: string) {
    forall i :: 0 <= i < |s| ==> IsSpace(s[i])
  }

  predicate NoSpace(s: string) {
    forall i :: 0 <= i < |s| ==> !IsSpace(s[i])
  }

  /** Drops leading whitespace (`trimStart`). */
  function TrimStart(s: string): (r: string)
    ensures |r| <= |s| && r == s[|s| - |r|..]
    ensures r == [] || !IsSpace(r[0])
    ensures forall i :: 0 <= i < |s| - |r| ==> IsSpace(s[i])
  {
    if s != [] && IsSpace(s[0]) then TrimStart(s[1..]) else s
  }

  /** Drops trailing whitespace (`trimEnd`). */
  function TrimEnd(s: string): (r: string)
    ensures |r| <= |s| && r == s[..|r|]
    ensures r == [] || !IsSpace(r[|r| - 1])
    ensures forall i :: |r| <= i < |s| ==> IsSpace(s[i])
  {
    if s != [] && IsSpace(s[|s| - 1]) then TrimEnd(s[..|s| - 1]) else s
  }

  /** `s.trim()`. */
  function Trim(s: string): string {
    TrimEnd(TrimStart(s))
  }

  /** `!s.trim()` holds exactly for the strings made only of whitespace. */
  lemma TrimEmptyIffAllSpace(s: string)
    ensures Trim(s) == "" <==> AllSpace(s)
  {
    var t := TrimStart(s);
    if Trim(s) == "" {
      assert t == [];
    } else {
      var r := Trim(s);
      assert !IsSpace(r[0]);
      assert r[0] == t[0] == s[|s| - |t|];
    }
  }

  /** A trimmed string neither starts nor ends with whitespace, and trimming
      it again changes nothing. */
  lemma TrimIdempotent(s: string)
    ensures var r := Trim(s); (r == [] || (!IsSpace(r[0]) && !IsSpace(r[|r| - 1])))
    ensures Trim(Trim(s)) == Trim(s)
  {
    var t := TrimStart(s);
    var r := TrimEnd(t);
    if r != [] {
      assert r[0] == t[0];
    }
    assert TrimStart(r) == r;
    assert TrimEnd(r) == r;
  }

  lemma AppendAssoc3(a: string, b: string, c: string)
    ensures a + b + c == a + (b + c)
  {
  }

  lemma AppendAssoc4(a: string, b: string, c: string, d: string)
    ensures a + b + c + d == a + (b + c + d)
  {
  }

  lemma AppendAssoc5(a: string, b: string, c: string, d: string, e: string)
    ensures a + b + c + d + e == a + (b + c + d + e)
  {
  }

  predicate StartsWith(s: string, prefix: string) {
    |prefix| <= |s| && s[..|prefix|] == prefix
  }

  predicate EndsWith(s: string, suffix: string) {
    |suffix| <= |s| && s[|s| - |suffix|..] == suffix
  }

  /** `sub` occurs in `s` starting at index `i`. */
  predicate OccursAt(s: string, sub: string, i: int) {
    0 <= i && i + |sub| <= |s| && s[i..i + |sub|] == sub
  }

  /** `s.includes(sub)`. */
  predicate Contains(s: string, sub: string) {
    exists i | 0 <= i <= |s| - |sub| :: OccursAt(s, sub, i)
  }

  /** Trimming never removes an occurrence of a non-empty word that neither
      starts nor ends with whitespace: the trimmed ends are made of
      whitespace only. */
  lemma TrimKeepsWord(s: string, w: string)
    requires |w| > 0 && !IsSpace(w[0]) && !IsSpace(w[|w| - 1]) && Contains(s, w)
    ensures Contains(Trim(s), w)
  {
    TrimStartKeepsWord(s, w);
    TrimEndKeepsWord(TrimStart(s), w);
  }

  /** `TrimStart` only drops whitespace before the first visible character,
      so an occurrence of a word that opens with a visible character stays. */
  lemma TrimStartKeepsWord(s: string, w: string)
    requires |w| > 0 && !IsSpace(w[0]) && Contains(s, w)
    ensures Contains(TrimStart(s), w)
  {
    var i :| 0 <= i <= |s| - |w| && OccursAt(s, w, i);
    var t := TrimStart(s);
    var d := |s| - |t|;
    assert s[i] == w[0] by {
      assert s[i..i + |w|][0] == s[i];
    }
    assert !IsSpace(s[i]);
    assert i >= d;
    assert t[i - d..i - d + |w|] == s[i..i + |w|];
    assert OccursAt(t, w, i - d);
  }

  /** Likewise `TrimEnd` keeps an occurrence of a word that closes with a
      visible character. */
  lemma TrimEndKeepsWord(t: string, w: string)
    requires |w| > 0 && !IsSpace(w[|w| - 1]) && Contains(t, w)
    ensures Contains(TrimEnd(t), w)
  {
    var i :| 0 <= i <= |t| - |w| && OccursAt(t, w, i);
    var r := TrimEnd(t);
    var j := i + |w| - 1;
    assert t[j] == w[|w| - 1] by {
      assert t[i..i + |w|][|w| - 1] == t[j];
    }
    assert j < |r|;
    assert r[i..i + |w|] == t[i..i + |w|];
    assert OccursAt(r, w, i);
  }

  /** `s.split(c)` for a one-character separator: never empty, and no piece
      holds the separator. */
  function Split(s: string, c: char): (r: seq<string>)
    ensures |r| >= 1
    ensures forall k :: 0 <= k < |r| ==> c !in r[k]
  {
    if s == [] then [""]
    else
      var rest := Split(s[1..], c);
      if s[0] == c then [""] + rest
      else [[s[0]] + rest[0]] + rest[1..]
  }

  /** The first piece of a split is the text up to the first separator, or
      the whole text when there is none. */
  lemma {:induction false} SplitFirstPiece(s: string, c: char)
    ensures var d := Split(s, c)[0];
      StartsWith(s, d) && c !in d && (d == s || s[|d|] == c)
  {
    if s != [] && s[0] != c {
      SplitFirstPiece(s[1..], c);
    }
  }

  /** `parts.join(sep)`. */
  function Join(parts: seq<string>, sep: string): string {
    if |parts| == 0 then ""
    else if |parts| == 1 then parts[0]
    else parts[0] + sep + Join(parts[1..], sep)
  }

  lemma {:induction false} SplitNoSeparator(w: string, c: char)
    requires c !in w
    ensures Split(w, c) == [w]
  {
    if w != [] {
      SplitNoSeparator(w[1..], c);
      assert [w[0]] + w[1..] == w;
    }
  }

  lemma {:induction false} SplitAfterWord(w: string, c: char, t: string)
    requires c !in w
    ensures Split(w + [c] + t, c) == [w] + Split(t, c)
  {
    if w == [] {
      assert w + [c] + t == [c] + t;
      assert ([c] + t)[1..] == t;
    } else {
      var s := w + [c] + t;
      assert s[1..] == w[1..] + [c] + t;
      SplitAfterWord(w[1..], c, t);
      assert [w[0]] + w[1..] == w;
    }
  }

  /** Joining pieces free of the separator and splitting again gives the
      pieces back: this is why a line-by-line pass keeps the line count. */
  lemma {:induction false} SplitJoin(parts: seq<string>, c: char)
    requires |parts| >= 1
    requires forall k :: 0 <= k < |parts| ==> c !in parts[k]
    ensures Split(Join(parts, [c]), c) == parts
  {
    if |parts| == 1 {
      SplitNoSeparator(parts[0], c);
    } else {
      SplitJoin(parts[1..], c);
      SplitAfterWord(parts[0], c, Join(parts[1..], [c]));
      assert [parts[0]] + parts[1..] == parts;
    }
  }

  /** Splitting and joining again gives the string back. */
  lemma {:induction false} JoinSplit(s: string, c: char)
    ensures Join(Split(s, c), [c]) == s
  {
    if s != [] {
      JoinSplit(s[1..], c);
      var rest := Split(s[1..], c);
      if s[0] == c {
        assert Join([""] + rest, [c]) == "" + [c] + Join(rest, [c]);
        assert [s[0]] + s[1..] == s;
      } else {
        var r := [[s[0]] + rest[0]] + rest[1..];
        if |rest| == 1 {
          assert Join(r, [c]) == [s[0]] + rest[0];
        } else {
          assert r[1..] == rest[1..];
          assert Join(r, [c]) == [s[0]] + rest[0] + [c] + Join(rest[1..], [c]);
        }
        assert [s[0]] + s[1..] == s;
      }
    }
  }

  /** `s.replace(/\s+/g, "_")`: every maximal run of whitespace becomes one
      underscore. */
  function CollapseWhitespace(s: string): (r: string)
    ensures |r| <= |s|
    ensures NoSpace(r)
    decreases |s|
  {
    if s == [] then []
    else if IsSpace(s[0]) then "_" + CollapseWhitespace(TrimStart(s[1..]))
    else [s[0]] + CollapseWhitespace(s[1..])
  }

  /** The characters that are neither whitespace nor underscore, in order. */
  function Visible(s: string): string {
    if s == [] then []
    else (if IsSpace(s[0]) || s[0] == '_' then [] else [s[0]]) + Visible(s[1..])
  }

  lemma {:induction false} VisibleAllSpacePrefix(s: string, k: nat)
    requires k <= |s|
    requires forall i :: 0 <= i < k ==> IsSpace(s[i])
    ensures Visible(s) == Visible(s[k..])
  {
    if k > 0 {
      VisibleAllSpacePrefix(s[1..], k - 1);
      assert s[1..][k - 1..] == s[k..];
    }
  }

  /** Collapsing whitespace loses nothing else: apart from whitespace and
      underscores the name keeps every character, in order. */
  lemma {:induction false} CollapseKeepsVisible(s: string)
    ensures Visible(CollapseWhitespace(s)) == Visible(s)
    decreases |s|
  {
    if s != [] {
      if IsSpace(s[0]) {
        var t := TrimStart(s[1..]);
        CollapseKeepsVisible(t);
        var x := "_" + CollapseWhitespace(t);
        assert x[1..] == CollapseWhitespace(t);
        VisibleAllSpacePrefix(s[1..], |s[1..]| - |t|);
      } else {
        CollapseKeepsVisible(s[1..]);
        var x := [s[0]] + CollapseWhitespace(s[1..]);
        assert x[1..] == CollapseWhitespace(s[1..]);
      }
    }
  }

  /** A name without whitespace is left exactly as it is. */
  lemma {:induction false} CollapseNoSpace(s: string)
    requires NoSpace(s)
    ensures CollapseWhitespace(s) == s
  {
    if s != [] {
      CollapseNoSpace(s[1..]);
      assert [s[0]] + s[1..] == s;
    }
  }

  /** A prefix made only of whitespace disappears with the leading
      whitespace. */
  lemma {:induction false} TrimStartAllSpace(x: string, y: string)
    requires AllSpace(x)
    ensures TrimStart(x + y) == TrimStart(y)
  {
    if x == [] {
      assert x + y == y;
    } else {
      TailOfAppend(x, y);
      assert AllSpace(x[1..]) by {
        forall i | 0 <= i < |x| - 1 ensures IsSpace(x[1..][i]) {
          assert x[1..][i] == x[i + 1];
        }
      }
      TrimStartAllSpace(x[1..], y);
    }
  }

  /** Text after the first visible character is kept as it is. */
  lemma {:induction false} TrimStartVisible(x: string, y: string)
    requires !AllSpace(x)
    ensures TrimStart(x + y) == TrimStart(x) + y
  {
    TailOfAppend(x, y);
    if IsSpace(x[0]) {
      assert !AllSpace(x[1..]) by {
        var i :| 0 <= i < |x| && !IsSpace(x[i]);
        assert x[1..][i - 1] == x[i];
      }
      TrimStartVisible(x[1..], y);
    }
  }

  /** A run of whitespace becomes a single underscore, however long it is. */
  lemma CollapseRun(w: string)
    requires |w| > 0 && AllSpace(w)
    ensures CollapseWhitespace(w) == "_"
  {
    var rest := w[1..];
    assert AllSpace(rest) by {
      forall i | 0 <= i < |rest| ensures IsSpace(rest[i]) {
        assert rest[i] == w[i + 1];
      }
    }
    TrimStartAllSpace(rest, "");
    assert rest + "" == rest;
    CollapseSpaceHead(w);
  }

  /** Replacing runs works piece by piece as long as the cut does not fall
      inside a run of whitespace. */
  lemma {:induction false} CollapseAppend(x: string, y: string)
    requires x == [] || y == [] || !IsSpace(x[|x| - 1]) || !IsSpace(y[0])
    ensures CollapseWhitespace(x + y) == CollapseWhitespace(x) + CollapseWhitespace(y)
    decreases |x|, 1
  {
    if x == [] {
      assert x + y == y;
    } else if !IsSpace(x[0]) {
      assert (x + y)[0] == x[0] && (x + y)[1..] == x[1..] + y;
      CollapseAppend(x[1..], y);
    } else if AllSpace(x[1..]) {
      CollapseAppendRun(x, y);
    } else {
      CollapseAppendSpaceHead(x, y);
    }
  }

  /** The case of `CollapseAppend` where `x` is one run of whitespace: then
      `y` starts with a visible character, or is empty. */
  lemma CollapseAppendRun(x: string, y: string)
    requires x != [] && AllSpace(x)
    requires y == [] || !IsSpace(y[0])
    ensures CollapseWhitespace(x + y) == CollapseWhitespace(x) + CollapseWhitespace(y)
  {
    assert (x + y)[0] == x[0] && (x + y)[1..] == x[1..] + y;
    TrimStartAllSpace(x[1..], y);
    CollapseRun(x);
  }

  /** The case of `CollapseAppend` where `x` opens with whitespace and has a
      visible character later. */
  lemma CollapseAppendSpaceHead(x: string, y: string)
    requires x != [] && IsSpace(x[0]) && !AllSpace(x[1..])
    requires y == [] || !IsSpace(x[|x| - 1]) || !IsSpace(y[0])
    ensures CollapseWhitespace(x + y) == CollapseWhitespace(x) + CollapseWhitespace(y)
    decreases |x|, 0
  {
    var x1 := x[1..];
    var t := TrimStart(x1);
    assert |t| < |x| && t != [] && t[|t| - 1] == x[|x| - 1] by {
      TrimStartKeepsLast(x1);
      assert x1[|x1| - 1] == x[|x| - 1];
    }
    assert CollapseWhitespace(x) == "_" + CollapseWhitespace(t) by {
      CollapseSpaceHead(x);
    }
    assert CollapseWhitespace(x + y) == "_" + CollapseWhitespace(t + y) by {
      TailOfAppend(x, y);
      CollapseSpaceHead(x + y);
      TrimStartVisible(x1, y);
    }
    CollapseAppend(t, y);
    AppendAssoc3("_", CollapseWhitespace(t), CollapseWhitespace(y));
  }

  /** A string that is not all whitespace keeps its last character when its
      leading whitespace goes. */
  lemma TrimStartKeepsLast(s: string)
    requires !AllSpace(s)
    ensures TrimStart(s) != [] && TrimStart(s)[|TrimStart(s)| - 1] == s[|s| - 1]
  {
  }

  lemma TailOfAppend(x: string, y: string)
    requires x != []
    ensures (x + y)[0] == x[0] && (x + y)[1..] == x[1..] + y
  {
  }

  lemma CollapseSpaceHead(s: string)
    requires s != [] && IsSpace(s[0])
    ensures CollapseWhitespace(s) == "_" + CollapseWhitespace(TrimStart(s[1..]))
  {
  }

  function Digit(d: nat): (c: char)
    requires d < 10
    ensures '0' <= c <= '9'
  {
    ('0' as int + d) as char
  }

  /** Decimal rendering of a count, as a template literal shows a number. */
  function NatToString(n: nat): (r: string)
    ensures |r| >= 1
    ensures forall i :: 0 <= i < |r| ==> '0' <= r[i] <= '9'
    ensures DigitsValue(r) == n
    ensures r[0] != '0' || r == "0"
  {
    if n < 10 then
      var r := [Digit(n)];
      assert r[..0] == [];
      r
    else
      var head := NatToString(n / 10);
      var r := head + [Digit(n % 10)];
      assert r[..|r| - 1] == head;
      r
  }

  /** The number a string of decimal digits denotes. */
  function DigitsValue(s: string): nat
    requires forall i :: 0 <= i < |s| ==> '0' <= s[i] <= '9'
  {
    if s == [] then 0
    else DigitsValue(s[..|s| - 1]) * 10 + (s[|s| - 1] as int - '0' as int)
  }
}
