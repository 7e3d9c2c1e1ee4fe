/**
 * String helpers shared by the resource-name, CIDR and kubeconfig models:
 * decimal rendering of Python's `f"{i}"`, and a line view of rendered
 * documents together with the two predicates used to state their content.
 */
module Text {

  import opened Wrappers

  // ---------------------------------------------------------------------------
  // Decimal rendering of a natural number, as Python's `str(i)` does it
  // ---------------------------------------------------------------------------

  predicate IsDigit(c: char) { '0' <= c <= '9' }

  predicate AllDigits(s: string) { forall i :: 0 <= i < |s| ==> IsDigit(s[i]) }

  function DigitChar(d: nat): (c: char)
    requires d < 10
    ensures IsDigit(c)
  {
    ['0', '1', '2', '3', '4', '5', '6', '7', '8', '9'][d]
  }

  function DigitValue(c: char): nat
    requires IsDigit(c)
  {
    (c - '0') as nat
  }

  lemma DigitValueOfDigitChar(d: nat)
    requires d < 10
    ensures DigitValue(DigitChar(d)) == d
  {
  }

  /** The shortest decimal numeral of `n`: no leading zeros, "0" for zero. */
  function Decimal(n: nat): (s: string)
    ensures |s| > 0 && AllDigits(s)
  {
    if n < 10 then [DigitChar(n)] else Decimal(n / 10) + [DigitChar(n % 10)]
  }

  /** Reads a non-empty run of digits back as a number. */
  function ParseDecimal(s: string): nat
    requires |s| > 0 && AllDigits(s)
    decreases |s|
  {
    if |s| == 1 then DigitValue(s[0])
    else 10 * ParseDecimal(s[..|s| - 1]) + DigitValue(s[|s| - 1])
  }

  /** Reading a rendered numeral gives back the number it was rendered from. */
  lemma {:induction false} ParseDecimalOfDecimal(n: nat)
    ensures ParseDecimal(Decimal(n)) == n
  {
    if n < 10 {
      DigitValueOfDigitChar(n);
    } else {
      var s := Decimal(n);
      assert s[..|s| - 1] == Decimal(n / 10);
      ParseDecimalOfDecimal(n / 10);
      DigitValueOfDigitChar(n % 10);
    }
  }

  /** Distinct numbers render to distinct numerals. */
  lemma DecimalInjective(a: nat, b: nat)
    ensures Decimal(a) == Decimal(b) ==> a == b
  {
    ParseDecimalOfDecimal(a);
    ParseDecimalOfDecimal(b);
  }

  // ---------------------------------------------------------------------------
  // Prefixes
  // ---------------------------------------------------------------------------

  predicate StartsWith(s: string, prefix: string)
  {
    |prefix| <= |s| && s[..|prefix|] == prefix
  }

  lemma PrefixCancel(p: string, a: string, b: string)
    ensures p + a == p + b ==> a == b
  {
    if p + a == p + b {
      assert a == (p + a)[|p|..];
      assert b == (p + b)[|p|..];
    }
  }

  lemma SuffixCancel(a: string, b: string, s: string)
    ensures a + s == b + s ==> a == b
  {
    if a + s == b + s {
      assert a == (a + s)[..|a|];
      assert b == (b + s)[..|b|];
    }
  }

  // ---------------------------------------------------------------------------
  // Line view of a rendered document
  // ---------------------------------------------------------------------------

  predicate NoNewline(s: string) { '\n' !in s }

  lemma NoNewlineAppend(a: string, b: string)
    requires NoNewline(a) && NoNewline(b)
    ensures NoNewline(a + b)
  {
    assert forall k :: 0 <= k < |a + b| ==> (a + b)[k] == if k < |a| then a[k] else b[k - |a|];
  }

  /** Writes each line followed by a line feed. */
  function JoinLines(lines: seq<string>): string
  {
    if lines == [] then "" else lines[0] + "\n" + JoinLines(lines[1..])
  }

  /** A joined document starts with its first line and a line feed, and ends with a line feed. */
  lemma {:induction false} JoinLinesEnds(lines: seq<string>)
    requires lines != []
    ensures |JoinLines(lines)| > |lines[0]|
    ensures JoinLines(lines)[..|lines[0]| + 1] == lines[0] + "\n"
    ensures JoinLines(lines)[|JoinLines(lines)| - 1] == '\n'
  {
    var rest := JoinLines(lines[1..]);
    assert JoinLines(lines) == (lines[0] + "\n") + rest;
    if lines[1..] != [] {
      JoinLinesEnds(lines[1..]);
    }
  }

  /**
   * Splits a text at its line feeds. Every line feed ends one line; text after
   * the last line feed, if any, forms a final line.
   */
  function Lines(s: string): (lines: seq<string>)
    ensures s != "" ==> lines != []
  {
    if s == "" then []
    else if s[0] == '\n' then [""] + Lines(s[1..])
    else
      var rest := Lines(s[1..]);
      if rest == [] then [[s[0]]] else [[s[0]] + rest[0]] + rest[1..]
  }

  lemma {:induction false} LinesOfLine(line: string, tail: string)
    requires NoNewline(line)
    ensures Lines(line + "\n" + tail) == [line] + Lines(tail)
  {
    if line == "" {
      assert line + "\n" + tail == ['\n'] + tail;
    } else {
      var s := line + "\n" + tail;
      assert s[0] == line[0];
      assert s[1..] == line[1..] + "\n" + tail;
      LinesOfLine(line[1..], tail);
      assert [s[0]] + line[1..] == line;
    }
  }

  /** Splitting a joined document gives back its lines, provided no line holds a line feed. */
  lemma {:induction false} LinesOfJoinLines(lines: seq<string>)
    requires forall l :: l in lines ==> NoNewline(l)
    ensures Lines(JoinLines(lines)) == lines
  {
    if lines != [] {
      LinesOfLine(lines[0], JoinLines(lines[1..]));
      LinesOfJoinLines(lines[1..]);
    }
  }

  // ---------------------------------------------------------------------------
  // Content predicates over a document's lines
  // ---------------------------------------------------------------------------

  /** Every line of `lines` that carries the key `key` carries the value `value`. */
  predicate ValuesAre(lines: seq<string>, key: string, value: string)
  {
    forall l {:trigger StartsWith(l, key)} :: l in lines && StartsWith(l, key) ==> l == key + value
  }

  /**
   * The key `key` (a line prefix, indentation included) occurs in `lines`,
   * and every line carrying it carries the value `value`.
   */
  predicate KeyHasValue(lines: seq<string>, key: string, value: string)
  {
    (key + value) in lines && ValuesAre(lines, key, value)
  }

  /** No line of `lines` carries the key `key`. */
  predicate KeyAbsent(lines: seq<string>, key: string)
  {
    forall l :: l in lines ==> !StartsWith(l, key)
  }

  /** A line carrying a key agrees with it at each of the key's positions. */
  lemma PrefixChar(s: string, prefix: string, i: nat)
    requires i < |prefix|
    ensures StartsWith(s, prefix) ==> i < |s| && s[i] == prefix[i]
  {
    if StartsWith(s, prefix) {
      assert s[..|prefix|][i] == s[i];
    }
  }

  /**
   * Two positions `i` and `j` of a key act as its signature: a line that
   * agrees with the key at both positions is the key's own line, so every
   * line carrying the key carries `value`.
   */
  lemma BySignature(lines: seq<string>, key: string, value: string, i: nat, j: nat, ci: char, cj: char)
    requires i < |key| && j < |key| && key[i] == ci && key[j] == cj
    requires forall l :: l in lines && i < |l| && j < |l| && l[i] == ci && l[j] == cj ==> l == key + value
    ensures ValuesAre(lines, key, value)
  {
    forall l | l in lines && StartsWith(l, key)
      ensures l == key + value
    {
      PrefixChar(l, key, i);
      PrefixChar(l, key, j);
    }
  }

  /** No line agrees with the key at both signature positions, so none carries it. */
  lemma AbsentBySignature(lines: seq<string>, key: string, i: nat, j: nat, ci: char, cj: char)
    requires i < |key| && j < |key| && key[i] == ci && key[j] == cj
    requires forall l :: l in lines && i < |l| && j < |l| ==> l[i] != ci || l[j] != cj
    ensures KeyAbsent(lines, key)
  {
    forall l | l in lines
      ensures !StartsWith(l, key)
    {
      PrefixChar(l, key, i);
      PrefixChar(l, key, j);
    }
  }
}
