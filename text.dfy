/**
  String helpers the game uses on names: Python's `str.strip()` (with the
  whitespace set of `str.isspace`), `str.lower()` restricted to ASCII, and
  `str.join`.
 */
module Text {

  /** The characters Python's `str.isspace` accepts. */
  predicate IsSpace(c: char) {
    var n := c as int;
    (0x09 <= n <= 0x0D) || (0x1C <= n <= 0x20) || n == 0x85 || n == 0xA0 ||
    n == 0x1680 || (0x2000 <= n <= 0x200A) || n == 0x2028 || n == 0x2029 ||
    n == 0x202F || n == 0x205F || n == 0x3000
  }

  ghost predicate AllSpace(s: string) {
    forall i :: 0 <= i < |s| ==> IsSpace(s[i])
  }

  /** Leading whitespace removed. */
  function LStrip(s: string): string {
    if |s| > 0 && IsSpace(s[0]) then LStrip(s[1..]) else s
  }

  /** Trailing whitespace removed. */
  function RStrip(s: string): string {
    if |s| > 0 && IsSpace(s[|s| - 1]) then RStrip(s[..|s| - 1]) else s
  }

  /** Python's `s.strip()`. */
  function Strip(s: string): string {
    RStrip(LStrip(s))
  }

  lemma {:induction false} LStripEmptyIff(s: string)
    ensures LStrip(s) == [] <==> AllSpace(s)
    ensures LStrip(s) != [] ==> !IsSpace(LStrip(s)[0])
    decreases |s|
  {
    if |s| > 0 && IsSpace(s[0]) {
      LStripEmptyIff(s[1..]);
      if AllSpace(s[1..]) {
        forall i | 0 <= i < |s| ensures IsSpace(s[i]) {
          if i > 0 { assert s[i] == s[1..][i - 1]; }
        }
      }
      if AllSpace(s) {
        forall i | 0 <= i < |s| - 1 ensures IsSpace(s[1..][i]) {
          assert s[1..][i] == s[i + 1];
        }
      }
    }
  }

  lemma {:induction false} RStripOfNonSpaceHead(s: string)
    requires |s| > 0 && !IsSpace(s[0])
    ensures RStrip(s) != []
    decreases |s|
  {
    if IsSpace(s[|s| - 1]) {
      assert |s| > 1;
      assert s[..|s| - 1][0] == s[0];
      RStripOfNonSpaceHead(s[..|s| - 1]);
    }
  }

  /** A name survives `strip()` exactly when it holds a non-whitespace character. */
  lemma {:induction false} StripNonEmptyIff(s: string)
    ensures |Strip(s)| > 0 <==> exists i :: 0 <= i < |s| && !IsSpace(s[i])
  {
    LStripEmptyIff(s);
    if LStrip(s) != [] {
      RStripOfNonSpaceHead(LStrip(s));
    }
  }

  function LowerChar(c: char): char {
    if 'A' <= c <= 'Z' then (c as int + 32) as char else c
  }

  /** `str.lower()` on the ASCII letters; every other character is kept. */
  function Lower(s: string): (r: string)
    ensures |r| == |s|
  {
    seq(|s|, i requires 0 <= i < |s| => LowerChar(s[i]))
  }

  /** `sep.join(lines)`. */
  function Join(lines: seq<string>, sep: string): string {
    if |lines| == 0 then ""
    else if |lines| == 1 then lines[0]
    else lines[0] + sep + Join(lines[1..], sep)
  }
}
