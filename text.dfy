/**
 * String helpers the statement builder relies on: Go's `strings.TrimSpace`,
 * `strings.Join`, the package's `trim` helper (which strips the ", "
 * separator that every accumulation loop leaves behind) and `%d`
 * formatting of integers.
 */
module Text {

  /** Go's `unicode.IsSpace`, the predicate `strings.TrimSpace` strips. */
  predicate IsSpace(c: char) {
    || c == ' ' || c == '\t' || c == '\n' || c == '\r' || c == '\U{0B}' || c == '\U{0C}'
    || c == '\U{85}' || c == '\U{A0}' || c == '\U{1680}'
    || ('\U{2000}' <= c <= '\U{200A}')
    || c == '\U{2028}' || c == '\U{2029}' || c == '\U{202F}' || c == '\U{205F}' || c == '\U{3000}'
  }

  function TrimLeft(s: string): string {
    if |s| > 0 && IsSpace(s[0]) then TrimLeft(s[1..]) else s
  }

  function TrimRight(s: string): string {
    if |s| > 0 && IsSpace(s[|s| - 1]) then TrimRight(s[..|s| - 1]) else s
  }

  /** Go's `strings.TrimSpace`: the longest infix without white space at either end. */
  function TrimSpace(s: string): string {
    TrimRight(TrimLeft(s))
  }

  /** Go's `strings.Join`. */
  function Join(parts: seq<string>, sep: string): string {
    if |parts| == 0 then ""
    else if |parts| == 1 then parts[0]
    else Join(parts[..|parts| - 1], sep) + sep + parts[|parts| - 1]
  }

  /** What the accumulation loops build: every part followed by ", ". */
  function Terminated(parts: seq<string>): string {
    if |parts| == 0 then "" else Terminated(parts[..|parts| - 1]) + parts[|parts| - 1] + ", "
  }

  /**
   * The package helper `trim` (defined elsewhere in the package, not in wrapper.go),
   * assumed to drop the trailing ", " separator and then the surrounding
   * white space.
   */
  function Trim(s: string): string {
    TrimSpace(if |s| >= 2 && s[|s| - 2] == ',' && s[|s| - 1] == ' ' then s[..|s| - 2] else s)
  }

  /** Number of positional placeholders `?` in a text. */
  function Marks(s: string): nat {
    if |s| == 0 then 0 else Marks(s[..|s| - 1]) + (if s[|s| - 1] == '?' then 1 else 0)
  }

  lemma {:induction false} MarksCat(a: string, b: string)
    ensures Marks(a + b) == Marks(a) + Marks(b)
  {
    if |b| == 0 {
      assert a + b == a;
    } else {
      assert (a + b)[..|a + b| - 1] == a + b[..|b| - 1];
      MarksCat(a, b[..|b| - 1]);
    }
  }

  lemma Marks3(a: string, b: string, c: string)
    ensures Marks(a + b + c) == Marks(a) + Marks(b) + Marks(c)
  {
    MarksCat(a, b);
    MarksCat(a + b, c);
  }

  /** A text without a `?` holds no placeholder. */
  lemma {:induction false} NoMarks(s: string)
    requires '?' !in s
    ensures Marks(s) == 0
  {
    if |s| > 0 {
      NoMarks(s[..|s| - 1]);
    }
  }

  /** A text holds no placeholder exactly when it has no `?`. */
  lemma {:induction false} MarksZero(s: string)
    ensures Marks(s) == 0 <==> '?' !in s
  {
    if |s| > 0 {
      var front := s[..|s| - 1];
      MarksZero(front);
      assert s == front + [s[|s| - 1]];
    }
  }

  /** Joining texts without `?` by a separator without `?` gives a text without `?`. */
  lemma {:induction false} JoinUnmarked(parts: seq<string>, sep: string)
    requires '?' !in sep
    requires forall k :: 0 <= k < |parts| ==> '?' !in parts[k]
    ensures '?' !in Join(parts, sep)
  {
    if |parts| > 1 {
      JoinUnmarked(parts[..|parts| - 1], sep);
    }
  }

  lemma {:induction false} TerminatedIsJoin(parts: seq<string>)
    requires |parts| > 0
    ensures Terminated(parts) == Join(parts, ", ") + ", "
  {
    if |parts| > 1 {
      TerminatedIsJoin(parts[..|parts| - 1]);
    }
  }

  /** `trim` applied to a ", "-terminated accumulation is TrimSpace of the joined parts. */
  lemma TrimTerminated(prefix: string, parts: seq<string>)
    requires |parts| > 0 || prefix == ""
    ensures Trim(prefix + Terminated(parts)) == TrimSpace(prefix + Join(parts, ", "))
  {
    if |parts| > 0 {
      TerminatedIsJoin(parts);
      var body := prefix + Join(parts, ", ");
      var t := body + ", ";
      assert prefix + Terminated(parts) == t;
      assert t[..|t| - 2] == body;
    } else {
      assert prefix + Terminated(parts) == "";
    }
  }

  lemma {:induction false} TrimLeftMarks(s: string)
    ensures Marks(TrimLeft(s)) == Marks(s)
  {
    if |s| > 0 && IsSpace(s[0]) {
      assert s == [s[0]] + s[1..];
      MarksCat([s[0]], s[1..]);
      TrimLeftMarks(s[1..]);
    }
  }

  lemma {:induction false} TrimRightMarks(s: string)
    ensures Marks(TrimRight(s)) == Marks(s)
  {
    if |s| > 0 && IsSpace(s[|s| - 1]) {
      TrimRightMarks(s[..|s| - 1]);
    }
  }

  /** TrimSpace only removes white space, never a placeholder. */
  lemma TrimSpaceMarks(s: string)
    ensures Marks(TrimSpace(s)) == Marks(s)
  {
    TrimLeftMarks(s);
    TrimRightMarks(TrimLeft(s));
  }

  /** A text that neither starts nor ends with white space is its own TrimSpace. */
  lemma TrimSpaceKeeps(s: string)
    requires s == [] || (!IsSpace(s[0]) && !IsSpace(s[|s| - 1]))
    ensures TrimSpace(s) == s
  {
  }

  /** TrimSpace of a text with inner edges that are not white space drops exactly the trailing blanks. */
  lemma {:induction false} TrimSpaceDropsTrailing(s: string, blanks: string)
    requires s == [] || (!IsSpace(s[0]) && !IsSpace(s[|s| - 1]))
    requires forall i :: 0 <= i < |blanks| ==> IsSpace(blanks[i])
    ensures TrimSpace(s + blanks) == s
  {
    if s == [] {
      assert s + blanks == blanks;
      TrimLeftAllBlank(blanks);
    } else {
      assert TrimLeft(s + blanks) == s + blanks;
      TrimRightBlanks(s, blanks);
    }
  }

  lemma {:induction false} TrimLeftAllBlank(blanks: string)
    requires forall i :: 0 <= i < |blanks| ==> IsSpace(blanks[i])
    ensures TrimLeft(blanks) == ""
  {
    if |blanks| > 0 {
      TrimLeftAllBlank(blanks[1..]);
    }
  }

  lemma {:induction false} TrimRightBlanks(s: string, blanks: string)
    requires s != [] && !IsSpace(s[|s| - 1])
    requires forall i :: 0 <= i < |blanks| ==> IsSpace(blanks[i])
    ensures TrimRight(s + blanks) == s
  {
    if |blanks| == 0 {
      assert s + blanks == s;
    } else {
      var shorter := blanks[..|blanks| - 1];
      assert (s + blanks)[..|s + blanks| - 1] == s + shorter;
      TrimRightBlanks(s, shorter);
    }
  }

  lemma {:induction false} TrimLeftEdge(s: string)
    ensures TrimLeft(s) == [] || !IsSpace(TrimLeft(s)[0])
  {
    if |s| > 0 && IsSpace(s[0]) {
      TrimLeftEdge(s[1..]);
    }
  }

  lemma {:induction false} TrimRightEdge(s: string)
    ensures |TrimRight(s)| <= |s| && TrimRight(s) == s[..|TrimRight(s)|]
    ensures TrimRight(s) == [] || !IsSpace(TrimRight(s)[|TrimRight(s)| - 1])
  {
    if |s| > 0 && IsSpace(s[|s| - 1]) {
      TrimRightEdge(s[..|s| - 1]);
    }
  }

  /** TrimSpace leaves nothing, or a text that neither starts nor ends with white space. */
  lemma TrimSpaceEdges(s: string)
    ensures TrimSpace(s) == [] || (!IsSpace(TrimSpace(s)[0]) && !IsSpace(TrimSpace(s)[|TrimSpace(s)| - 1]))
  {
    TrimLeftEdge(s);
    TrimRightEdge(TrimLeft(s));
  }

  /** TrimRight keeps every prefix that ends in a non-blank. */
  lemma {:induction false} TrimRightKeeps(s: string, n: nat)
    requires 0 < n <= |s| && !IsSpace(s[n - 1])
    ensures |TrimRight(s)| >= n && TrimRight(s)[..n] == s[..n]
  {
    if IsSpace(s[|s| - 1]) {
      var front := s[..|s| - 1];
      TrimRightKeeps(front, n);
      assert front[..n] == s[..n];
    }
  }

  /** The last character of a join is the last character of its last part, when that part is not empty. */
  lemma JoinLast(parts: seq<string>, sep: string)
    requires |parts| > 0 && |parts[|parts| - 1]| > 0
    ensures |Join(parts, sep)| > 0
    ensures Join(parts, sep)[|Join(parts, sep)| - 1] == parts[|parts| - 1][|parts[|parts| - 1]| - 1]
  {
  }

  /** Placeholders of a joined list are those of its parts (when the separator has none). */
  lemma {:induction false} JoinMarks(parts: seq<string>, sep: string, total: nat)
    requires Marks(sep) == 0
    requires total == SumMarks(parts)
    ensures Marks(Join(parts, sep)) == total
  {
    if |parts| == 1 {
      assert parts[..0] == [];
    } else if |parts| > 1 {
      var front := parts[..|parts| - 1];
      JoinMarks(front, sep, SumMarks(front));
      Marks3(Join(front, sep), sep, parts[|parts| - 1]);
    }
  }

  function SumMarks(parts: seq<string>): nat {
    if |parts| == 0 then 0 else SumMarks(parts[..|parts| - 1]) + Marks(parts[|parts| - 1])
  }

  // ----- decimal formatting (`%d`) -----

  function DigitChar(d: nat): char
    requires d < 10
  {
    "0123456789"[d]
  }

  function DigitValue(c: char): nat {
    if '0' <= c <= '9' then (c as int - '0' as int) as nat else 0
  }

  function NatToString(n: nat): (r: string)
    ensures |r| > 0 && forall i :: 0 <= i < |r| ==> '0' <= r[i] <= '9'
  {
    if n < 10 then [DigitChar(n)] else NatToString(n / 10) + [DigitChar(n % 10)]
  }

  /** Go's `%d` rendering of an int. */
  function IntToString(i: int): string {
    if i < 0 then "-" + NatToString(-i) else NatToString(i)
  }

  /** Value of a decimal digit string, the inverse of NatToString. */
  function NatValue(s: string): nat {
    if |s| == 0 then 0 else NatValue(s[..|s| - 1]) * 10 + DigitValue(s[|s| - 1])
  }

  /** Value of an optionally signed decimal, the inverse of IntToString. */
  function IntValue(s: string): int {
    if |s| > 0 && s[0] == '-' then -(NatValue(s[1..]) as int) else NatValue(s)
  }

  lemma {:induction false} NatRoundTrip(n: nat)
    ensures NatValue(NatToString(n)) == n
  {
    if n >= 10 {
      var front := NatToString(n / 10);
      var s := front + [DigitChar(n % 10)];
      assert s[..|s| - 1] == front;
      NatRoundTrip(n / 10);
      assert DigitValue(DigitChar(n % 10)) == n % 10;
    } else {
      assert NatToString(n)[..0] == "";
    }
  }

  /** `%d` is injective: the rendered decimal gives the integer back. */
  lemma IntRoundTrip(i: int)
    ensures IntValue(IntToString(i)) == i
    ensures Marks(IntToString(i)) == 0
  {
    var digits := NatToString(if i < 0 then -i else i);
    assert '0' <= digits[0] <= '9';
    if i < 0 {
      NatRoundTrip(-i);
      SignedValue(digits);
    } else {
      NatRoundTrip(i);
      UnsignedValue(digits);
    }
    IntUnmarked(i);
  }

  lemma SignedValue(digits: string)
    ensures IntValue("-" + digits) == -(NatValue(digits) as int)
  {
    assert ("-" + digits)[1..] == digits;
  }

  lemma UnsignedValue(digits: string)
    requires |digits| > 0 && digits[0] != '-'
    ensures IntValue(digits) == NatValue(digits)
  {
  }

  lemma IntUnmarked(i: int)
    ensures Marks(IntToString(i)) == 0
  {
    var digits := NatToString(if i < 0 then -i else i);
    DigitsUnmarked(digits);
    if i < 0 {
      NoMarks("-");
      MarksCat("-", digits);
    }
  }

  lemma DigitsUnmarked(digits: string)
    requires forall k :: 0 <= k < |digits| ==> '0' <= digits[k] <= '9'
    ensures Marks(digits) == 0
  {
    NoMarks(digits);
  }
}
