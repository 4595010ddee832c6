/** How JavaScript turns values into text in the handlers: template-literal
    interpolation of optional fields and numbers, `Array.prototype.join`, and a
    literal substring search that can stand in for `String.prototype.match`. */
module Text {
  import opened Wrappers

  /** Interpolating an absent field into a template literal yields `undefined`. */
  function Render(o: Option<string>): string
  {
    match o
    case None => "undefined"
    case Some(v) => v
  }

  /** JavaScript truthiness of an optional string: present and not empty. */
  predicate NonEmpty(o: Option<string>)
  {
    o.Some? && o.value != ""
  }

  /** JavaScript truthiness of an optional boolean. */
  predicate IsTrue(o: Option<bool>)
  {
    o == Some(true)
  }

  /** `${b}` for a boolean. */
  function BoolText(b: bool): string
  {
    if b then "true" else "false"
  }

  predicate IsDigit(c: char)
  {
    '0' <= c <= '9'
  }

  predicate AllDigits(s: string)
  {
    forall i :: 0 <= i < |s| ==> IsDigit(s[i])
  }

  function DigitChar(d: nat): (c: char)
    requires d < 10
    ensures IsDigit(c) && c as int - '0' as int == d
  {
    ('0' as int + d) as char
  }

  /** The decimal text of a port number, as `${port}` prints a non-negative integer:
      digits only, and no leading zero unless the number is zero. */
  function DecimalString(n: nat): (s: string)
    ensures |s| >= 1 && AllDigits(s)
    ensures s[0] == '0' ==> n == 0
    decreases n
  {
    if n < 10 then [DigitChar(n)] else DecimalString(n / 10) + [DigitChar(n % 10)]
  }

  /** The number a string of decimal digits denotes. */
  function DecimalValue(s: string): nat
    requires AllDigits(s)
  {
    if s == [] then 0
    else DecimalValue(s[..|s| - 1]) * 10 + (s[|s| - 1] as int - '0' as int)
  }

  /** Reading back the rendered port gives the port: distinct ports render distinctly. */
  lemma {:induction false} DecimalRoundTrip(n: nat)
    ensures DecimalValue(DecimalString(n)) == n
    decreases n
  {
    var s := DecimalString(n);
    if n >= 10 {
      DecimalRoundTrip(n / 10);
      assert s[..|s| - 1] == DecimalString(n / 10);
    }
  }

  /** `Array.prototype.join(sep)` on an array of strings. */
  function Join(lines: seq<string>, sep: string): string
  {
    if |lines| == 0 then ""
    else if |lines| == 1 then lines[0]
    else lines[0] + sep + Join(lines[1..], sep)
  }

  /** Splitting text at every newline; the inverse of joining with "\n". */
  function SplitLines(s: string): (r: seq<string>)
    ensures |r| >= 1
  {
    if s == [] then [""]
    else
      var rest := SplitLines(s[1..]);
      if s[0] == '\n' then [""] + rest else [[s[0]] + rest[0]] + rest[1..]
  }

  /** Text without a newline splits into itself. */
  lemma {:induction false} SplitSingleLine(a: string)
    requires '\n' !in a
    ensures SplitLines(a) == [a]
  {
    if a != [] {
      SplitSingleLine(a[1..]);
      assert [a[0]] + a[1..] == a;
    }
  }

  /** A newline-free head followed by a newline splits off as one line. */
  lemma {:induction false} SplitAtFirstNewline(a: string, b: string)
    requires '\n' !in a
    ensures SplitLines(a + "\n" + b) == [a] + SplitLines(b)
  {
    if a == [] {
      assert a + "\n" + b == "\n" + b;
      assert ("\n" + b)[1..] == b;
    } else {
      SplitAtFirstNewline(a[1..], b);
      assert (a + "\n" + b)[1..] == a[1..] + "\n" + b;
      assert [a[0]] + a[1..] == a;
    }
  }

  /** Joining newline-free lines with "\n" and splitting the text again gives the
      lines back: the separator adds no line and loses none. */
  lemma {:induction false} JoinSplitRoundTrip(lines: seq<string>)
    requires lines != []
    requires forall i :: 0 <= i < |lines| ==> '\n' !in lines[i]
    ensures SplitLines(Join(lines, "\n")) == lines
  {
    if |lines| == 1 {
      SplitSingleLine(lines[0]);
    } else {
      JoinSplitRoundTrip(lines[1..]);
      SplitAtFirstNewline(lines[0], Join(lines[1..], "\n"));
      assert [lines[0]] + lines[1..] == lines;
    }
  }

  /** Joined text is empty exactly when there is no line or a single empty line. */
  lemma {:induction false} JoinEmpty(lines: seq<string>, sep: string)
    requires sep != ""
    ensures Join(lines, sep) == "" <==> |lines| == 0 || (|lines| == 1 && lines[0] == "")
  {
    if |lines| > 1 {
      assert |Join(lines, sep)| >= |sep|;
    }
  }

  /** `pat` occurs somewhere in `s`: an unanchored, case-sensitive literal search. */
  predicate Contains(s: string, pat: string)
    decreases |s|
  {
    pat <= s || (s != [] && Contains(s[1..], pat))
  }

  lemma {:induction false} AppendAssoc(head: string, a: string, b: string, c: string)
    requires a == b + c
    ensures head + a == (head + b) + c
  {
  }

  lemma {:induction false} PrefixOf(a: string, b: string, whole: string)
    requires whole == a + b
    ensures a <= whole
  {
    assert whole[..|a|] == a;
  }

  lemma {:induction false} PrefixTransitive(a: string, b: string, c: string)
    requires a <= b && b <= c
    ensures a <= c
  {
    assert c[..|a|] == b[..|a|];
  }

  lemma {:induction false} PrefixUnderHead(head: string, a: string, b: string)
    requires a <= b
    ensures head + a <= head + b
  {
    assert (head + b)[..|head + a|] == head + a;
  }
}
