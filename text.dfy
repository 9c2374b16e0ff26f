/**
 * String helpers of plywood's runtime that the modelled code relies on:
 * `StringView::startsWith`, `findByte`, `rtrim`/`trim`, `splitByte`, and the
 * column layout that every usage printer builds with `maxWidthOf` and a loop
 * of spaces.
 */
module Text {

  /** The characters `isWhite` accepts. */
  predicate IsWhite(c: char)
  {
    c == ' ' || c == '\t' || c == '\r' || c == '\n'
  }

  predicate StartsWith(s: string, prefix: string)
  {
    |prefix| <= |s| && s[..|prefix|] == prefix
  }

  /** `findByte(c, from)`: the first index at or after `from` holding `c`, or -1. */
  function FindByte(s: string, c: char, from: nat): (r: int)
    ensures r == -1 || (from <= r < |s| && s[r] == c)
    ensures forall i :: from <= i < |s| && (r == -1 || i < r) ==> s[i] != c
    decreases |s| - from
  {
    if from >= |s| then -1
    else if s[from] == c then from
    else FindByte(s, c, from + 1)
  }

  /** `rtrim(isWhite)`: removes the trailing white space. */
  function RTrim(s: string): (r: string)
    ensures |r| <= |s| && r == s[..|r|]
    ensures r == [] || !IsWhite(r[|r| - 1])
    ensures forall i :: |r| <= i < |s| ==> IsWhite(s[i])
  {
    if s == [] || !IsWhite(s[|s| - 1]) then s else RTrim(s[..|s| - 1])
  }

  /** `ltrim(isWhite)`: removes the leading white space. */
  function LTrim(s: string): (r: string)
    ensures |r| <= |s| && r == s[|s| - |r|..]
    ensures r == [] || !IsWhite(r[0])
    ensures forall i :: 0 <= i < |s| - |r| ==> IsWhite(s[i])
  {
    if s == [] || !IsWhite(s[0]) then s else LTrim(s[1..])
  }

  /** `trim(isWhite)`: both ends. */
  function Trim(s: string): (r: string)
    ensures r == [] || (!IsWhite(r[0]) && !IsWhite(r[|r| - 1]))
  {
    var l := LTrim(s);
    var r := RTrim(l);
    assert r != [] ==> r[0] == l[0];
    r
  }

  /** A value with a space before it and a line ending after it trims back to the value. */
  lemma TrimPadded(value: string)
    requires value == [] || (!IsWhite(value[0]) && !IsWhite(value[|value| - 1]))
    ensures Trim(" " + value + "\r\n") == value
  {
    if value == [] {
      assert " " + value + "\r\n" == " \r\n";
      assert LTrim(" \r\n") == "";
    } else {
      assert " " + value + "\r\n" == " " + (value + "\r\n");
      LTrimSpace(value + "\r\n");
      RTrimLineEnd(value);
    }
  }

  /** One leading space is trimmed off a text that does not start with white space. */
  lemma LTrimSpace(s: string)
    requires s != [] && !IsWhite(s[0])
    ensures LTrim(" " + s) == s
  {
    assert (" " + s)[1..] == s;
  }

  /** A line ending is trimmed off the right of a value that does not end in white space. */
  lemma RTrimLineEnd(value: string)
    requires value == [] || !IsWhite(value[|value| - 1])
    ensures RTrim(value + "\r\n") == value
  {
    var a := value + "\r\n";
    var b := value + "\r";
    assert a[..|a| - 1] == b && a[|a| - 1] == '\n';
    assert RTrim(a) == RTrim(b);
    assert b[..|b| - 1] == value && b[|b| - 1] == '\r';
    assert RTrim(b) == RTrim(value);
  }

  /**
   * `splitByte(sep)`: the maximal runs of characters other than `sep`, in
   * order; runs of separators produce no empty pieces.
   */
  function SplitByte(s: string, sep: char): (r: seq<string>)
    ensures forall i :: 0 <= i < |r| ==> r[i] != [] && sep !in r[i]
    decreases |s|
  {
    if s == [] then []
    else if s[0] == sep then SplitByte(s[1..], sep)
    else
      var k := FindByte(s, sep, 0);
      if k < 0 then [s] else [s[..k]] + SplitByte(s[k..], sep)
  }

  /** A piece followed by a separator is split off as the first token. */
  lemma {:induction false} SplitByteCons(a: string, sep: char, rest: string)
    requires a != [] && sep !in a
    ensures SplitByte(a + [sep] + rest, sep) == [a] + SplitByte(rest, sep)
  {
    var s := a + [sep] + rest;
    var k := FindByte(s, sep, 0);
    assert s[|a|] == sep;
    assert forall i :: 0 <= i < |a| ==> s[i] == a[i];
    assert k == |a|;
    assert s[..k] == a;
    assert s[k..] == [sep] + rest;
    assert ([sep] + rest)[1..] == rest;
  }

  /** A piece with no separator is one token. */
  lemma SplitByteSingle(a: string, sep: char)
    requires a != [] && sep !in a
    ensures SplitByte(a, sep) == [a]
  {
    assert FindByte(a, sep, 0) == -1;
  }

  /** Three separator-free pieces joined by single separators split back into those pieces. */
  lemma SplitByteThree(a: string, b: string, c: string, sep: char)
    requires a != [] && sep !in a
    requires b != [] && sep !in b
    requires c != [] && sep !in c
    ensures SplitByte(a + [sep] + b + [sep] + c, sep) == [a, b, c]
  {
    assert a + [sep] + b + [sep] + c == a + [sep] + (b + [sep] + c);
    SplitByteCons(a, sep, b + [sep] + c);
    SplitByteCons(b, sep, c);
    SplitByteSingle(c, sep);
  }

  /** `n` copies of `c`: the padding of the usage rows, the trailing slashes of a route. */
  function Repeat(c: char, n: nat): (r: string)
    ensures |r| == n && forall i :: 0 <= i < n ==> r[i] == c
  {
    seq(n, _ => c)
  }

  /** `maxWidthOf(items, width)`: the largest width among the items, 0 when there are none. */
  method MaxWidthOf<T>(items: seq<T>, width: T -> nat) returns (m: nat)
    ensures forall i :: 0 <= i < |items| ==> width(items[i]) <= m
    ensures items == [] ==> m == 0
    ensures items != [] ==> exists i :: 0 <= i < |items| && width(items[i]) == m
  {
    m := 0;
    for i := 0 to |items|
      invariant forall j :: 0 <= j < i ==> width(items[j]) <= m
      invariant i == 0 ==> m == 0
      invariant i > 0 ==> exists j :: 0 <= j < i && width(items[j]) == m
    {
      m := if width(items[i]) > m then width(items[i]) else m;
    }
  }

  /**
   * The left column of a usage listing: every entry is followed by spaces up
   * to two more than the widest entry, one space per loop turn.
   */
  method PadColumn(lefts: seq<string>) returns (width: nat, padded: seq<string>)
    ensures lefts == [] ==> width == 2
    ensures forall i :: 0 <= i < |lefts| ==> |lefts[i]| + 2 <= width
    ensures lefts != [] ==> exists i :: 0 <= i < |lefts| && |lefts[i]| + 2 == width
    ensures |padded| == |lefts|
    ensures forall i :: 0 <= i < |lefts| ==>
      |padded[i]| == width && padded[i][..|lefts[i]|] == lefts[i] &&
      forall j :: |lefts[i]| <= j < width ==> padded[i][j] == ' '
  {
    var maxWidth := MaxWidthOf(lefts, (s: string) => |s|);
    width := maxWidth + 2;
    padded := [];
    for k := 0 to |lefts|
      invariant |padded| == k
      invariant forall i :: 0 <= i < k ==>
        |padded[i]| == width && padded[i][..|lefts[i]|] == lefts[i] &&
        forall j :: |lefts[i]| <= j < width ==> padded[i][j] == ' '
    {
      var row := lefts[k];
      for n := 0 to width - |lefts[k]|
        invariant |row| == |lefts[k]| + n
        invariant row[..|lefts[k]|] == lefts[k]
        invariant forall j :: |lefts[k]| <= j < |row| ==> row[j] == ' '
      {
        row := row + " ";
      }
      padded := padded + [row];
    }
  }

  /**
   * A name-and-description listing (commands, arguments): two spaces, the name
   * padded to the longest name plus two, then the description, so every
   * description starts in the same column.
   */
  method NameRows(names: seq<string>, descriptions: seq<string>) returns (rows: seq<string>, column: nat)
    requires |names| == |descriptions|
    ensures |rows| == |names|
    ensures names != [] ==> exists i :: 0 <= i < |names| && column == |names[i]| + 4
    ensures forall i :: 0 <= i < |rows| ==>
        && |names[i]| + 4 <= column <= |rows[i]|
        && rows[i][..column] == "  " + names[i] + Repeat(' ', column - 2 - |names[i]|)
        && rows[i][column..] == descriptions[i]
  {
    var width, padded := PadColumn(names);
    rows := [];
    for k := 0 to |names|
      invariant |rows| == k
      invariant forall i :: 0 <= i < k ==>
        && |rows[i]| == width + 2 + |descriptions[i]|
        && rows[i][..width + 2] == "  " + names[i] + Repeat(' ', width - |names[i]|)
        && rows[i][width + 2..] == descriptions[i]
    {
      assert padded[k] == names[k] + Repeat(' ', width - |names[k]|);
      rows := rows + ["  " + padded[k] + descriptions[k]];
    }
    column := width + 2;
  }

  /**
   * A listing whose left column is already labelled (flags, options): each
   * label padded to the longest label plus two, then the description.
   */
  method LabelRows(labels: seq<string>, descriptions: seq<string>) returns (rows: seq<string>, column: nat)
    requires |labels| == |descriptions|
    ensures |rows| == |labels|
    ensures labels != [] ==> exists i :: 0 <= i < |labels| && column == |labels[i]| + 2
    ensures forall i :: 0 <= i < |rows| ==>
        && |labels[i]| + 2 <= column <= |rows[i]|
        && rows[i][..column] == labels[i] + Repeat(' ', column - |labels[i]|)
        && rows[i][column..] == descriptions[i]
  {
    var width, padded := PadColumn(labels);
    rows := [];
    for k := 0 to |labels|
      invariant |rows| == k
      invariant forall i :: 0 <= i < k ==>
        && |rows[i]| == width + |descriptions[i]|
        && rows[i][..width] == labels[i] + Repeat(' ', width - |labels[i]|)
        && rows[i][width..] == descriptions[i]
    {
      assert padded[k] == labels[k] + Repeat(' ', width - |labels[k]|);
      rows := rows + [padded[k] + descriptions[k]];
    }
    column := width;
  }

  /** The elements of `s` back to front (`std::reverse`). */
  function Reversed<T>(s: seq<T>): (r: seq<T>)
    ensures |r| == |s|
    ensures forall i :: 0 <= i < |s| ==> r[i] == s[|s| - 1 - i]
  {
    if s == [] then [] else Reversed(s[1..]) + [s[0]]
  }

  /** `order` lists each element of `keys` exactly once: one pass over a hash map. */
  predicate Enumerates<T(==)>(order: seq<T>, keys: set<T>)
  {
    Distinct(order) && (forall i :: 0 <= i < |order| ==> order[i] in keys) && (forall k :: k in keys ==> k in order)
  }

  /** The digit character for `d`. */
  function Digit(d: nat): (c: char)
    requires d < 10
    ensures '0' <= c <= '9' && c as int - '0' as int == d
  {
    ('0' as int + d) as char
  }

  /** A number written in decimal, as `format("{}", n)` writes an unsigned integer. */
  function Decimal(n: nat): (r: string)
    ensures r != [] && forall i :: 0 <= i < |r| ==> '0' <= r[i] <= '9'
    ensures n > 0 ==> r[0] != '0'
  {
    if n < 10 then [Digit(n)] else Decimal(n / 10) + [Digit(n % 10)]
  }

  /** The number a string of decimal digits stands for. */
  function DecimalValue(s: string): nat
    requires forall i :: 0 <= i < |s| ==> '0' <= s[i] <= '9'
  {
    if s == [] then 0 else DecimalValue(s[..|s| - 1]) * 10 + (s[|s| - 1] as int - '0' as int)
  }

  /** Reading a written number back gives the number. */
  lemma {:induction false} DecimalRoundTrip(n: nat)
    ensures DecimalValue(Decimal(n)) == n
  {
    if n >= 10 {
      var s := Decimal(n);
      assert s[..|s| - 1] == Decimal(n / 10);
      DecimalRoundTrip(n / 10);
    }
  }

  /** No element occurs twice. */
  predicate Distinct<T(==)>(s: seq<T>)
  {
    forall i, j :: 0 <= i < j < |s| ==> s[i] != s[j]
  }

  /** Every argv token has a first character (`arg[0]` is read). */
  predicate NonEmptyTokens(toks: seq<string>)
  {
    forall i :: 0 <= i < |toks| ==> toks[i] != []
  }

  /** The tokens that do not start with `-`, in order: the ones matched against sub-commands. */
  function PlainTokens(toks: seq<string>): (r: seq<string>)
    requires NonEmptyTokens(toks)
  {
    if toks == [] then []
    else PlainTokens(toks[..|toks| - 1]) + (if toks[|toks| - 1][0] != '-' then [toks[|toks| - 1]] else [])
  }

  lemma PlainTokensSnoc(toks: seq<string>, t: string)
    requires NonEmptyTokens(toks) && t != []
    ensures NonEmptyTokens(toks + [t])
    ensures PlainTokens(toks + [t]) == PlainTokens(toks) + (if t[0] != '-' then [t] else [])
  {
    assert (toks + [t])[..|toks|] == toks;
  }

  /** The token at `i` is the next word when it does not start with `-`, and is skipped when it does. */
  lemma NextToken(toks: seq<string>, i: nat)
    requires NonEmptyTokens(toks) && i < |toks|
    ensures NonEmptyTokens(toks[..i]) && NonEmptyTokens(toks[..i + 1])
    ensures var k := |PlainTokens(toks[..i])|;
      if toks[i][0] != '-' then
        k < |PlainTokens(toks)| && PlainTokens(toks)[k] == toks[i] && |PlainTokens(toks[..i + 1])| == k + 1
      else |PlainTokens(toks[..i + 1])| == k
  {
    assert toks[..i + 1] == toks[..i] + [toks[i]];
    assert toks == toks[..i + 1] + toks[i + 1..];
    PlainTokensSnoc(toks[..i], toks[i]);
    PlainTokensAppend(toks[..i + 1], toks[i + 1..]);
  }

  lemma {:induction false} PlainTokensAppend(a: seq<string>, b: seq<string>)
    requires NonEmptyTokens(a) && NonEmptyTokens(b)
    ensures NonEmptyTokens(a + b)
    ensures PlainTokens(a + b) == PlainTokens(a) + PlainTokens(b)
  {
    if b != [] {
      var n := |b| - 1;
      assert (a + b)[..|a + b| - 1] == a + b[..n];
      assert b[..n] + [b[n]] == b;
      PlainTokensAppend(a, b[..n]);
    } else {
      assert a + b == a;
    }
  }
}
