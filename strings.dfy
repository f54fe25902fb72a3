/** The handful of Python `str` operations the system relies on (`strip`,
    `lower`, `split`, `split()` on whitespace, `int()`, `str()` of an
    integer), restricted to ASCII, with the laws the rest of the model uses. */
module Strings {
  import opened Results

  /** Characters Python's `str.isspace` accepts in the ASCII range:
      tab, line feed, vertical tab, form feed, carriage return,
      the four separators 0x1C..0x1F, and space. */
  predicate IsSpace(c: char) {
    c == ' ' || ('\t' <= c <= '\r') || ('\U{1C}' <= c <= '\U{1F}')
  }

  predicate AllSpace(s: string) {
    forall i :: 0 <= i < |s| ==> IsSpace(s[i])
  }

  predicate NoSpace(s: string) {
    forall i :: 0 <= i < |s| ==> !IsSpace(s[i])
  }

  /** Neither end of `s` is whitespace. */
  predicate Stripped(s: string) {
    s == [] || (!IsSpace(s[0]) && !IsSpace(s[|s| - 1]))
  }

  function TrimLeft(s: string): (r: string)
    ensures |r| <= |s|
    ensures r == [] || !IsSpace(r[0])
  {
    if |s| > 0 && IsSpace(s[0]) then TrimLeft(s[1..]) else s
  }

  /** `TrimLeft` removes a run of whitespace from the front. */
  lemma {:induction false} TrimLeftSlice(s: string)
    ensures TrimLeft(s) == s[|s| - |TrimLeft(s)|..]
    ensures AllSpace(s[..|s| - |TrimLeft(s)|])
  {
    if |s| > 0 && IsSpace(s[0]) {
      TrimLeftSlice(s[1..]);
      var r := TrimLeft(s[1..]);
      assert s[1..][..|s[1..]| - |r|] == s[1..|s| - |r|];
    }
  }

  function TrimRight(s: string): (r: string)
    ensures |r| <= |s|
    ensures r == [] || !IsSpace(r[|r| - 1])
  {
    if |s| > 0 && IsSpace(s[|s| - 1]) then TrimRight(s[..|s| - 1]) else s
  }

  /** `TrimRight` removes a run of whitespace from the back. */
  lemma {:induction false} TrimRightSlice(s: string)
    ensures TrimRight(s) == s[..|TrimRight(s)|]
    ensures AllSpace(s[|TrimRight(s)|..])
  {
    if |s| > 0 && IsSpace(s[|s| - 1]) {
      TrimRightSlice(s[..|s| - 1]);
      var r := TrimRight(s[..|s| - 1]);
      assert s[..|s| - 1][|r|..] == s[|r|..|s| - 1];
    }
  }

  /** `str.strip()`: drop leading and trailing whitespace. */
  function Strip(s: string): (r: string)
    ensures Stripped(r) && |r| <= |s|
  {
    var t := TrimRight(s);
    var r := TrimLeft(t);
    TrimLeftSlice(t);
    assert r != [] ==> r[|r| - 1] == t[|t| - 1];
    r
  }

  /** What `Strip` removes is whitespace at the two ends and nothing else. */
  lemma StripSlice(s: string) returns (i: nat, j: nat)
    ensures i <= j <= |s| && Strip(s) == s[i..j]
    ensures AllSpace(s[..i]) && AllSpace(s[j..])
  {
    var t := TrimRight(s);
    var r := TrimLeft(t);
    TrimRightSlice(s);
    TrimLeftSlice(t);
    i, j := |t| - |r|, |t|;
    assert r == s[i..j];
    assert s[..i] == t[..i];
  }

  lemma {:induction false} TrimLeftOfStripped(s: string)
    requires s == [] || !IsSpace(s[0])
    ensures TrimLeft(s) == s
  {
  }

  lemma {:induction false} TrimRightOfStripped(s: string)
    requires s == [] || !IsSpace(s[|s| - 1])
    ensures TrimRight(s) == s
  {
  }

  /** Stripping is idempotent, and a stripped string is its own strip. */
  lemma StripStripped(s: string)
    requires Stripped(s)
    ensures Strip(s) == s
  {
    TrimRightOfStripped(s);
    TrimLeftOfStripped(s);
  }

  lemma StripIdempotent(s: string)
    ensures Strip(Strip(s)) == Strip(s)
  {
    StripStripped(Strip(s));
  }

  /** A string with no whitespace at all strips to itself. */
  lemma StripNoSpace(s: string)
    requires NoSpace(s)
    ensures Strip(s) == s
  {
    StripStripped(s);
  }

  /** Python's `str.lower()` on ASCII letters; other characters unchanged. */
  function LowerChar(c: char): char {
    if 'A' <= c <= 'Z' then (c as int + 32) as char else c
  }

  function Lower(s: string): (r: string)
    ensures |r| == |s|
  {
    if s == [] then [] else [LowerChar(s[0])] + Lower(s[1..])
  }

  /** `Lower` maps each character on its own. */
  lemma {:induction false} LowerAt(s: string)
    ensures forall i :: 0 <= i < |s| ==> Lower(s)[i] == LowerChar(s[i])
  {
    if s != [] {
      LowerAt(s[1..]);
    }
  }

  /** Lower-case letters, digits and underscores only. */
  predicate Identifier(s: string) {
    forall i :: 0 <= i < |s| ==> 'a' <= s[i] <= 'z' || '0' <= s[i] <= '9' || s[i] == '_'
  }

  /** Stripping and lower-casing leave such a name as it is. */
  lemma IdentifierNormal(s: string)
    requires Identifier(s)
    ensures Lower(Strip(s)) == s
  {
    StripNoSpace(s);
    LowerAt(s);
  }

  /** `sep.join(parts)`. */
  function Join(parts: seq<string>, sep: char): string {
    if parts == [] then ""
    else if |parts| == 1 then parts[0]
    else parts[0] + [sep] + Join(parts[1..], sep)
  }

  /** Joining two non-empty lists puts one separator between their
      joins. */
  lemma {:induction false} JoinAppend(a: seq<string>, b: seq<string>, sep: char)
    requires a != [] && b != []
    ensures Join(a + b, sep) == Join(a, sep) + [sep] + Join(b, sep)
  {
    assert (a + b)[0] == a[0];
    if |a| == 1 {
      assert (a + b)[1..] == b;
    } else {
      assert (a + b)[1..] == a[1..] + b;
      JoinAppend(a[1..], b, sep);
    }
  }

  /** `s.split(sep)` for a one-character separator: always at least one
      piece, and no piece contains the separator. */
  function Split(s: string, sep: char): (r: seq<string>)
    ensures |r| >= 1
    ensures forall p :: p in r ==> sep !in p
  {
    if |s| == 0 then [""]
    else
      var rest := Split(s[1..], sep);
      if s[0] == sep then [""] + rest
      else [[s[0]] + rest[0]] + rest[1..]
  }

  /** Joining the pieces of a split gives back the original string. */
  lemma {:induction false} JoinSplit(s: string, sep: char)
    ensures Join(Split(s, sep), sep) == s
  {
    if |s| > 0 {
      var rest := Split(s[1..], sep);
      JoinSplit(s[1..], sep);
      if s[0] != sep {
        if |rest| > 1 {
          assert Join(rest, sep) == rest[0] + [sep] + Join(rest[1..], sep);
          assert [[s[0]] + rest[0]] + rest[1..] == [[s[0]] + rest[0]] + rest[1..];
          assert Join([[s[0]] + rest[0]] + rest[1..], sep)
              == ([s[0]] + rest[0]) + [sep] + Join(rest[1..], sep);
        }
        assert s == [s[0]] + s[1..];
      } else {
        assert s == [sep] + s[1..];
      }
    }
  }

  /** Splitting a join of separator-free pieces gives back the pieces. */
  lemma {:induction false} SplitJoin(parts: seq<string>, sep: char)
    requires |parts| >= 1
    requires forall p :: p in parts ==> sep !in p
    ensures Split(Join(parts, sep), sep) == parts
  {
    if |parts| == 1 {
      SplitNoSep(parts[0], sep);
    } else {
      SplitJoin(parts[1..], sep);
      SplitAppend(parts[0], Join(parts[1..], sep), sep);
      assert parts == [parts[0]] + parts[1..];
    }
  }

  lemma {:induction false} SplitNoSep(s: string, sep: char)
    requires sep !in s
    ensures Split(s, sep) == [s]
  {
    if |s| > 0 {
      SplitNoSep(s[1..], sep);
      assert s == [s[0]] + s[1..];
    }
  }

  lemma {:induction false} SplitAppend(a: string, b: string, sep: char)
    requires sep !in a
    ensures Split(a + [sep] + b, sep) == [a] + Split(b, sep)
  {
    if |a| == 0 {
      assert a + [sep] + b == [sep] + b;
      assert ([sep] + b)[1..] == b;
    } else {
      SplitAppend(a[1..], b, sep);
      assert (a + [sep] + b)[1..] == a[1..] + [sep] + b;
      assert a == [a[0]] + a[1..];
    }
  }

  /** The pieces of `s.split(sep)`, each stripped, with the empty ones
      dropped, in their original order: the comprehension
      `[t.strip() for t in s.split(sep) if t.strip()]`. */
  function StripPieces(ps: seq<string>): (r: seq<string>)
    ensures forall t :: t in r ==> t != "" && Stripped(t)
    ensures |r| <= |ps|
  {
    if ps == [] then []
    else
      var t := Strip(ps[0]);
      (if t == "" then [] else [t]) + StripPieces(ps[1..])
  }

  function SplitStripped(s: string, sep: char): (r: seq<string>)
    ensures forall t :: t in r ==> t != "" && Stripped(t) && sep !in t
  {
    var r := StripPieces(Split(s, sep));
    StripPiecesFrom(Split(s, sep), sep);
    r
  }

  lemma {:induction false} StripPiecesFrom(ps: seq<string>, sep: char)
    requires forall p :: p in ps ==> sep !in p
    ensures forall t :: t in StripPieces(ps) ==> sep !in t
  {
    if ps != [] {
      StripPiecesFrom(ps[1..], sep);
      var t := Strip(ps[0]);
      assert ps[0] in ps;
      var i, j := StripSlice(ps[0]);
      forall c | c in t ensures c != sep {
        assert c in ps[0];
      }
    }
  }

  /** `s.split()` with no argument: the maximal runs of non-whitespace. */
  function Words(s: string): (r: seq<string>)
    ensures forall w :: w in r ==> w != "" && NoSpace(w)
    ensures |s| > 0 && !IsSpace(s[0]) ==> |r| > 0 && r[0] != "" && r[0][0] == s[0]
  {
    if |s| == 0 then []
    else
      var rest := Words(s[1..]);
      if IsSpace(s[0]) then rest
      else if |s| > 1 && !IsSpace(s[1]) then
        assert rest[0] in rest;
        var r := [[s[0]] + rest[0]] + rest[1..];
        assert forall w :: w in rest[1..] ==> w in rest;
        r
      else [[s[0]]] + rest
  }

  /** The words, concatenated, are exactly the non-whitespace characters of
      the input, in order: nothing is lost or invented by the split. */
  function NonSpace(s: string): string {
    if s == [] then [] else (if IsSpace(s[0]) then [] else [s[0]]) + NonSpace(s[1..])
  }

  function Concat(ws: seq<string>): string {
    if ws == [] then [] else ws[0] + Concat(ws[1..])
  }

  lemma {:induction false} WordsKeepCharacters(s: string)
    ensures Concat(Words(s)) == NonSpace(s)
  {
    if |s| > 0 {
      WordsKeepCharacters(s[1..]);
      var rest := Words(s[1..]);
      if !IsSpace(s[0]) && |s| > 1 && !IsSpace(s[1]) {
        assert Concat(rest) == rest[0] + Concat(rest[1..]);
        assert Concat([[s[0]] + rest[0]] + rest[1..]) == ([s[0]] + rest[0]) + Concat(rest[1..]);
      } else if !IsSpace(s[0]) {
        assert Concat([[s[0]]] + rest) == [s[0]] + Concat(rest);
      }
    }
  }

  /** Replace every `from` by `to`: `s.replace(from, to)` for one character. */
  function ReplaceChar(s: string, from: char, to: char): (r: string)
    ensures |r| == |s|
    ensures forall i :: 0 <= i < |s| ==> r[i] == if s[i] == from then to else s[i]
  {
    if s == [] then [] else [if s[0] == from then to else s[0]] + ReplaceChar(s[1..], from, to)
  }

  predicate IsDigit(c: char) { '0' <= c <= '9' }

  function DigitChar(d: nat): char
    requires d < 10
  {
    ('0' as int + d) as char
  }

  /** `str(n)` for a natural number: decimal, no leading zeros. */
  function NatToString(n: nat): (r: string)
    ensures |r| >= 1
    ensures forall i :: 0 <= i < |r| ==> IsDigit(r[i])
    ensures |r| > 1 ==> r[0] != '0'
    decreases n
  {
    if n < 10 then [DigitChar(n)] else NatToString(n / 10) + [DigitChar(n % 10)]
  }

  /** `str(n)` for any integer. */
  function IntToString(n: int): string {
    if n < 0 then "-" + NatToString(-n) else NatToString(n)
  }

  /** Value of a string of digits and underscores, ignoring the underscores. */
  function DecimalValue(s: string): nat
    requires forall i :: 0 <= i < |s| ==> IsDigit(s[i]) || s[i] == '_'
  {
    if s == [] then 0
    else
      var last := s[|s| - 1];
      if last == '_' then DecimalValue(s[..|s| - 1])
      else
        assert IsDigit(last);
        DecimalValue(s[..|s| - 1]) * 10 + (last as int - '0' as int)
  }

  /** Python's grammar for the digits of a base-10 `int()` literal: one or
      more digits, with single underscores allowed between digits. */
  predicate DigitRun(s: string) {
    && |s| > 0
    && IsDigit(s[0]) && IsDigit(s[|s| - 1])
    && (forall i :: 0 <= i < |s| ==> IsDigit(s[i]) || s[i] == '_')
    && (forall i :: 0 <= i < |s| - 1 ==> s[i] == '_' ==> s[i + 1] != '_')
  }

  /** `int(s)` on a string: surrounding whitespace allowed, an optional
      sign, then a digit run; `None` where Python raises ValueError. */
  function ParseInt(s: string): (r: Option<int>)
    ensures r.Some? ==> Strip(s) != ""
  {
    var t := Strip(s);
    if |t| > 0 && (t[0] == '-' || t[0] == '+') then
      if DigitRun(t[1..]) then
        var v: int := DecimalValue(t[1..]);
        Some(if t[0] == '-' then -v else v)
      else None
    else if DigitRun(t) then Some(DecimalValue(t))
    else None
  }

  lemma {:induction false} DecimalValueOfNat(n: nat)
    ensures DecimalValue(NatToString(n)) == n
    decreases n
  {
    if n >= 10 {
      DecimalValueOfNat(n / 10);
      var s := NatToString(n);
      assert s[..|s| - 1] == NatToString(n / 10);
    }
  }

  lemma NatToStringIsDigitRun(n: nat)
    ensures DigitRun(NatToString(n)) && NoSpace(NatToString(n))
  {
  }

  lemma ParseNatRoundTrip(m: nat)
    ensures ParseInt(NatToString(m)) == Some(m)
  {
    var d := NatToString(m);
    DecimalValueOfNat(m);
    NatToStringIsDigitRun(m);
    StripNoSpace(d);
    assert IsDigit(d[0]);
  }

  lemma ParseNegRoundTrip(m: nat)
    requires m > 0
    ensures ParseInt("-" + NatToString(m)) == Some(-(m as int))
  {
    var d := NatToString(m);
    DecimalValueOfNat(m);
    NatToStringIsDigitRun(m);
    var s := "-" + d;
    NoSpaceSigned(d);
    StripNoSpace(s);
    assert s[1..] == d;
  }

  lemma NoSpaceSigned(d: string)
    requires NoSpace(d)
    ensures NoSpace("-" + d)
  {
    var s := "-" + d;
    forall i | 0 <= i < |s| ensures !IsSpace(s[i]) {
      if i > 0 { assert s[i] == d[i - 1]; }
    }
  }

  /** `int(str(n)) == n` for every integer. */
  lemma ParseIntRoundTrip(n: int)
    ensures ParseInt(IntToString(n)) == Some(n)
  {
    if n < 0 {
      var m: nat := -n;
      ParseNegRoundTrip(m);
      assert IntToString(n) == "-" + NatToString(m);
    } else {
      var m: nat := n;
      ParseNatRoundTrip(m);
      assert IntToString(n) == NatToString(m);
    }
  }

  /** Decimal rendering is injective: distinct numbers print differently. */
  lemma NatToStringInjective(m: nat, n: nat)
    requires NatToString(m) == NatToString(n)
    ensures m == n
  {
    DecimalValueOfNat(m);
    DecimalValueOfNat(n);
  }

  /** The quote `repr` of a string uses: double quotes when the string
      holds a single quote and no double quote, single quotes otherwise. */
  function ReprQuote(s: string): (q: char)
    ensures q == '\'' || q == '"'
  {
    if '\'' in s && '"' !in s then '"' else '\''
  }

  /** A lower-case hexadecimal digit. */
  function HexDigit(d: nat): char
    requires d < 16
  {
    if d < 10 then ('0' as int + d) as char else ('a' as int + d - 10) as char
  }

  /** The value of a lower-case hexadecimal digit, or 16 for any other
      character. */
  function HexValue(c: char): nat {
    if '0' <= c <= '9' then c as int - '0' as int
    else if 'a' <= c <= 'f' then c as int - 'a' as int + 10
    else 16
  }

  /** How `repr` writes one character between quotes `q`: the quote in use
      and the backslash behind a backslash, tab, line feed and carriage
      return by name, the other ASCII control characters and DEL as
      `\xhh`, and everything else as itself. */
  function ReprChar(c: char, q: char): string {
    if c == q || c == '\\' then ['\\', c]
    else if c == '\t' then ['\\', 't']
    else if c == '\n' then ['\\', 'n']
    else if c == '\r' then ['\\', 'r']
    else if c < ' ' || c as int == 127 then ['\\', 'x', HexDigit(c as int / 16), HexDigit(c as int % 16)]
    else [c]
  }

  function ReprBody(s: string, q: char): string {
    if s == [] then [] else ReprChar(s[0], q) + ReprBody(s[1..], q)
  }

  /** `repr(s)`, as `str` of a dict or a list and `OSError` print their
      strings. */
  function Repr(s: string): (r: string)
    ensures |r| >= 2 && r[0] == r[|r| - 1] == ReprQuote(s)
  {
    var q := ReprQuote(s);
    [q] + ReprBody(s, q) + [q]
  }

  function Prepend(c: char, o: Option<string>): Option<string> {
    if o.None? then None else Some([c] + o.value)
  }

  /** Reading back the text between quotes `q` with the escapes `repr`
      writes; `None` on a bare quote `q` or a broken escape. */
  function Unescape(t: string, q: char): Option<string>
    decreases |t|
  {
    if t == [] then Some([])
    else if t[0] == q then None
    else if t[0] != '\\' then Prepend(t[0], Unescape(t[1..], q))
    else if |t| < 2 then None
    else if t[1] == 't' then Prepend('\t', Unescape(t[2..], q))
    else if t[1] == 'n' then Prepend('\n', Unescape(t[2..], q))
    else if t[1] == 'r' then Prepend('\r', Unescape(t[2..], q))
    else if t[1] == 'x' then
      if |t| < 4 || HexValue(t[2]) == 16 || HexValue(t[3]) == 16 then None
      else Prepend((HexValue(t[2]) * 16 + HexValue(t[3])) as char, Unescape(t[4..], q))
    else if t[1] == q || t[1] == '\\' then Prepend(t[1], Unescape(t[2..], q))
    else None
  }

  /** Reading a quoted string literal back: an opening quote, the escaped
      text, the same quote closing it. */
  function Eval(r: string): Option<string> {
    if |r| < 2 || r[0] != r[|r| - 1] || (r[0] != '\'' && r[0] != '"') then None
    else Unescape(r[1..|r| - 1], r[0])
  }

  lemma ReprCharRead(c: char, q: char, rest: string)
    requires q == '\'' || q == '"'
    ensures Unescape(ReprChar(c, q) + rest, q) == Prepend(c, Unescape(rest, q))
  {
    var t := ReprChar(c, q) + rest;
    if c == q || c == '\\' || c == '\t' || c == '\n' || c == '\r' {
      assert t[2..] == rest;
    } else if c < ' ' || c as int == 127 {
      assert t[4..] == rest;
      assert HexValue(t[2]) * 16 + HexValue(t[3]) == c as int;
    } else {
      assert t[1..] == rest;
    }
  }

  lemma {:induction false} ReprBodyRead(s: string, q: char)
    requires q == '\'' || q == '"'
    ensures Unescape(ReprBody(s, q), q) == Some(s)
  {
    if s != [] {
      ReprCharRead(s[0], q, ReprBody(s[1..], q));
      ReprBodyRead(s[1..], q);
      assert [s[0]] + s[1..] == s;
    }
  }

  /** `repr` loses nothing: the literal it writes reads back as the
      string, whatever characters and quotes it holds. */
  lemma ReprRoundTrip(s: string)
    ensures Eval(Repr(s)) == Some(s)
  {
    var q := ReprQuote(s);
    var r := Repr(s);
    assert r[1..|r| - 1] == ReprBody(s, q);
    ReprBodyRead(s, q);
  }

  /** Different strings have different `repr`s. */
  lemma ReprInjective(s: string, t: string)
    requires Repr(s) == Repr(t)
    ensures s == t
  {
    ReprRoundTrip(s);
    ReprRoundTrip(t);
  }

  /** A character `repr` writes as itself between quotes `q`. */
  predicate PlainIn(c: char, q: char) {
    c != q && c != '\\' && c >= ' ' && c as int != 127
  }

  lemma {:induction false} ReprBodyPlain(s: string, q: char)
    requires forall i :: 0 <= i < |s| ==> PlainIn(s[i], q)
    ensures ReprBody(s, q) == s
  {
    if s != [] {
      ReprBodyPlain(s[1..], q);
      assert [s[0]] + s[1..] == s;
    }
  }

  /** A string with no backslash and no control character is printed
      verbatim between its quotes: in single quotes unless it holds a
      single quote and no double quote, and then in double quotes. */
  lemma ReprPlain(s: string)
    requires forall i :: 0 <= i < |s| ==> s[i] != '\\' && s[i] >= ' ' && s[i] as int != 127
    ensures '\'' !in s ==> Repr(s) == "'" + s + "'"
    ensures '\'' in s && '"' !in s ==> Repr(s) == "\"" + s + "\""
  {
    var q := ReprQuote(s);
    if '\'' !in s || '"' !in s {
      forall i | 0 <= i < |s| ensures PlainIn(s[i], q) {
        assert s[i] in s;
      }
      ReprBodyPlain(s, q);
    }
  }

  /** `str(list)` of a list of strings: `['a', 'b']`, or `[]`. */
  function ListRepr(xs: seq<string>): string {
    "[" + ItemsRepr(xs) + "]"
  }

  function ItemsRepr(xs: seq<string>): string {
    if xs == [] then ""
    else Repr(xs[0]) + (if |xs| == 1 then "" else ", " + ItemsRepr(xs[1..]))
  }
}
