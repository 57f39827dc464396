/** Value types and list/string helpers shared by every component model.
    They stand for the JavaScript and Java built-ins the components call:
    String.prototype.toLowerCase/includes/trim/split/padStart, String(n),
    parseInt, Array.prototype.filter/reduce/sort and Math.max. */
module Common {

  datatype Option<T> = None | Some(value: T)

  datatype Result<T, E> = Ok(value: T) | Err(error: E)

  // ---------------------------------------------------------------------------
  // Characters and strings
  // ---------------------------------------------------------------------------

  /** toLowerCase on one character; only A-Z are folded (see README). */
  function LowerChar(c: char): char {
    if 'A' <= c <= 'Z' then (c as int + 32) as char else c
  }

  function Lower(s: string): string {
    seq(|s|, i requires 0 <= i < |s| => LowerChar(s[i]))
  }

  /** toUpperCase on one character; only a-z are folded. */
  function UpperChar(c: char): char {
    if 'a' <= c <= 'z' then (c as int - 32) as char else c
  }

  function Upper(s: string): (r: string)
    ensures |r| == |s| && forall i :: 0 <= i < |s| ==> r[i] == UpperChar(s[i])
  {
    seq(|s|, i requires 0 <= i < |s| => UpperChar(s[i]))
  }

  /** Upper- and lower-casing undo each other on letters of the other case. */
  lemma CaseRoundTrip(c: char)
    ensures 'a' <= c <= 'z' ==> LowerChar(UpperChar(c)) == c
    ensures 'A' <= c <= 'Z' ==> UpperChar(LowerChar(c)) == c
    ensures UpperChar(UpperChar(c)) == UpperChar(c)
  {
  }

  /** String.prototype.includes: `sub` occurs in `s` at some position. */
  predicate Includes(s: string, sub: string) {
    exists i :: 0 <= i <= |s| && OccursAt(s, sub, i)
  }

  predicate OccursAt(s: string, sub: string, i: int) {
    0 <= i <= |s| - |sub| && s[i..i + |sub|] == sub
  }

  /** The case-insensitive search every list screen uses:
      `field.toLowerCase().includes(term.toLowerCase())`. */
  predicate MatchesTerm(field: string, term: string) {
    Includes(Lower(field), Lower(term))
  }

  lemma EmptyTermMatches(field: string)
    ensures MatchesTerm(field, "")
  {
    assert OccursAt(Lower(field), Lower(""), 0);
  }

  /** The characters JavaScript's `\s` and String.prototype.trim treat as white space. */
  predicate IsSpace(c: char) {
    c == ' ' || c == '\t' || c == '\n' || c == '\r' || c == '\U{000B}' || c == '\U{000C}'
    || c == '\U{00A0}' || c == '\U{1680}' || ('\U{2000}' <= c <= '\U{200A}')
    || c == '\U{2028}' || c == '\U{2029}' || c == '\U{202F}' || c == '\U{205F}'
    || c == '\U{3000}' || c == '\U{FEFF}'
  }

  predicate AllSpace(s: string) {
    forall i :: 0 <= i < |s| ==> IsSpace(s[i])
  }

  function TrimStart(s: string): (r: string)
    ensures |r| <= |s| && r == s[|s| - |r|..]
    ensures r == [] || !IsSpace(r[0])
    ensures AllSpace(s[..|s| - |r|])
  {
    if s != [] && IsSpace(s[0]) then TrimStart(s[1..]) else s
  }

  function TrimEnd(s: string): (r: string)
    ensures |r| <= |s| && r == s[..|r|]
    ensures r == [] || !IsSpace(r[|r| - 1])
    ensures AllSpace(s[|r|..])
  {
    if s != [] && IsSpace(s[|s| - 1]) then TrimEnd(s[..|s| - 1]) else s
  }

  /** String.prototype.trim. */
  function Trim(s: string): (r: string)
    ensures Trimmed(r)
    ensures forall c :: c in r ==> c in s
    ensures Trimmed(s) ==> r == s
  {
    TrimBothEnds(s);
    TrimKeepsCharacters(s, TrimStart(s), TrimEnd(TrimStart(s)));
    TrimmedUnchanged(s);
    TrimEnd(TrimStart(s))
  }

  lemma TrimBothEnds(s: string)
    ensures Trimmed(TrimEnd(TrimStart(s)))
  {
    var t := TrimStart(s);
    var r := TrimEnd(t);
    assert r != [] ==> r[0] == t[0];
  }

  lemma TrimKeepsCharacters(s: string, t: string, r: string)
    requires |t| <= |s| && t == s[|s| - |t|..] && |r| <= |t| && r == t[..|r|]
    ensures forall c :: c in r ==> c in s
  {
    forall c | c in r ensures c in s {
      var i :| 0 <= i < |r| && r[i] == c;
      assert s[|s| - |t| + i] == c;
    }
  }

  lemma TrimmedUnchanged(s: string)
    ensures Trimmed(s) ==> TrimEnd(TrimStart(s)) == s
  {
  }

  /** Neither end is white space. */
  predicate Trimmed(s: string) {
    s == [] || (!IsSpace(s[0]) && !IsSpace(s[|s| - 1]))
  }

  /** `s.trim()` is empty exactly when `s` is white space only. */
  lemma TrimEmptyIffAllSpace(s: string)
    ensures Trim(s) == [] <==> AllSpace(s)
  {
    var t := TrimStart(s);
    if Trim(s) == [] {
      assert AllSpace(t[0..]);
      assert t == [];
      assert s[..|s| - |t|] == s;
    }
  }

  /** Array.prototype.join with separator `sep`. */
  function Join(parts: seq<string>, sep: string): string {
    if parts == [] then []
    else if |parts| == 1 then parts[0]
    else parts[0] + sep + Join(parts[1..], sep)
  }

  /** String.prototype.split on a one-character separator. */
  function Split(s: string, sep: char): (r: seq<string>)
    ensures |r| >= 1
    ensures forall i :: 0 <= i < |r| ==> sep !in r[i]
  {
    if s == [] then [[]]
    else
      var rest := Split(s[1..], sep);
      if s[0] == sep then [[]] + rest else [[s[0]] + rest[0]] + rest[1..]
  }

  /** Splitting and joining again with the same separator gives back the input. */
  lemma {:induction false} JoinSplit(s: string, sep: char)
    ensures Join(Split(s, sep), [sep]) == s
  {
    if s != [] {
      var rest := Split(s[1..], sep);
      JoinSplit(s[1..], sep);
      if s[0] == sep {
        assert Split(s, sep) == [[]] + rest;
        assert Join([[]] + rest, [sep]) == [] + [sep] + Join(rest, [sep]);
      } else {
        var r := Split(s, sep);
        assert r == [[s[0]] + rest[0]] + rest[1..];
        if |rest| == 1 {
          assert Join(r, [sep]) == [s[0]] + rest[0];
          assert Join(rest, [sep]) == rest[0];
        } else {
          assert r[1..] == rest[1..];
          assert Join(r, [sep]) == [s[0]] + rest[0] + [sep] + Join(rest[1..], [sep]);
          assert Join(rest, [sep]) == rest[0] + [sep] + Join(rest[1..], [sep]);
        }
      }
    }
  }

  /** Splitting text that starts with a run free of the separator: the run
      joins the first piece. */
  lemma {:induction false} SplitPrefix(a: string, t: string, sep: char)
    requires sep !in a
    ensures Split(a + t, sep) == [a + Split(t, sep)[0]] + Split(t, sep)[1..]
  {
    if a == [] {
      var r := Split(t, sep);
      assert a + t == t && a + r[0] == r[0];
      assert r == [r[0]] + r[1..];
    } else {
      assert (a + t)[0] == a[0] && (a + t)[1..] == a[1..] + t;
      SplitPrefix(a[1..], t, sep);
      var rest := Split(a[1..] + t, sep);
      assert a[0] != sep;
      assert Split(a + t, sep) == [[a[0]] + rest[0]] + rest[1..];
      assert [a[0]] + (a[1..] + Split(t, sep)[0]) == a + Split(t, sep)[0];
    }
  }

  /** Joining pieces free of the separator and splitting again gives them back. */
  lemma {:induction false} SplitJoin(parts: seq<string>, sep: char)
    requires parts != []
    requires forall i :: 0 <= i < |parts| ==> sep !in parts[i]
    ensures Split(Join(parts, [sep]), sep) == parts
  {
    if |parts| == 1 {
      SplitPrefix(parts[0], [], sep);
      assert parts[0] + [] == parts[0];
    } else {
      SplitJoin(parts[1..], sep);
      var t := [sep] + Join(parts[1..], [sep]);
      assert Join(parts, [sep]) == parts[0] + t;
      SplitPrefix(parts[0], t, sep);
      var u := Join(parts[1..], [sep]);
      assert t[0] == sep && t[1..] == u;
      assert Split(t, sep) == [[]] + Split(u, sep);
      assert parts[0] + [] == parts[0];
      assert parts == [parts[0]] + parts[1..];
    }
  }

  /** A character in neither the pieces nor the separator is not in their join. */
  lemma {:induction false} JoinAvoids(parts: seq<string>, sep: string, c: char)
    requires c !in sep
    requires forall i :: 0 <= i < |parts| ==> c !in parts[i]
    ensures c !in Join(parts, sep)
  {
    if |parts| > 1 {
      JoinAvoids(parts[1..], sep, c);
    }
  }

  /** Wraps a CSV cell in double quotes, as the export code's template string does. */
  function Quote(v: string): string {
    "\"" + v + "\""
  }

  function QuoteAll(vs: seq<string>): (r: seq<string>)
    ensures |r| == |vs| && forall i :: 0 <= i < |vs| ==> r[i] == Quote(vs[i])
  {
    seq(|vs|, i requires 0 <= i < |vs| => Quote(vs[i]))
  }

  /** One CSV line: every cell quoted, comma-separated. */
  function CsvLine(cells: seq<string>): string {
    Join(QuoteAll(cells), ",")
  }

  function CsvLines(rows: seq<seq<string>>): (r: seq<string>)
    ensures |r| == |rows| && forall i :: 0 <= i < |rows| ==> r[i] == CsvLine(rows[i])
  {
    seq(|rows|, i requires 0 <= i < |rows| => CsvLine(rows[i]))
  }

  /** The export screens' CSV text: the header keys joined by commas, then
      one quoted line per row, joined by line breaks. */
  function Csv(headers: seq<string>, rows: seq<seq<string>>): string {
    Join([Join(headers, ",")] + CsvLines(rows), "\n")
  }

  predicate NoLineBreak(cells: seq<string>) {
    forall i :: 0 <= i < |cells| ==> '\n' !in cells[i]
  }

  lemma CsvLineSingle(cells: seq<string>)
    requires NoLineBreak(cells)
    ensures '\n' !in CsvLine(cells)
  {
    var quoted := QuoteAll(cells);
    forall i | 0 <= i < |quoted|
      ensures '\n' !in quoted[i]
    {
      assert quoted[i] == "\"" + cells[i] + "\"";
    }
    JoinAvoids(quoted, ",", '\n');
  }

  /** Read back line by line, the CSV is the header line followed by one line
      per row, in order, as long as no cell holds a line break. */
  lemma CsvReadsBack(headers: seq<string>, rows: seq<seq<string>>)
    requires NoLineBreak(headers)
    requires forall i :: 0 <= i < |rows| ==> NoLineBreak(rows[i])
    ensures Split(Csv(headers, rows), '\n') == [Join(headers, ",")] + CsvLines(rows)
  {
    var lines := CsvLines(rows);
    JoinAvoids(headers, ",", '\n');
    forall i | 0 <= i < |lines|
      ensures '\n' !in lines[i]
    {
      CsvLineSingle(rows[i]);
    }
    var all := [Join(headers, ",")] + lines;
    assert forall i :: 0 <= i < |all| ==> '\n' !in all[i];
    SplitJoin(all, '\n');
  }

  /** `value || fallback` for a string: the empty string is falsy. */
  function OrElse(value: string, fallback: string): string {
    if value == "" then fallback else value
  }

  // ---------------------------------------------------------------------------
  // Decimal numbers
  // ---------------------------------------------------------------------------

  predicate IsDigit(c: char) {
    '0' <= c <= '9'
  }

  predicate AllDigits(s: string) {
    forall i :: 0 <= i < |s| ==> IsDigit(s[i])
  }

  function DigitChar(d: nat): (c: char)
    requires d < 10
    ensures IsDigit(c) && c as int - '0' as int == d
  {
    ('0' as int + d) as char
  }

  /** String(n) for a non-negative integer. */
  function NatToString(n: nat): (r: string)
    ensures |r| >= 1 && AllDigits(r)
    ensures |r| > 1 ==> r[0] != '0'
  {
    if n < 10 then [DigitChar(n)] else NatToString(n / 10) + [DigitChar(n % 10)]
  }

  /** The number a string of decimal digits spells (Number / parseInt on digits). */
  function DigitsValue(s: string): nat
    requires AllDigits(s)
  {
    if s == [] then 0 else DigitsValue(s[..|s| - 1]) * 10 + (s[|s| - 1] as int - '0' as int)
  }

  /** Reading back String(n) gives n. */
  lemma {:induction false} DigitsValueOfNatToString(n: nat)
    ensures DigitsValue(NatToString(n)) == n
  {
    if n >= 10 {
      var s := NatToString(n);
      assert s[..|s| - 1] == NatToString(n / 10);
      DigitsValueOfNatToString(n / 10);
    }
  }

  /** Leading zeros do not change the value of a digit string. */
  lemma {:induction false} DigitsValueLeadingZeros(k: nat, s: string)
    requires AllDigits(s)
    ensures AllDigits(seq(k, _ => '0') + s)
    ensures DigitsValue(seq(k, _ => '0') + s) == DigitsValue(s)
    decreases k + |s|
  {
    var z := seq(k, _ => '0');
    assert AllDigits(z + s);
    if s == [] {
      assert z + s == z;
      if k > 0 {
        assert z[..k - 1] == seq(k - 1, _ => '0');
        DigitsValueLeadingZeros(k - 1, []);
        assert seq(k - 1, _ => '0') + [] == seq(k - 1, _ => '0');
      }
    } else {
      var s' := s[..|s| - 1];
      assert (z + s)[..|z + s| - 1] == z + s';
      DigitsValueLeadingZeros(k, s');
    }
  }

  /** String.prototype.padStart(width, c). */
  function PadStart(s: string, width: nat, c: char): (r: string)
    ensures |r| == if |s| >= width then |s| else width
    ensures r[|r| - |s|..] == s
    ensures forall i :: 0 <= i < |r| - |s| ==> r[i] == c
  {
    if |s| >= width then s else seq(width - |s|, _ => c) + s
  }

  /** A number padded with zeros reads back as itself, whatever the width. */
  lemma PaddedReadsBack(n: nat, width: nat)
    ensures AllDigits(PadStart(NatToString(n), width, '0'))
    ensures DigitsValue(PadStart(NatToString(n), width, '0')) == n
  {
    var s := NatToString(n);
    DigitsValueOfNatToString(n);
    if |s| < width {
      DigitsValueLeadingZeros(width - |s|, s);
    }
  }

  /** The longest prefix of `s` made of decimal digits. */
  function LeadingDigits(s: string): (r: string)
    ensures AllDigits(r) && |r| <= |s| && r == s[..|r|]
    ensures |r| < |s| ==> !IsDigit(s[|r|])
  {
    if s != [] && IsDigit(s[0]) then [s[0]] + LeadingDigits(s[1..]) else []
  }

  /** parseInt on a string that starts with digits or not at all:
      None stands for NaN. Signs and leading blanks never occur in the ids parsed. */
  function ParseLeadingInt(s: string): (r: Option<nat>)
    ensures r.None? <==> (s == [] || !IsDigit(s[0]))
  {
    var d := LeadingDigits(s);
    if d == [] then None else Some(DigitsValue(d))
  }

  /** The digits of `s`, in order: `s.replace(/\D/g, '')`. */
  function DigitsOf(s: string): (r: string)
    ensures AllDigits(r) && |r| <= |s|
  {
    if s == [] then [] else (if IsDigit(s[0]) then [s[0]] else []) + DigitsOf(s[1..])
  }

  /** The kept characters are exactly the digits of the text. */
  lemma {:induction false} DigitsOfMembers(s: string)
    ensures forall c :: c in DigitsOf(s) <==> c in s && IsDigit(c)
  {
    if s != [] {
      DigitsOfMembers(s[1..]);
      assert s == [s[0]] + s[1..];
    }
  }

  /** Keeping the digits of a string of digits keeps all of it. */
  lemma {:induction false} DigitsOfDigits(s: string)
    requires AllDigits(s)
    ensures DigitsOf(s) == s
  {
    if s != [] {
      DigitsOfDigits(s[1..]);
    }
  }

  lemma DigitsOfCons(s: string)
    requires s != []
    ensures DigitsOf(s) == (if IsDigit(s[0]) then [s[0]] else []) + DigitsOf(s[1..])
  {
  }

  lemma {:induction false} DigitsOfAppend(a: string, b: string)
    ensures DigitsOf(a + b) == DigitsOf(a) + DigitsOf(b)
  {
    if a == [] {
      assert a + b == b;
    } else {
      var ab := a + b;
      assert ab[0] == a[0] && ab[1..] == a[1..] + b;
      DigitsOfCons(ab);
      DigitsOfCons(a);
      DigitsOfAppend(a[1..], b);
      var head, rest, tail := if IsDigit(a[0]) then [a[0]] else [], DigitsOf(a[1..]), DigitsOf(b);
      assert head + (rest + tail) == (head + rest) + tail;
    }
  }

  function Pow10(k: nat): nat {
    if k == 0 then 1 else 10 * Pow10(k - 1)
  }

  /** Digits written after others shift those by one decimal place each. */
  lemma {:induction false} DigitsValueAppend(a: string, b: string)
    requires AllDigits(a) && AllDigits(b)
    ensures AllDigits(a + b)
    ensures DigitsValue(a + b) == DigitsValue(a) * Pow10(|b|) + DigitsValue(b)
  {
    assert AllDigits(a + b);
    if b == [] {
      assert a + b == a;
    } else {
      var b' := b[..|b| - 1];
      assert (a + b)[..|a + b| - 1] == a + b';
      assert (a + b)[|a + b| - 1] == b[|b| - 1];
      DigitsValueAppend(a, b');
      ShiftByOnePlace(DigitsValue(a), Pow10(|b'|), DigitsValue(b'), b[|b| - 1] as int - '0' as int);
    }
  }

  lemma ShiftByOnePlace(x: int, p: int, y: int, d: int)
    ensures (x * p + y) * 10 + d == x * (10 * p) + (y * 10 + d)
  {
  }

  /** `String(n).slice(-3)`. */
  function LastThree(s: string): (r: string)
    ensures |r| == if |s| < 3 then |s| else 3
    ensures r == s[|s| - |r|..]
  {
    if |s| <= 3 then s else s[|s| - 3..]
  }

  /** The last three characters of a digit string are digits. */
  lemma LastThreeOfDigits(s: string)
    requires AllDigits(s)
    ensures AllDigits(LastThree(s))
  {
    var t := LastThree(s);
    forall i | 0 <= i < |t| ensures IsDigit(t[i]) {
      assert t[i] == s[|s| - |t| + i];
    }
  }

  lemma PrefixSplit(prefix: string, rest: string)
    ensures (prefix + rest)[..|prefix|] == prefix && (prefix + rest)[|prefix|..] == rest
  {
  }

  lemma AllDigitsAppend(a: string, b: string)
    requires AllDigits(a) && AllDigits(b)
    ensures AllDigits(a + b)
  {
    forall i | 0 <= i < |a + b| ensures IsDigit((a + b)[i]) {
      if i >= |a| {
        assert (a + b)[i] == b[i - |a|];
      }
    }
  }

  lemma LastDigit(n: nat)
    ensures NatToString(n)[|NatToString(n)| - 1] == DigitChar(n % 10)
  {
  }

  /** The last three characters of String(n) are its hundreds, tens and units digits. */
  lemma LastThreeDigits(n: nat)
    requires n >= 100
    ensures LastThree(NatToString(n)) == [DigitChar(n / 100 % 10), DigitChar(n / 10 % 10), DigitChar(n % 10)]
  {
    var s2 := NatToString(n / 100);
    LastDigit(n / 100);
    TensOfTens(n);
    var s1 := NatToString(n / 10);
    assert s1 == s2 + [DigitChar(n / 10 % 10)];
    assert NatToString(n) == s1 + [DigitChar(n % 10)];
    LastThreeOfLonger(s2, DigitChar(n / 10 % 10), DigitChar(n % 10));
  }

  lemma TensOfTens(n: nat)
    ensures n / 10 / 10 == n / 100
  {
  }

  lemma LastThreeOfLonger(s: string, x: char, y: char)
    requires s != []
    ensures LastThree(s + [x] + [y]) == [s[|s| - 1], x, y]
  {
    var t := s + [x] + [y];
    assert t[|t| - 3] == s[|s| - 1];
  }

  /** Numbers 1000 apart end in the same three digits. */
  lemma LastThreeRepeats(n: nat)
    requires n >= 100
    ensures LastThree(NatToString(n)) == LastThree(NatToString(n + 1000))
  {
    LastThreeDigits(n);
    LastThreeDigits(n + 1000);
    SameLowDigits(n);
  }

  lemma SameLowDigits(n: nat)
    ensures (n + 1000) / 100 % 10 == n / 100 % 10
    ensures (n + 1000) / 10 % 10 == n / 10 % 10
    ensures (n + 1000) % 10 == n % 10
  {
    var h, t := n / 100, n / 10;
    assert (n + 1000) / 100 == h + 10;
    assert (n + 1000) / 10 == t + 100;
  }

  /** `${year}${pad2(month)}${pad2(day)}`, the date part of the order numbers. */
  function DateStamp(year: nat, month: nat, day: nat): (r: string)
    ensures AllDigits(r) && |r| >= 5
  {
    NatToString(year) + PadStart(NatToString(month), 2, '0') + PadStart(NatToString(day), 2, '0')
  }

  /** Number.prototype.toLocaleString for a non-negative integer: digits in groups of three. */
  function GroupThousands(n: nat): (r: string)
    ensures |r| >= 1
    ensures forall i :: 0 <= i < |r| ==> IsDigit(r[i]) || r[i] == ','
  {
    if n < 1000 then NatToString(n)
    else GroupThousands(n / 1000) + "," + PadStart(NatToString(n % 1000), 3, '0')
  }

  lemma NatToStringShort(n: nat)
    requires n < 1000
    ensures |NatToString(n)| <= 3
  {
    if n >= 10 {
      assert NatToString(n) == NatToString(n / 10) + [DigitChar(n % 10)];
      if n >= 100 {
        assert NatToString(n / 10) == NatToString(n / 100) + [DigitChar(n / 10 % 10)];
      }
    }
  }

  /** Dropping the separators of the grouped text reads back the number. */
  lemma {:induction false} GroupThousandsReadsBack(n: nat)
    ensures AllDigits(DigitsOf(GroupThousands(n)))
    ensures DigitsValue(DigitsOf(GroupThousands(n))) == n
  {
    if n < 1000 {
      DigitsOfDigits(NatToString(n));
      DigitsValueOfNatToString(n);
    } else {
      GroupThousandsReadsBack(n / 1000);
      GroupStep(n);
    }
  }

  /** The step of the proof above: the separator drops out and the last group
      adds three decimal places. */
  lemma GroupStep(n: nat)
    requires n >= 1000
    requires DigitsValue(DigitsOf(GroupThousands(n / 1000))) == n / 1000
    ensures DigitsValue(DigitsOf(GroupThousands(n))) == n
  {
    var low := PadStart(NatToString(n % 1000), 3, '0');
    LowGroup(n % 1000);
    GroupDigits(n);
    ThreeMorePlaces(DigitsOf(GroupThousands(n / 1000)), low, n / 1000, n % 1000);
  }

  lemma GroupDigits(n: nat)
    requires n >= 1000
    ensures DigitsOf(GroupThousands(n)) == DigitsOf(GroupThousands(n / 1000)) + PadStart(NatToString(n % 1000), 3, '0')
  {
    var low := PadStart(NatToString(n % 1000), 3, '0');
    LowGroup(n % 1000);
    assert GroupThousands(n) == GroupThousands(n / 1000) + "," + low;
    DigitsOfComma(GroupThousands(n / 1000), low);
    DigitsOfDigits(low);
  }

  lemma ThreeMorePlaces(high: string, low: string, q: nat, r: nat)
    requires AllDigits(high) && AllDigits(low) && |low| == 3
    requires DigitsValue(high) == q && DigitsValue(low) == r
    ensures AllDigits(high + low) && DigitsValue(high + low) == q * 1000 + r
  {
    DigitsValueAppend(high, low);
    assert Pow10(3) == 1000 by { assert Pow10(2) == 100 by { assert Pow10(1) == 10; } }
  }

  /** The last group is three digits spelling the remainder. */
  lemma LowGroup(r: nat)
    requires r < 1000
    ensures |PadStart(NatToString(r), 3, '0')| == 3
    ensures AllDigits(PadStart(NatToString(r), 3, '0'))
    ensures DigitsValue(PadStart(NatToString(r), 3, '0')) == r
  {
    NatToStringShort(r);
    PaddedReadsBack(r, 3);
  }

  lemma DigitsOfComma(a: string, b: string)
    ensures DigitsOf(a + "," + b) == DigitsOf(a) + DigitsOf(b)
  {
    DigitsOfAppend(a + ",", b);
    DigitsOfAppend(a, ",");
    assert DigitsOf(",") == "" by { assert ","[1..] == []; }
    assert DigitsOf(a) + "" == DigitsOf(a);
  }


  // ---------------------------------------------------------------------------
  // Lists
  // ---------------------------------------------------------------------------

  /** `s.filter(p).length`. */
  function Count<T>(s: seq<T>, p: T -> bool): (n: nat)
    ensures n <= |s|
  {
    if s == [] then 0 else (if p(s[0]) then 1 else 0) + Count(s[1..], p)
  }

  /** Replacing one element changes the count by what the two elements contribute. */
  lemma {:induction false} CountUpdate<T>(s: seq<T>, k: nat, v: T, p: T -> bool)
    requires k < |s|
    ensures Count(s[k := v], p) + (if p(s[k]) then 1 else 0) == Count(s, p) + (if p(v) then 1 else 0)
  {
    if k == 0 {
      assert s[k := v][1..] == s[1..];
    } else {
      CountUpdate(s[1..], k - 1, v, p);
      assert s[k := v][1..] == s[1..][k - 1 := v];
    }
  }

  /** Array.prototype.filter. */
  function Filter<T>(s: seq<T>, p: T -> bool): (r: seq<T>)
    ensures |r| == Count(s, p)
    ensures forall i :: 0 <= i < |r| ==> r[i] in s && p(r[i])
    ensures forall i :: 0 <= i < |s| && p(s[i]) ==> s[i] in r
    ensures multiset(r) <= multiset(s)
  {
    if s == [] then []
    else
      assert s == [s[0]] + s[1..];
      (if p(s[0]) then [s[0]] else []) + Filter(s[1..], p)
  }

  lemma {:induction false} FilterAppend<T>(a: seq<T>, b: seq<T>, p: T -> bool)
    ensures Filter(a + b, p) == Filter(a, p) + Filter(b, p)
  {
    if a != [] {
      assert (a + b)[0] == a[0] && (a + b)[1..] == a[1..] + b;
      FilterAppend(a[1..], b, p);
      var h := if p(a[0]) then [a[0]] else [];
      assert Filter(a + b, p) == h + Filter(a[1..] + b, p);
      assert Filter(a, p) == h + Filter(a[1..], p);
    } else {
      assert a + b == b;
    }
  }

  lemma {:induction false} CountAppend<T>(a: seq<T>, b: seq<T>, p: T -> bool)
    ensures Count(a + b, p) == Count(a, p) + Count(b, p)
  {
    if a != [] {
      assert (a + b)[0] == a[0] && (a + b)[1..] == a[1..] + b;
      CountAppend(a[1..], b, p);
    } else {
      assert a + b == b;
    }
  }

  /** A filter whose predicate holds of every element keeps the list as it is. */
  lemma {:induction false} FilterAll<T>(s: seq<T>, p: T -> bool)
    requires forall i :: 0 <= i < |s| ==> p(s[i])
    ensures Filter(s, p) == s
  {
    if s != [] {
      FilterAll(s[1..], p);
    }
  }

  /** What a filter keeps, element by element. */
  lemma FilterMembers<T>(s: seq<T>, p: T -> bool)
    ensures forall x :: x in Filter(s, p) <==> x in s && p(x)
  {
    var r := Filter(s, p);
    forall x | x in s && p(x) ensures x in r {
      var i :| 0 <= i < |s| && s[i] == x;
    }
  }

  /** Two predicates that agree on every element filter alike. */
  lemma {:induction false} FilterSame<T>(s: seq<T>, p: T -> bool, q: T -> bool)
    requires forall i :: 0 <= i < |s| ==> p(s[i]) == q(s[i])
    ensures Filter(s, p) == Filter(s, q)
  {
    if s != [] {
      FilterSame(s[1..], p, q);
    }
  }

  /** A filter keeps a key that was unique to each element unique. */
  lemma {:induction false} FilterKeepsDistinct<T, K>(s: seq<T>, p: T -> bool, key: T -> K)
    requires forall i, j :: 0 <= i < j < |s| ==> key(s[i]) != key(s[j])
    ensures forall i, j :: 0 <= i < j < |Filter(s, p)| ==> key(Filter(s, p)[i]) != key(Filter(s, p)[j])
  {
    if s != [] {
      var t := Filter(s[1..], p);
      FilterKeepsDistinct(s[1..], p, key);
      forall j | 0 <= j < |t|
        ensures key(t[j]) != key(s[0])
      {
        var b :| 0 <= b < |s[1..]| && s[1..][b] == t[j];
        assert s[b + 1] == t[j];
      }
      var r := Filter(s, p);
      if p(s[0]) {
        assert r == [s[0]] + t;
        forall i, j | 0 <= i < j < |r|
          ensures key(r[i]) != key(r[j])
        {
          assert r[j] == t[j - 1];
          if i > 0 {
            assert r[i] == t[i - 1];
            assert key(t[i - 1]) != key(t[j - 1]);
          } else {
            assert r[i] == s[0];
            assert key(t[j - 1]) != key(s[0]);
          }
        }
      } else {
        assert r == t;
      }
    }
  }

  /** Filtering by `p` and then by `q` keeps what one filter by "p and q" keeps. */
  lemma {:induction false} FilterFilter<T>(s: seq<T>, p: T -> bool, q: T -> bool, both: T -> bool)
    requires forall i :: 0 <= i < |s| ==> (both(s[i]) <==> p(s[i]) && q(s[i]))
    ensures Filter(Filter(s, p), q) == Filter(s, both)
  {
    if s != [] {
      FilterFilter(s[1..], p, q, both);
      var h := if p(s[0]) then [s[0]] else [];
      assert Filter(s, p) == h + Filter(s[1..], p);
      FilterAppend(h, Filter(s[1..], p), q);
      if p(s[0]) {
        assert Filter(h, q) == (if q(s[0]) then [s[0]] else []) + Filter([], q);
      }
    }
  }

  /** The position of the first element satisfying `p` (Array.prototype.findIndex,
      or a query's fetchFirst over rows in table order); None when there is none. */
  function FirstIndex<T>(s: seq<T>, p: T -> bool): (r: Option<nat>)
    ensures r.Some? ==> r.value < |s| && p(s[r.value])
    ensures r.Some? ==> forall j :: 0 <= j < r.value ==> !p(s[j])
    ensures r.None? <==> forall j :: 0 <= j < |s| ==> !p(s[j])
  {
    if s == [] then None
    else if p(s[0]) then Some(0)
    else match FirstIndex(s[1..], p)
      case None => None
      case Some(i) => Some(i + 1)
  }

  /** The first position satisfying `p` is the one before which nothing does. */
  lemma FirstIndexIs<T>(s: seq<T>, p: T -> bool, i: nat)
    requires i < |s| && p(s[i])
    requires forall j :: 0 <= j < i ==> !p(s[j])
    ensures FirstIndex(s, p) == Some(i)
  {
  }

  /** `s.reduce((sum, x) => sum + f(x), 0)`. */
  function Sum<T>(s: seq<T>, f: T -> int): int {
    if s == [] then 0 else Sum(s[..|s| - 1], f) + f(s[|s| - 1])
  }

  lemma {:induction false} SumAppend<T>(a: seq<T>, b: seq<T>, f: T -> int)
    ensures Sum(a + b, f) == Sum(a, f) + Sum(b, f)
    decreases |b|
  {
    if b != [] {
      assert (a + b)[..|a + b| - 1] == a + b[..|b| - 1];
      assert (a + b)[|a + b| - 1] == b[|b| - 1];
      SumAppend(a, b[..|b| - 1], f);
    } else {
      assert a + b == a;
    }
  }

  /** Two summands that agree on every element give the same sum. */
  lemma {:induction false} SumSame<T>(s: seq<T>, f: T -> int, g: T -> int)
    requires forall i :: 0 <= i < |s| ==> f(s[i]) == g(s[i])
    ensures Sum(s, f) == Sum(s, g)
  {
    if s != [] {
      SumSame(s[..|s| - 1], f, g);
    }
  }

  lemma SumSingle<T>(x: T, f: T -> int)
    ensures Sum([x], f) == f(x)
  {
    assert [x][..0] == [];
  }

  lemma SplitAt<T>(s: seq<T>, k: nat)
    requires k < |s|
    ensures s == s[..k] + [s[k]] + s[k + 1..]
  {
  }

  lemma SumAround<T>(pre: seq<T>, x: T, post: seq<T>, f: T -> int)
    ensures Sum(pre + [x] + post, f) == Sum(pre, f) + f(x) + Sum(post, f)
  {
    SumAppend(pre + [x], post, f);
    SumAppend(pre, [x], f);
    SumSingle(x, f);
  }

  /** Replacing one element changes the sum by the difference of the two terms. */
  lemma SumUpdate<T>(s: seq<T>, k: nat, v: T, f: T -> int)
    requires k < |s|
    ensures Sum(s[k := v], f) == Sum(s, f) - f(s[k]) + f(v)
  {
    SplitAt(s, k);
    SplitAt(s[k := v], k);
    assert s[k := v][..k] == s[..k] && s[k := v][k + 1..] == s[k + 1..];
    SumAround(s[..k], s[k], s[k + 1..], f);
    SumAround(s[..k], v, s[k + 1..], f);
  }

  /** Removing one element lowers the sum by its term. */
  lemma SumRemove<T>(s: seq<T>, k: nat, f: T -> int)
    requires k < |s|
    ensures Sum(s[..k] + s[k + 1..], f) == Sum(s, f) - f(s[k])
  {
    SplitAt(s, k);
    SumAround(s[..k], s[k], s[k + 1..], f);
    SumAppend(s[..k], s[k + 1..], f);
  }

  lemma FilterCons<T>(s: seq<T>, p: T -> bool)
    requires s != []
    ensures Filter(s, p) == (if p(s[0]) then [s[0]] else []) + Filter(s[1..], p)
  {
  }

  /** A filter that rejects exactly one position removes exactly that element. */
  lemma {:induction false} FilterRemovesOne<T>(s: seq<T>, k: nat, p: T -> bool)
    requires k < |s| && !p(s[k])
    requires forall i :: 0 <= i < |s| && i != k ==> p(s[i])
    ensures Filter(s, p) == s[..k] + s[k + 1..]
  {
    var t := s[1..];
    forall i | 0 <= i < |t| && i != k - 1 ensures p(t[i]) {
      assert t[i] == s[i + 1];
    }
    if k == 0 {
      FilterAll(t, p);
      FilterDropsHead(s, p);
    } else {
      assert p(s[0]);
      FilterRemovesOne(t, k - 1, p);
      FilterKeepsHead(s, p, t[..k - 1] + t[k..]);
      SpliceOfTail(s, k);
    }
  }

  lemma FilterDropsHead<T>(s: seq<T>, p: T -> bool)
    requires s != [] && !p(s[0]) && Filter(s[1..], p) == s[1..]
    ensures Filter(s, p) == s[..0] + s[1..]
  {
    FilterCons(s, p);
  }

  lemma FilterKeepsHead<T>(s: seq<T>, p: T -> bool, rest: seq<T>)
    requires s != [] && p(s[0]) && Filter(s[1..], p) == rest
    ensures Filter(s, p) == [s[0]] + rest
  {
    FilterCons(s, p);
  }

  lemma SpliceOfTail<T>(s: seq<T>, k: nat)
    requires 0 < k < |s|
    ensures s[..k] + s[k + 1..] == [s[0]] + (s[1..][..k - 1] + s[1..][k..])
  {
  }

  /** The largest element of a non-empty list (Math.max over a spread array). */
  function MaxOf(s: seq<int>): (m: int)
    requires s != []
    ensures m in s && forall i :: 0 <= i < |s| ==> s[i] <= m
  {
    if |s| == 1 then s[0]
    else
      var m' := MaxOf(s[1..]);
      if s[0] >= m' then s[0] else m'
  }

  /** A JavaScript number, as far as the components can produce one. */
  datatype JsNumber = Finite(n: int) | NegativeInfinity | NotANumber

  /** `Math.max(...ids) + 1` as JavaScript evaluates it: the maximum of no
      numbers is -Infinity, and -Infinity + 1 is still -Infinity. */
  function JsMaxPlusOne(ids: seq<int>): JsNumber {
    if ids == [] then NegativeInfinity else Finite(MaxOf(ids) + 1)
  }

  /** The id a list manager gives a new record: one more than the largest id,
      and 1 for an empty list. */
  function NextId(ids: seq<int>): (r: int)
    ensures forall i :: 0 <= i < |ids| ==> ids[i] < r
    ensures ids == [] ==> r == 1
    ensures ids != [] ==> r - 1 in ids
  {
    if ids == [] then 1 else MaxOf(ids) + 1
  }

  /** On a non-empty list the id agrees with what the source computes. */
  lemma NextIdMatchesSource(ids: seq<int>)
    requires ids != []
    ensures JsMaxPlusOne(ids) == Finite(NextId(ids))
  {
  }

  /** In a list without repeated elements every element occurs at most once. */
  lemma {:induction false} DistinctMultiplicity<T>(t: seq<T>)
    requires forall a, b :: 0 <= a < b < |t| ==> t[a] != t[b]
    ensures forall x :: multiset(t)[x] <= 1
    decreases |t|
  {
    if t != [] {
      var pre := t[..|t| - 1];
      assert t == pre + [t[|t| - 1]];
      DistinctMultiplicity(pre);
      forall j | 0 <= j < |pre| ensures pre[j] != t[|t| - 1] {
        assert pre[j] == t[j];
      }
      assert t[|t| - 1] !in pre;
    }
  }

  /** An element at two positions occurs at least twice. */
  lemma Multiplicity2<T>(s: seq<T>, i: nat, j: nat)
    requires i < j < |s| && s[i] == s[j]
    ensures multiset(s)[s[i]] >= 2
  {
    assert s == s[..j] + [s[j]] + s[j + 1..];
    assert s[..j][i] == s[i];
    assert s[i] in multiset(s[..j]);
  }

  /** Reordering a list without repeated elements keeps it without repeats. */
  lemma PermutationDistinct<T>(t: seq<T>, s: seq<T>)
    requires multiset(s) == multiset(t)
    requires forall a, b :: 0 <= a < b < |t| ==> t[a] != t[b]
    ensures forall a, b :: 0 <= a < b < |s| ==> s[a] != s[b]
  {
    DistinctMultiplicity(t);
    forall a, b | 0 <= a < b < |s| ensures s[a] != s[b] {
      if s[a] == s[b] {
        Multiplicity2(s, a, b);
      }
    }
  }

  // ---------------------------------------------------------------------------
  // String order (String.prototype.localeCompare, taken as code-point order)
  // ---------------------------------------------------------------------------

  /** `a` sorts no later than `b`: lexicographic order on characters. */
  predicate LexLeq(a: string, b: string) {
    a == [] || (b != [] && (a[0] < b[0] || (a[0] == b[0] && LexLeq(a[1..], b[1..]))))
  }

  lemma {:induction false} LexLeqTotal(a: string, b: string)
    ensures LexLeq(a, b) || LexLeq(b, a)
  {
    if a != [] && b != [] && a[0] == b[0] {
      LexLeqTotal(a[1..], b[1..]);
    }
  }

  lemma {:induction false} LexLeqTransitive(a: string, b: string, c: string)
    requires LexLeq(a, b) && LexLeq(b, c)
    ensures LexLeq(a, c)
  {
    if a != [] && a[0] == b[0] && b[0] == c[0] {
      LexLeqTransitive(a[1..], b[1..], c[1..]);
    }
  }

  /** Two strings each sorting no later than the other are equal. */
  lemma {:induction false} LexLeqAntisymmetric(a: string, b: string)
    requires LexLeq(a, b) && LexLeq(b, a)
    ensures a == b
  {
    if a != [] {
      LexLeqAntisymmetric(a[1..], b[1..]);
      assert a == [a[0]] + a[1..] && b == [b[0]] + b[1..];
    }
  }

  // ---------------------------------------------------------------------------
  // Sorting by a comparator
  // ---------------------------------------------------------------------------

  ghost predicate TotalPreorder<T(!new)>(leq: (T, T) -> bool) {
    && (forall a, b :: leq(a, b) || leq(b, a))
    && (forall a, b, c :: leq(a, b) && leq(b, c) ==> leq(a, c))
  }

  predicate SortedBy<T>(s: seq<T>, leq: (T, T) -> bool) {
    forall i, j :: 0 <= i < j < |s| ==> leq(s[i], s[j])
  }

  /** Inserts `x` before the first element it does not have to follow. */
  function Insert<T(!new)>(x: T, s: seq<T>, leq: (T, T) -> bool): (r: seq<T>)
    requires TotalPreorder(leq) && SortedBy(s, leq)
    ensures SortedBy(r, leq)
    ensures multiset(r) == multiset(s) + multiset{x}
    ensures |r| == |s| + 1
  {
    if s == [] || leq(x, s[0]) then
      InsertFirst(x, s, leq);
      [x] + s
    else
      var t := Insert(x, s[1..], leq);
      InsertedAfterHead(x, s, t, leq);
      [s[0]] + t
  }

  lemma InsertFirst<T(!new)>(x: T, s: seq<T>, leq: (T, T) -> bool)
    requires TotalPreorder(leq) && SortedBy(s, leq)
    requires s == [] || leq(x, s[0])
    ensures SortedBy([x] + s, leq)
  {
    var r := [x] + s;
    forall i, j | 0 <= i < j < |r| ensures leq(r[i], r[j]) {
      if i == 0 {
        if j > 1 {
          assert leq(s[0], s[j - 1]);
        }
      } else {
        assert r[i] == s[i - 1] && r[j] == s[j - 1];
      }
    }
  }

  /** The head of `s` may precede everything in the insertion into its tail. */
  lemma InsertedAfterHead<T(!new)>(x: T, s: seq<T>, t: seq<T>, leq: (T, T) -> bool)
    requires TotalPreorder(leq) && SortedBy(s, leq)
    requires s != [] && !leq(x, s[0])
    requires SortedBy(t, leq) && multiset(t) == multiset(s[1..]) + multiset{x}
    ensures SortedBy([s[0]] + t, leq)
    ensures multiset([s[0]] + t) == multiset(s) + multiset{x}
  {
    assert s == [s[0]] + s[1..];
    forall k | 0 <= k < |t| ensures leq(s[0], t[k]) {
      assert t[k] in multiset(t);
      if t[k] != x {
        assert t[k] in multiset(s[1..]);
        var j :| 0 <= j < |s[1..]| && s[1..][j] == t[k];
        assert s[j + 1] == t[k];
      }
    }
    var r := [s[0]] + t;
    forall i, j | 0 <= i < j < |r| ensures leq(r[i], r[j]) {
      if i > 0 {
        assert r[i] == t[i - 1] && r[j] == t[j - 1];
      }
    }
  }

  /** Insertion sort of `s` by `leq`. */
  function SortBy<T(!new)>(s: seq<T>, leq: (T, T) -> bool): (r: seq<T>)
    requires TotalPreorder(leq)
    ensures SortedBy(r, leq)
    ensures multiset(r) == multiset(s)
    ensures |r| == |s|
  {
    if s == [] then []
    else
      assert s == [s[0]] + s[1..];
      Insert(s[0], SortBy(s[1..], leq), leq)
  }
}
