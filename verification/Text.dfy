/** The functions of Go's `strings` and `strconv` packages that the SIP code calls,
    on ASCII text, with the laws the codec proofs need. */
module Text {
  import opened Wrappers

  const CRLF: string := "\r\n"
  const BLANK_LINE: string := "\r\n\r\n"

  /** The ASCII characters of `unicode.IsSpace`: tab, LF, VT, FF, CR and blank. */
  predicate IsSpace(c: char) { c == ' ' || '\t' <= c <= '\r' }

  predicate IsUpper(c: char) { 'A' <= c <= 'Z' }

  predicate IsLower(c: char) { 'a' <= c <= 'z' }

  predicate IsDigit(c: char) { '0' <= c <= '9' }

  /** The word separators of `strings.Title`. */
  predicate IsSeparator(c: char) { !IsUpper(c) && !IsLower(c) && !IsDigit(c) && c != '_' }

  function Upper(c: char): char { if IsLower(c) then (c as int - 32) as char else c }

  function Lower(c: char): char { if IsUpper(c) then (c as int + 32) as char else c }

  function ToUpper(s: string): string { seq(|s|, i requires 0 <= i < |s| => Upper(s[i])) }

  function ToLower(s: string): string { seq(|s|, i requires 0 <= i < |s| => Lower(s[i])) }

  /** `strings.Title`: the first letter of every word in upper case, the rest untouched. */
  function Title(s: string): string {
    seq(|s|, i requires 0 <= i < |s| => TitleAt(s, i))
  }

  function TitleAt(s: string, i: nat): char
    requires i < |s|
  {
    if i == 0 || IsSeparator(s[i - 1]) then Upper(s[i]) else s[i]
  }

  lemma TitleIdempotent(s: string)
    ensures Title(Title(s)) == Title(s)
  {}

  // ----- trimming -----

  function DropLeft(s: string, cut: char -> bool): string {
    if s != "" && cut(s[0]) then DropLeft(s[1..], cut) else s
  }

  function DropRight(s: string, cut: char -> bool): string {
    if s != "" && cut(s[|s| - 1]) then DropRight(s[..|s| - 1], cut) else s
  }

  function TrimSpace(s: string): string { DropRight(DropLeft(s, IsSpace), IsSpace) }

  /** `strings.Trim(s, "<>")`. */
  function TrimAngles(s: string): string {
    DropRight(DropLeft(s, IsAngle), IsAngle)
  }

  predicate IsAngle(c: char) { c == '<' || c == '>' }

  predicate Trimmed(s: string) { s == "" || (!IsSpace(s[0]) && !IsSpace(s[|s| - 1])) }

  lemma TrimmedIsFixed(s: string)
    requires Trimmed(s)
    ensures TrimSpace(s) == s && TrimSpace(" " + s) == s
  {}

  // ----- searching and splitting -----

  /** `strings.Index`: the first occurrence, or -1. */
  function Index(s: string, sep: string): (i: int)
    ensures i == -1 || 0 <= i <= |s| - |sep|
  {
    if sep <= s then 0
    else if s == "" then -1
    else
      var j := Index(s[1..], sep);
      if j < 0 then -1 else j + 1
  }

  predicate Contains(s: string, sub: string) { Index(s, sub) >= 0 }

  function Split(s: string, sep: string): (parts: seq<string>)
    requires sep != ""
    ensures parts != []
    decreases |s|
  {
    var i := Index(s, sep);
    if i < 0 then [s] else [s[..i]] + Split(s[i + |sep|..], sep)
  }

  /** `strings.SplitN(s, sep, n)` for a positive n. */
  function SplitN(s: string, sep: string, n: nat): (parts: seq<string>)
    requires sep != "" && n > 0
    ensures 1 <= |parts| <= n
    decreases n
  {
    var i := Index(s, sep);
    if n == 1 || i < 0 then [s] else [s[..i]] + SplitN(s[i + |sep|..], sep, n - 1)
  }

  function Join(parts: seq<string>, sep: string): string
    requires parts != []
  {
    if |parts| == 1 then parts[0] else parts[0] + sep + Join(parts[1..], sep)
  }

  lemma IndexStep(c: char, x: string, sep: string)
    requires !(sep <= [c] + x)
    ensures Index([c] + x, sep) == if Index(x, sep) < 0 then -1 else 1 + Index(x, sep)
  {}

  /** A prefix without the separator's first character is skipped whole by the search. */
  lemma {:induction false} IndexSkips(p: string, x: string, sep: string)
    requires sep != "" && sep[0] !in p
    ensures Index(p + x, sep) == if Index(x, sep) < 0 then -1 else |p| + Index(x, sep)
  {
    if p == "" {
      assert p + x == x;
    } else {
      assert (p + x)[0] == p[0] != sep[0];
      assert (p + x)[1..] == p[1..] + x;
      IndexSkips(p[1..], x, sep);
    }
  }

  lemma {:induction false} IndexAbsent(p: string, sep: string)
    requires sep != "" && sep[0] !in p
    ensures Index(p, sep) == -1
  {
    assert p + "" == p;
    assert Index("", sep) == -1;
    IndexSkips(p, "", sep);
  }

  lemma IndexFound(p: string, x: string, sep: string)
    requires sep != "" && sep[0] !in p
    ensures Index(p + sep + x, sep) == |p|
    ensures (p + sep + x)[..|p|] == p && (p + sep + x)[|p| + |sep|..] == x
  {
    assert p + sep + x == p + (sep + x);
    assert sep <= sep + x;
    IndexSkips(p, sep + x, sep);
  }

  predicate AllLack(parts: seq<string>, c: char) { forall i :: 0 <= i < |parts| ==> c !in parts[i] }

  /** Splitting takes one clean piece off the front. */
  lemma SplitCons(p: string, x: string, sep: string)
    requires sep != "" && sep[0] !in p
    ensures Split(p + sep + x, sep) == [p] + Split(x, sep)
    ensures SplitN(p + sep + x, sep, 2) == [p, x]
  {
    IndexFound(p, x, sep);
    assert SplitN(x, sep, 1) == [x];
  }

  lemma SplitOne(p: string, sep: string)
    requires sep != "" && sep[0] !in p
    ensures Split(p, sep) == [p] && SplitN(p, sep, 2) == [p]
  {
    IndexAbsent(p, sep);
  }

  lemma Reassociate(a: string, b: string, c: string, d: string, e: string)
    ensures a + b + c + d + e == a + b + (c + d + e)
  {}

  /** Splitting undoes joining, whatever text follows the joined pieces. */
  lemma {:induction false} SplitJoinThen(parts: seq<string>, x: string, sep: string)
    requires sep != "" && parts != [] && AllLack(parts, sep[0])
    ensures Split(Join(parts, sep) + sep + x, sep) == parts + Split(x, sep)
  {
    if |parts| == 1 {
      SplitCons(parts[0], x, sep);
    } else {
      var tail := Join(parts[1..], sep);
      Reassociate(parts[0], sep, tail, sep, x);
      SplitCons(parts[0], tail + sep + x, sep);
      SplitJoinThen(parts[1..], x, sep);
      FrontBack(parts, Split(x, sep));
    }
  }

  lemma FrontBack(parts: seq<string>, more: seq<string>)
    requires parts != []
    ensures [parts[0]] + (parts[1..] + more) == parts + more
  {}

  lemma {:induction false} SplitJoin(parts: seq<string>, sep: string)
    requires sep != "" && parts != [] && AllLack(parts, sep[0])
    ensures Split(Join(parts, sep), sep) == parts
  {
    if |parts| == 1 {
      SplitOne(parts[0], sep);
    } else {
      var rest := Join(parts[1..], sep);
      SplitJoin(parts[1..], sep);
      calc {
        Split(Join(parts, sep), sep);
        Split(parts[0] + sep + rest, sep);
        { SplitCons(parts[0], rest, sep); }
        [parts[0]] + Split(rest, sep);
        [parts[0]] + parts[1..];
        parts;
      }
    }
  }

  /** Where a one-character separator is found, and what its absence means. */
  lemma {:induction false} IndexOfChar(s: string, c: char)
    ensures var i := Index(s, [c]);
      if i < 0 then c !in s else c !in s[..i] && s == s[..i] + [c] + s[i + 1..]
  {
    if s != "" {
      var t := s[1..];
      assert s == [s[0]] + t;
      if s[0] == c {
        assert [c] <= s && s[..0] == "";
      } else {
        IndexOfChar(t, c);
        IndexStep(s[0], t, [c]);
        var j := Index(t, [c]);
        if j >= 0 { OneFurther(s[0], t, j, c); }
      }
    }
  }

  lemma OneFurther(x: char, t: string, j: nat, c: char)
    requires j < |t| && x != c && c !in t[..j] && t == t[..j] + [c] + t[j + 1..]
    ensures var s := [x] + t; c !in s[..j + 1] && s == s[..j + 1] + [c] + s[j + 2..]
  {
    assert ([x] + t)[..j + 1] == [x] + t[..j];
  }

  /** A clean piece at the end is split off, whatever comes before. */
  lemma {:induction false} SplitSnoc(s: string, c: char, x: string)
    requires c !in x
    ensures Split(s + [c] + x, [c]) == Split(s, [c]) + [x]
    decreases |s|
  {
    var i := Index(s, [c]);
    IndexOfChar(s, c);
    SplitOne(x, [c]);
    if i < 0 {
      SplitCons(s, x, [c]);
    } else {
      var p, rest := s[..i], s[i + 1..];
      SplitSnoc(rest, c, x);
      Reassociate(p, [c], rest, [c], x);
      SplitCons(p, rest + [c] + x, [c]);
      assert [p] + (Split(rest, [c]) + [x]) == ([p] + Split(rest, [c])) + [x];
    }
  }

  // ----- words -----

  function Word(s: string): (w: string)
    ensures w <= s
  {
    if s == "" || IsSpace(s[0]) then "" else [s[0]] + Word(s[1..])
  }

  function Fields(s: string): seq<string>
    decreases |s|
  {
    DropLeftShorter(s);
    var t := DropLeft(s, IsSpace);
    if t == "" then [] else [Word(t)] + Fields(t[|Word(t)|..])
  }

  lemma {:induction s} DropLeftShorter(s: string)
    ensures var t := DropLeft(s, IsSpace); |t| <= |s| && (t != "" ==> |Word(t)| > 0)
  {}

  predicate Solid(s: string) { forall c :: c in s ==> !IsSpace(c) }

  lemma {:induction false} WordOf(a: string, x: string)
    requires Solid(a) && (x == "" || IsSpace(x[0]))
    ensures Word(a + x) == a
  {
    if a == "" {
      assert a + x == x;
    } else {
      assert (a + x)[1..] == a[1..] + x;
      WordOf(a[1..], x);
    }
  }

  lemma FieldsOfPair(a: string, b: string)
    requires Solid(a) && Solid(b) && a != "" && b != ""
    ensures Fields(a + " " + b) == [a, b]
  {
    var s := a + " " + b;
    assert s == a + (" " + b) && s[0] == a[0] && DropLeft(s, IsSpace) == s;
    WordOf(a, " " + b);
    assert s[|a|..] == " " + b && (" " + b)[1..] == b;
    assert DropLeft(" " + b, IsSpace) == DropLeft(b, IsSpace) == b;
    assert b + "" == b && b[|b|..] == "";
    WordOf(b, "");
    assert Fields(b) == [b] + Fields("");
    assert Fields(" " + b) == [b];
  }

  // ----- decimal numbers -----

  function Digit(d: nat): char
    requires d < 10
  {
    ('0' as int + d) as char
  }

  function ItoaNat(n: nat): (s: string)
    ensures s != "" && forall c :: c in s ==> IsDigit(c)
  {
    if n < 10 then [Digit(n)] else ItoaNat(n / 10) + [Digit(n % 10)]
  }

  /** `strconv.Itoa`, on unbounded integers. */
  function Itoa(n: int): string { if n < 0 then "-" + ItoaNat(-n) else ItoaNat(n) }

  function AtoiNat(s: string): Option<nat>
  {
    if s == "" || !IsDigit(s[|s| - 1]) then None
    else
      var low := s[|s| - 1] as int - '0' as int;
      if |s| == 1 then Some(low)
      else match AtoiNat(s[..|s| - 1])
        case None => None
        case Some(high) => Some(10 * high + low)
  }

  /** `strconv.Atoi`: an optional sign and at least one digit, nothing else. */
  function Atoi(s: string): Option<int> {
    if s != "" && (s[0] == '-' || s[0] == '+') then
      match AtoiNat(s[1..])
      case None => None
      case Some(n) => if s[0] == '-' then Some(-(n as int)) else Some(n)
    else match AtoiNat(s)
      case None => None
      case Some(n) => Some(n)
  }

  lemma {:induction false} AtoiNatUndoesItoaNat(n: nat)
    ensures AtoiNat(ItoaNat(n)) == Some(n)
  {
    if n >= 10 {
      var s := ItoaNat(n);
      assert s[..|s| - 1] == ItoaNat(n / 10);
      AtoiNatUndoesItoaNat(n / 10);
    }
  }

  lemma AtoiUndoesItoa(n: int)
    ensures Atoi(Itoa(n)) == Some(n)
  {
    AtoiNatUndoesItoaNat(if n < 0 then -n else n);
    if n < 0 {
      assert Itoa(n)[1..] == ItoaNat(-n);
    } else {
      assert IsDigit(ItoaNat(n)[0]);
    }
  }

  lemma ItoaIsPlain(n: int)
    ensures Itoa(n) != "" && forall c :: c in Itoa(n) ==> IsDigit(c) || c == '-'
    ensures Solid(Itoa(n)) && Trimmed(Itoa(n))
  {}
}
