/** The user-data document handed to a new instance: three strings, written as JSON by an
    encoder that escapes `<`, `>` and `&`, and then unescaped again by three textual
    replacements. */
module UserData {
  import opened Common

  // ------------------------------------------------ JSON strings (RFC 8259, section 7)

  const HexDigits: string := "0123456789abcdef"

  function HexValue(c: char): Option<nat> {
    if '0' <= c <= '9' then Some(c as int - '0' as int)
    else if 'a' <= c <= 'f' then Some(c as int - 'a' as int + 10)
    else if 'A' <= c <= 'F' then Some(c as int - 'A' as int + 10)
    else None
  }

  /** `\u` and four lower-case hexadecimal digits. */
  function UnicodeEscape(code: nat): string
    requires code < 0x10000
  {
    ['\\', 'u', HexDigits[code / 16 / 16 / 16], HexDigits[code / 16 / 16 % 16],
     HexDigits[code / 16 % 16], HexDigits[code % 16]]
  }

  /** The characters the encoder escapes although JSON does not ask for it. */
  predicate HtmlSensitive(c: char) {
    c == '<' || c == '>' || c == '&'
  }

  /** The letter of a two-character escape. */
  function ShortFor(c: char): Option<char> {
    if c == '"' then Some('"')
    else if c == '\\' then Some('\\')
    else if c == '\n' then Some('n')
    else if c == '\r' then Some('r')
    else if c == '\t' then Some('t')
    else None
  }

  predicate NeedsUnicode(c: char, plain: set<char>) {
    c < ' ' || c == '\U{2028}' || c == '\U{2029}' || (HtmlSensitive(c) && c !in plain)
  }

  /** How the encoder writes one character; those in `plain` are left as they are. */
  function EscapeChar(c: char, plain: set<char>): string {
    if ShortFor(c).Some? then ['\\', ShortFor(c).value]
    else if NeedsUnicode(c, plain) then UnicodeEscape(c as int)
    else [c]
  }

  function Escape(text: string, plain: set<char>): string {
    if text == [] then [] else EscapeChar(text[0], plain) + Escape(text[1..], plain)
  }

  /** The character of a `\uXXXX` escape at the start of `s`; surrogates are refused. */
  function UnescapeUnicode(s: string): Option<char> {
    if |s| < 6 || s[0] != '\\' || s[1] != 'u' then None
    else
      var a, b, c, d := HexValue(s[2]), HexValue(s[3]), HexValue(s[4]), HexValue(s[5]);
      if a.None? || b.None? || c.None? || d.None? then None
      else
        var code := a.value * 4096 + b.value * 256 + c.value * 16 + d.value;
        if code < 0xD800 || 0xE000 <= code < 0x10000 then Some(code as char) else None
  }

  function ShortEscape(c: char): Option<char> {
    match c
    case '"' => Some('"')
    case '\\' => Some('\\')
    case '/' => Some('/')
    case 'b' => Some(8 as char)
    case 'f' => Some(12 as char)
    case 'n' => Some('\n')
    case 'r' => Some('\r')
    case 't' => Some('\t')
    case _ => None
  }

  /** The first character of the body of a JSON string and the number of characters it is
      written with; None if the body is malformed there. */
  function UnescapeChar(s: string): Option<(char, nat)>
    requires s != []
    ensures UnescapeChar(s).Some? ==> 1 <= UnescapeChar(s).value.1 <= |s|
  {
    if s[0] == '\\' then
      if |s| >= 2 && s[1] == 'u' then
        var c := UnescapeUnicode(s);
        if c.Some? then Some((c.value, 6)) else None
      else if |s| >= 2 && ShortEscape(s[1]).Some? then Some((ShortEscape(s[1]).value, 2))
      else None
    else if s[0] < ' ' || s[0] == '"' then None
    else Some((s[0], 1))
  }

  /** Reads the body of a JSON string up to its closing quote: the text and what follows the
      quote; None if that is not a well-formed string. */
  function ReadString(s: string): Option<(string, string)> {
    if s == [] then None
    else if s[0] == '"' then Some(("", s[1..]))
    else
      var c := UnescapeChar(s);
      if c.None? then None
      else
        var rest := ReadString(s[c.value.1..]);
        if rest.None? then None else Some(([c.value.0] + rest.value.0, rest.value.1))
  }

  // -------------------------------------------------------------- replacement

  /** Replaces every occurrence of `pattern`, from left to right. */
  function ReplaceAll(s: string, pattern: string, replacement: string): string
    requires pattern != []
  {
    if |s| < |pattern| then s
    else if pattern <= s then replacement + ReplaceAll(s[|pattern|..], pattern, replacement)
    else [s[0]] + ReplaceAll(s[1..], pattern, replacement)
  }

  /** The escape of an HTML-sensitive character. */
  function Pattern(c: char): string
    requires HtmlSensitive(c)
  {
    match c
    case '<' => "\\u003c"
    case '>' => "\\u003e"
    case _ => "\\u0026"
  }

  function ReplaceHtmlEscapes(s: string): string {
    var s1 := ReplaceAll(s, Pattern('<'), "<");
    var s2 := ReplaceAll(s1, Pattern('>'), ">");
    ReplaceAll(s2, Pattern('&'), "&")
  }

  /** The text has the six characters of the escape of `c`, literally, at position `i`. */
  predicate LiteralAt(text: string, c: char, i: nat)
    requires HtmlSensitive(c)
  {
    i <= |text| && Pattern(c) <= text[i..]
  }

  predicate EscapeAt(text: string, i: nat) {
    LiteralAt(text, '<', i) || LiteralAt(text, '>', i) || LiteralAt(text, '&', i)
  }

  /** None of the three escapes occurs literally in the text. */
  ghost predicate Clean(text: string) {
    forall i: nat :: !EscapeAt(text, i)
  }

  // -------------------------------------------------------------- one pass

  const All: set<char> := {'<', '>', '&'}

  lemma PatternIsEscape(c: char)
    requires HtmlSensitive(c)
    ensures Pattern(c) == UnicodeEscape(c as int)
  {
    assert HexDigits[0] == '0' && HexDigits[2] == '2' && HexDigits[3] == '3';
    assert HexDigits[6] == '6' && HexDigits[12] == 'c' && HexDigits[14] == 'e';
  }

  function Replaced(s: string, c: char): string
    requires HtmlSensitive(c)
  {
    ReplaceAll(s, Pattern(c), [c])
  }

  /** No match can start at the head of `s`. */
  lemma SkipHead(s: string, c: char)
    requires HtmlSensitive(c) && s != [] && !(Pattern(c) <= s)
    ensures Replaced(s, c) == [s[0]] + Replaced(s[1..], c)
  {
  }

  lemma {:induction false} SkipText(e: string, s: string, c: char)
    requires HtmlSensitive(c) && '\\' !in e
    ensures Replaced(e + s, c) == e + Replaced(s, c)
  {
    if e == [] {
      assert e + s == s;
    } else {
      assert (e + s)[1..] == e[1..] + s && (e + s)[0] == e[0];
      assert Pattern(c)[0] == '\\' && e[0] in e;
      SkipHead(e + s, c);
      SkipText(e[1..], s, c);
      assert [e[0]] + (e[1..] + Replaced(s, c)) == e + Replaced(s, c);
    }
  }

  lemma MatchHead(s: string, c: char)
    requires HtmlSensitive(c)
    ensures Replaced(Pattern(c) + s, c) == [c] + Replaced(s, c)
  {
    assert (Pattern(c) + s)[|Pattern(c)|..] == s;
  }

  /** A six-character escape of another character is passed over. */
  lemma SkipEscape(e: string, s: string, c: char)
    requires HtmlSensitive(c) && |e| == 6 && e != Pattern(c) && '\\' !in e[1..]
    ensures Replaced(e + s, c) == e + Replaced(s, c)
  {
    assert (e + s)[..6] == e;
    SkipHead(e + s, c);
    assert (e + s)[1..] == e[1..] + s;
    SkipText(e[1..], s, c);
    assert [e[0]] + (e[1..] + Replaced(s, c)) == e + Replaced(s, c);
  }

  lemma MatchAfterBackslash(s: string, c: char)
    requires HtmlSensitive(c)
    ensures Pattern(c) <= ['\\'] + s <==> Pattern(c)[1..] <= s
  {
    var z := ['\\'] + s;
    assert z[1..] == s && Pattern(c) == ['\\'] + Pattern(c)[1..];
    if Pattern(c)[1..] <= s {
      assert s == Pattern(c)[1..] + s[5..];
      assert z == Pattern(c) + s[5..];
    }
  }

  lemma SkipBackslash(s: string, c: char)
    requires HtmlSensitive(c) && !(Pattern(c)[1..] <= s)
    ensures Replaced(['\\'] + s, c) == ['\\'] + Replaced(s, c)
  {
    MatchAfterBackslash(s, c);
    SkipHead(['\\'] + s, c);
  }

  lemma EscapesDiffer(x: char, c: char)
    requires HtmlSensitive(c) && x != c && x as int < 0x10000
    ensures UnicodeEscape(x as int) != Pattern(c) && '\\' !in UnicodeEscape(x as int)[1..]
  {
    PatternIsEscape(c);
    HexRoundTrip(x as int);
    HexRoundTrip(c as int);
  }

  lemma DigitValue(d: nat)
    requires d < 16
    ensures HexValue(HexDigits[d]) == Some(d)
  {
  }

  lemma HexRoundTrip(code: nat)
    requires code < 0x10000
    ensures var e := UnicodeEscape(code);
            && HexValue(e[2]) == Some(code / 16 / 16 / 16) && HexValue(e[3]) == Some(code / 16 / 16 % 16)
            && HexValue(e[4]) == Some(code / 16 % 16) && HexValue(e[5]) == Some(code % 16)
    ensures code == code / 16 / 16 / 16 * 4096 + code / 16 / 16 % 16 * 256 + code / 16 % 16 * 16 + code % 16
  {
    DigitValue(code / 16 / 16 / 16);
    DigitValue(code / 16 / 16 % 16);
    DigitValue(code / 16 % 16);
    DigitValue(code % 16);
  }

  lemma PassShort(x: char, s: string, c: char)
    requires HtmlSensitive(c) && ShortFor(x).Some?
    requires x == '\\' ==> !(Pattern(c)[1..] <= s)
    ensures Replaced(['\\', ShortFor(x).value] + s, c) == ['\\', ShortFor(x).value] + Replaced(s, c)
  {
    var q := ShortFor(x).value;
    var z := [q] + s;
    assert ['\\', q] + s == ['\\'] + z;
    assert Pattern(c)[1..][0] == 'u' && z[0] == q;
    SkipBackslash(z, c);
    if q == '\\' {
      SkipBackslash(s, c);
    } else {
      SkipText([q], s, c);
    }
    assert ['\\'] + ([q] + Replaced(s, c)) == ['\\', q] + Replaced(s, c);
  }

  /** One pass over the encoding of one character. */
  lemma PassChar(x: char, plain: set<char>, s: string, c: char)
    requires HtmlSensitive(c) && c !in plain
    requires x == '\\' ==> !(Pattern(c)[1..] <= s)
    ensures Replaced(EscapeChar(x, plain) + s, c) == EscapeChar(x, plain + {c}) + Replaced(s, c)
  {
    if x == c {
      PatternIsEscape(c);
      MatchHead(s, c);
    } else if ShortFor(x).Some? {
      PassShort(x, s, c);
    } else if NeedsUnicode(x, plain) {
      EscapesDiffer(x, c);
      SkipEscape(UnicodeEscape(x as int), s, c);
    } else {
      SkipText([x], s, c);
    }
  }

  /** What may follow an encoded text without completing a match begun inside it. */
  predicate Stops(y: string) {
    y == [] || y[0] == '"' || (|y| >= 2 && y[0] == '\\' && y[1] != 'u')
  }

  lemma UnescapedHead(x: char, plain: set<char>)
    ensures EscapeChar(x, plain) != [] && (EscapeChar(x, plain)[0] == '\\' || EscapeChar(x, plain) == [x])
  {
  }

  /** Letters and digits at the head of an encoding stand for themselves. */
  lemma {:induction false} PlainPrefix(p: string, a: string, plain: set<char>, y: string)
    requires forall i :: 0 <= i < |p| ==> p[i] != '\\' && p[i] != '"'
    requires Stops(y) && p <= Escape(a, plain) + y
    ensures p <= a
    decreases |p|
  {
    hide EscapeChar;
    if p != [] {
      var s := Escape(a, plain) + y;
      assert p[0] == s[0];
      if a != [] {
        var rest := Escape(a[1..], plain) + y;
        UnescapedHead(a[0], plain);
        assert s == EscapeChar(a[0], plain) + rest;
        assert s == [a[0]] + rest && p[1..] <= rest;
        PlainPrefix(p[1..], a[1..], plain, y);
      }
    }
  }

  /** A match can only begin at an escaped backslash if the text has the escape literally. */
  lemma MatchMeansLiteral(a: string, plain: set<char>, y: string, c: char)
    requires HtmlSensitive(c) && a != [] && a[0] == '\\' && Stops(y)
    ensures Pattern(c)[1..] <= Escape(a[1..], plain) + y ==> EscapeAt(a, 0)
  {
    if Pattern(c)[1..] <= Escape(a[1..], plain) + y {
      PlainPrefix(Pattern(c)[1..], a[1..], plain, y);
      MatchAfterBackslash(a[1..], c);
      assert a == ['\\'] + a[1..] && a[0..] == a;
    }
  }

  lemma CleanTail(a: string, k: nat)
    requires Clean(a) && k <= |a|
    ensures Clean(a[k..])
  {
    forall i: nat ensures !EscapeAt(a[k..], i) {
      assert !EscapeAt(a, k + i);
      assert i <= |a[k..]| ==> a[k..][i..] == a[k + i..];
    }
  }

  /** One pass over the encoding of a whole text. */
  lemma {:induction false} PassText(a: string, plain: set<char>, y: string, c: char)
    requires HtmlSensitive(c) && c !in plain && Clean(a) && Stops(y)
    ensures Replaced(Escape(a, plain) + y, c) == Escape(a, plain + {c}) + Replaced(y, c)
    decreases |a|
  {
    hide EscapeChar, Replaced, Pattern, LiteralAt, Stops;
    if a == [] {
      assert Escape(a, plain) + y == y;
    } else {
      var s := Escape(a[1..], plain) + y;
      assert Escape(a, plain) + y == EscapeChar(a[0], plain) + s;
      assert !EscapeAt(a, 0);
      if a[0] == '\\' {
        MatchMeansLiteral(a, plain, y, c);
      }
      PassChar(a[0], plain, s, c);
      CleanTail(a, 1);
      PassText(a[1..], plain, y, c);
      assert EscapeChar(a[0], plain + {c}) + (Escape(a[1..], plain + {c}) + Replaced(y, c))
          == Escape(a, plain + {c}) + Replaced(y, c);
    }
  }

  lemma PassStops(y: string, c: char)
    requires HtmlSensitive(c) && Stops(y)
    ensures Stops(Replaced(y, c))
  {
    if y != [] {
      SkipHead(y, c);
      if |y| >= 2 {
        var z := y[1..];
        assert Replaced(z, c)[0] == z[0] || Replaced(z, c)[0] == c;
      }
    }
  }

  // -------------------------------------------------------------- three passes

  lemma PassesOverText(a: string, y: string)
    requires Clean(a) && Stops(y)
    ensures ReplaceHtmlEscapes(Escape(a, {}) + y) == Escape(a, All) + ReplaceHtmlEscapes(y)
  {
    PassText(a, {}, y, '<');
    var y1 := Replaced(y, '<');
    PassStops(y, '<');
    assert {} + {'<'} == {'<'};
    PassText(a, {'<'}, y1, '>');
    var y2 := Replaced(y1, '>');
    PassStops(y1, '>');
    assert {'<'} + {'>'} == {'<', '>'};
    PassText(a, {'<', '>'}, y2, '&');
    assert {'<', '>'} + {'&'} == All;
  }

  lemma PassesOverFrame(e: string, s: string)
    requires '\\' !in e
    ensures ReplaceHtmlEscapes(e + s) == e + ReplaceHtmlEscapes(s)
  {
    SkipText(e, s, '<');
    SkipText(e, Replaced(s, '<'), '>');
    SkipText(e, Replaced(Replaced(s, '<'), '>'), '&');
  }

  /** A backslash in the text followed by a literal escape: after any pass, still that or the
      backslash followed by the bare character. */
  predicate Broken(s: string, c: char)
    requires HtmlSensitive(c)
  {
    |s| >= 2 && s[0] == '\\' && s[1] == c
  }

  lemma PassBroken(s: string, c: char, d: char)
    requires HtmlSensitive(c) && HtmlSensitive(d) && Broken(s, c)
    ensures Broken(Replaced(s, d), c)
  {
    SkipHead(s, d);
    assert s[1..][0] == c;
    SkipHead(s[1..], d);
  }

  lemma PassEscaped(r: string, c: char, d: char)
    requires HtmlSensitive(c) && HtmlSensitive(d)
    ensures var s := Replaced(['\\'] + (Pattern(c) + r), d);
            if c == d then Broken(s, c) else s == ['\\'] + (Pattern(c) + Replaced(r, d))
  {
    assert (Pattern(c) + r)[0] == '\\' && Pattern(d)[1..][0] == 'u';
    SkipBackslash(Pattern(c) + r, d);
    if c == d {
      MatchHead(r, c);
    } else {
      PatternIsEscape(c);
      EscapesDiffer(c, d);
      SkipEscape(Pattern(c), r, d);
    }
  }

  lemma PassesBreak(r: string, c: char)
    requires HtmlSensitive(c)
    ensures Broken(ReplaceHtmlEscapes(['\\'] + (Pattern(c) + r)), c)
  {
    var s := ['\\'] + (Pattern(c) + r);
    PassEscaped(r, c, '<');
    var s1 := Replaced(s, '<');
    if c == '<' {
      PassBroken(s1, c, '>');
    } else {
      PassEscaped(Replaced(r, '<'), c, '>');
    }
    var s2 := Replaced(s1, '>');
    if c == '&' {
      PassEscaped(Replaced(Replaced(r, '<'), '>'), c, '&');
    } else {
      PassBroken(s2, c, '&');
    }
  }

  // -------------------------------------------------------------- decoding

  lemma ReadUnicode(x: char, s: string)
    requires (x as int) < 0x10000
    ensures UnescapeUnicode(UnicodeEscape(x as int) + s) == Some(x)
  {
    HexRoundTrip(x as int);
    var e := UnicodeEscape(x as int);
    var z := e + s;
    assert z[0] == e[0] && z[1] == e[1] && z[2] == e[2] && z[3] == e[3] && z[4] == e[4] && z[5] == e[5];
  }

  lemma ReadChar(x: char, plain: set<char>, s: string)
    ensures EscapeChar(x, plain) != [] && EscapeChar(x, plain)[0] != '"'
    ensures UnescapeChar(EscapeChar(x, plain) + s) == Some((x, |EscapeChar(x, plain)|))
  {
    hide UnescapeUnicode;
    var e := EscapeChar(x, plain);
    if ShortFor(x).Some? {
      assert (e + s)[0] == '\\' && (e + s)[1] == e[1];
    } else if NeedsUnicode(x, plain) {
      ReadUnicode(x, s);
      assert (e + s)[0] == '\\' && (e + s)[1] == 'u';
    } else {
      assert (e + s)[0] == x;
    }
  }

  function Prepend(a: string, r: Option<(string, string)>): Option<(string, string)> {
    if r.None? then None else Some((a + r.value.0, r.value.1))
  }

  lemma ReadOne(x: char, plain: set<char>, s: string)
    ensures ReadString(EscapeChar(x, plain) + s) == Prepend([x], ReadString(s))
  {
    ReadChar(x, plain, s);
    var z := EscapeChar(x, plain) + s;
    assert z[0] == EscapeChar(x, plain)[0] && z[|EscapeChar(x, plain)|..] == s;
  }

  lemma PrependTwice(a: string, b: string, r: Option<(string, string)>)
    ensures Prepend(a, Prepend(b, r)) == Prepend(a + b, r)
  {
    assert r.Some? ==> a + (b + r.value.0) == (a + b) + r.value.0;
  }

  lemma PrependNothing(r: Option<(string, string)>)
    ensures Prepend([], r) == r
  {
    assert r.Some? ==> [] + r.value.0 == r.value.0;
  }

  /** The encoding of a text reads back as the text, whichever characters were left plain. */
  lemma {:induction false} ReadEscaped(a: string, plain: set<char>, s: string)
    ensures ReadString(Escape(a, plain) + s) == Prepend(a, ReadString(s))
    decreases |a|
  {
    hide EscapeChar, ReadString, Prepend;
    if a == [] {
      assert Escape(a, plain) + s == s;
      PrependNothing(ReadString(s));
    } else {
      var x, b := a[0], a[1..];
      var rest := Escape(b, plain) + s;
      EscapeFront(a, plain, s);
      ReadOne(x, plain, rest);
      ReadEscaped(b, plain, s);
      PrependTwice([x], b, ReadString(s));
      assert [x] + b == a;
    }
  }

  lemma EscapeCharIsJson(c: char, plain: set<char>, i: nat)
    requires i < |EscapeChar(c, plain)|
    ensures var x := EscapeChar(c, plain)[i];
            x >= ' ' && x != '\U{2028}' && x != '\U{2029}' && (x == '<' || x == '>' || x == '&' ==> x in plain)
  {
    if ShortFor(c).None? && NeedsUnicode(c, plain) {
      EscapeIsAlphanumeric(c as int, i);
    }
  }

  lemma EscapeIsAlphanumeric(code: nat, i: nat)
    requires code < 0x10000 && i < 6
    ensures var x := UnicodeEscape(code)[i];
            x == '\\' || 'a' <= x <= 'z' || '0' <= x <= '9'
  {
    assert forall d :: 0 <= d < 16 ==> '0' <= HexDigits[d] <= '9' || 'a' <= HexDigits[d] <= 'f';
  }

  /** The encoding has no control characters or line separators, and of `<`, `>` and `&` only those
      that were to be left plain. */
  lemma {:induction false} EncodingIsJson(a: string, plain: set<char>, i: nat)
    requires i < |Escape(a, plain)|
    ensures var x := Escape(a, plain)[i];
            x >= ' ' && x != '\U{2028}' && x != '\U{2029}' && (x == '<' || x == '>' || x == '&' ==> x in plain)
  {
    hide EscapeChar;
    var head := EscapeChar(a[0], plain);
    if i < |head| {
      EscapeCharIsJson(a[0], plain, i);
    } else {
      EncodingIsJson(a[1..], plain, i - |head|);
    }
  }

  /** Quotes, backslashes, control characters and line separators aside, the encoding with all of
      `<`, `>` and `&` left plain is the text itself, and with none left plain it is the text with
      their escapes. */
  lemma {:induction false} OrdinaryTextIsKept(a: string)
    requires forall i :: 0 <= i < |a| ==>
                a[i] >= ' ' && a[i] != '"' && a[i] != '\\' && a[i] != '\U{2028}' && a[i] != '\U{2029}'
    ensures Escape(a, All) == a
    ensures (forall i :: 0 <= i < |a| ==> a[i] != '<' && a[i] != '>' && a[i] != '&') ==> Escape(a, {}) == a
    ensures a == [] || a[0] != '<' || Escape(a, {}) == "\\u003c" + Escape(a[1..], {})
    ensures a == [] || a[0] != '>' || Escape(a, {}) == "\\u003e" + Escape(a[1..], {})
    ensures a == [] || a[0] != '&' || Escape(a, {}) == "\\u0026" + Escape(a[1..], {})
  {
    if a != [] {
      OrdinaryTextIsKept(a[1..]);
      if HtmlSensitive(a[0]) {
        PatternIsEscape(a[0]);
      }
    }
  }

  lemma EscapeFront(a: string, plain: set<char>, s: string)
    requires a != []
    ensures Escape(a, plain) + s == EscapeChar(a[0], plain) + (Escape(a[1..], plain) + s)
  {
  }

  lemma {:induction false} EscapeConcat(a: string, b: string, plain: set<char>)
    ensures Escape(a + b, plain) == Escape(a, plain) + Escape(b, plain)
    decreases |a|
  {
    if a == [] {
      assert a + b == b;
    } else {
      assert (a + b)[1..] == a[1..] + b;
      EscapeConcat(a[1..], b, plain);
    }
  }

  lemma LeastEscape(a: string, i: nat) returns (k: nat)
    requires EscapeAt(a, i)
    ensures EscapeAt(a, k) && forall j: nat :: j < k ==> !EscapeAt(a, j)
  {
    k := i;
    if j: nat :| j < i && EscapeAt(a, j) {
      k := LeastEscape(a, j);
    }
  }

  lemma EscapeInPrefix(a: string, k: nat, j: nat)
    requires k <= |a| && EscapeAt(a[..k], j)
    ensures j < k && EscapeAt(a, j)
  {
    assert a[..k][j..] <= a[j..];
  }

  /** The first literal escape of an unclean text. */
  lemma FirstLiteral(a: string) returns (k: nat)
    requires !Clean(a)
    ensures EscapeAt(a, k) && Clean(a[..k])
  {
    var i: nat :| EscapeAt(a, i);
    k := LeastEscape(a, i);
    assert k <= |a|;
    forall j: nat ensures !EscapeAt(a[..k], j) {
      if EscapeAt(a[..k], j) {
        EscapeInPrefix(a, k, j);
      }
    }
  }

  lemma EscapeOfPattern(c: char, b: string)
    requires HtmlSensitive(c)
    ensures Escape(Pattern(c) + b, {}) == ['\\'] + (Pattern(c) + Escape(b, {}))
  {
    hide Pattern, Escape;
    var q := PatternTail(c);
    BackslashPattern(q, b);
    EscapeConcat(q, b, {});
    PlainEscape(q);
    assert ['\\'] + (q + b) == Pattern(c) + b;
    assert ['\\', '\\'] + (q + Escape(b, {})) == ['\\'] + (Pattern(c) + Escape(b, {}));
  }

  lemma PatternTail(c: char) returns (q: string)
    requires HtmlSensitive(c)
    ensures Pattern(c) == ['\\'] + q
    ensures forall i :: 0 <= i < |q| ==> 'a' <= q[i] <= 'z' || '0' <= q[i] <= '9'
  {
    q := Pattern(c)[1..];
  }

  lemma BackslashPattern(q: string, b: string)
    ensures Escape(['\\'] + (q + b), {}) == ['\\', '\\'] + Escape(q + b, {})
  {
    var z := ['\\'] + (q + b);
    assert z[1..] == q + b && z[0] == '\\';
  }

  lemma PlainEscape(p: string)
    requires forall i :: 0 <= i < |p| ==> 'a' <= p[i] <= 'z' || '0' <= p[i] <= '9'
    ensures Escape(p, {}) == p
  {
    hide Escape;
    OrdinaryTextIsKept(p);
  }

  lemma BrokenIsMalformed(s: string, c: char)
    requires HtmlSensitive(c) && Broken(s, c)
    ensures ReadString(s) == None
  {
    assert s[0] == '\\' && s[1] == c && ShortEscape(c) == None;
  }

  /** An unclean text, split at its first literal escape, and its encoding. */
  lemma SplitAtLiteral(a: string, y: string) returns (front: string, c: char, r: string)
    requires !Clean(a)
    ensures Clean(front) && HtmlSensitive(c)
    ensures Escape(a, {}) + y == Escape(front, {}) + (['\\'] + (Pattern(c) + r))
  {
    hide Escape;
    var k := FirstLiteral(a);
    c := if LiteralAt(a, '<', k) then '<' else if LiteralAt(a, '>', k) then '>' else '&';
    front := a[..k];
    var p, b := Pattern(c), a[k..][|Pattern(c)|..];
    assert a == front + (p + b);
    EscapeConcat(front, p + b, {});
    EscapeOfPattern(c, b);
    r := Escape(b, {}) + y;
    assert Escape(front, {}) + (['\\'] + (p + Escape(b, {}))) + y == Escape(front, {}) + (['\\'] + (p + r));
  }

  lemma EscapedPatternStops(r: string, c: char)
    requires HtmlSensitive(c)
    ensures Stops(['\\'] + (Pattern(c) + r))
  {
    var z := ['\\'] + (Pattern(c) + r);
    assert z[0] == '\\' && z[1] == '\\';
  }

  /** An unclean text comes out of the replacements as something no JSON reader accepts. */
  lemma UncleanIsMalformed(a: string, y: string)
    requires !Clean(a)
    ensures ReadString(ReplaceHtmlEscapes(Escape(a, {}) + y)) == None
  {
    hide Escape, Pattern, ReplaceHtmlEscapes, ReadString, Stops, Clean;
    var front, c, r := SplitAtLiteral(a, y);
    var z := ['\\'] + (Pattern(c) + r);
    EscapedPatternStops(r, c);
    PassesOverText(front, z);
    PassesBreak(r, c);
    BrokenIsMalformed(ReplaceHtmlEscapes(z), c);
    ReadEscaped(front, All, ReplaceHtmlEscapes(z));
  }

  /** A JSON string, encoded and unescaped, reads back as the original text exactly when the
      text does not itself contain one of the three escapes. */
  lemma UnescapeKeepsTextIffClean(a: string)
    ensures ReadString(ReplaceHtmlEscapes(Escape(a, {}) + "\"")) == Some((a, "")) <==> Clean(a)
    ensures !Clean(a) ==> ReadString(ReplaceHtmlEscapes(Escape(a, {}) + "\"")) == None
  {
    if Clean(a) {
      assert "\"" + "" == "\"";
      ReadClean(a, "");
      PassesOverFrame("", "");
    } else {
      UncleanIsMalformed(a, "\"");
    }
  }

  // -------------------------------------------------------------- the document

  /** The encoded document: each frame of punctuation and field name is followed by the body of
      a string and its closing quote. */
  function Render(frames: seq<string>, texts: seq<string>, end: string): string
    requires |frames| == |texts|
  {
    if frames == [] then end
    else frames[0] + (Escape(texts[0], {}) + ("\"" + Render(frames[1..], texts[1..], end)))
  }

  function Read(frames: seq<string>, s: string, end: string): Option<seq<string>> {
    if frames == [] then (if s == end then Some([]) else None)
    else if !(frames[0] <= s) then None
    else
      var text := ReadString(s[|frames[0]|..]);
      if text.None? then None
      else
        var rest := Read(frames[1..], text.value.1, end);
        if rest.None? then None else Some([text.value.0] + rest.value)
  }

  lemma {:induction false} DocumentSurvivesIffClean(frames: seq<string>, texts: seq<string>, end: string)
    requires |frames| == |texts| && '\\' !in end
    requires forall i :: 0 <= i < |frames| ==> '\\' !in frames[i]
    ensures Read(frames, ReplaceHtmlEscapes(Render(frames, texts, end)), end) == Some(texts)
            <==> forall i :: 0 <= i < |texts| ==> Clean(texts[i])
    ensures (exists i :: 0 <= i < |texts| && !Clean(texts[i])) ==>
            Read(frames, ReplaceHtmlEscapes(Render(frames, texts, end)), end) == None
    decreases |frames|
  {
    if frames == [] {
      PassesOverFrame(end, []);
      assert end + [] == end;
    } else {
      var rest := Render(frames[1..], texts[1..], end);
      var body := Escape(texts[0], {}) + ("\"" + rest);
      PassesOverFrame(frames[0], body);
      var s := frames[0] + ReplaceHtmlEscapes(body);
      assert s[|frames[0]|..] == ReplaceHtmlEscapes(body);
      assert texts == [texts[0]] + texts[1..];
      if Clean(texts[0]) {
        ReadClean(texts[0], rest);
        DocumentSurvivesIffClean(frames[1..], texts[1..], end);
        assert forall i :: 0 < i < |texts| ==> texts[i] == texts[1..][i - 1];
      } else {
        UncleanIsMalformed(texts[0], "\"" + rest);
      }
    }
  }

  lemma CleanField(a: string, rest: string)
    requires Clean(a)
    ensures ReplaceHtmlEscapes(Escape(a, {}) + ("\"" + rest)) == Escape(a, All) + ("\"" + ReplaceHtmlEscapes(rest))
  {
    PassesOverText(a, "\"" + rest);
    PassesOverFrame("\"", rest);
  }

  lemma ReadClean(a: string, rest: string)
    requires Clean(a)
    ensures ReadString(ReplaceHtmlEscapes(Escape(a, {}) + ("\"" + rest))) == Some((a, ReplaceHtmlEscapes(rest)))
  {
    CleanField(a, rest);
    var z := "\"" + ReplaceHtmlEscapes(rest);
    assert z[1..] == ReplaceHtmlEscapes(rest) && ReadString(z) == Some(("", ReplaceHtmlEscapes(rest)));
    ReadEscaped(a, All, z);
    assert a + "" == a;
  }

  datatype UserData = UserData(vmInit: string, bootstrapAgent: string, presignedUrl: string)

  const Frames: seq<string> :=
    ["{\"vm-init-config\":\"", ",\"bootstrap-agent-config\":\"", ",\"bootstrap-agent-download-url\":\""]

  function Fields(d: UserData): seq<string> {
    [d.vmInit, d.bootstrapAgent, d.presignedUrl]
  }

  /** The text that is base64-encoded into the launch request. */
  function Unescaped(d: UserData): string {
    ReplaceHtmlEscapes(Render(Frames, Fields(d), "}"))
  }

  /** The agent reads back the three settings exactly when none of them contains one of the
      three escapes literally; otherwise it cannot read the document at all. */
  lemma UserDataSurvivesIffClean(d: UserData)
    ensures Read(Frames, Unescaped(d), "}") == Some(Fields(d)) <==>
            Clean(d.vmInit) && Clean(d.bootstrapAgent) && Clean(d.presignedUrl)
    ensures Read(Frames, Unescaped(d), "}") != Some(Fields(d)) ==> Read(Frames, Unescaped(d), "}") == None
  {
    DocumentSurvivesIffClean(Frames, Fields(d), "}");
    assert Fields(d)[0] == d.vmInit && Fields(d)[1] == d.bootstrapAgent && Fields(d)[2] == d.presignedUrl;
  }

  /** The document for settings without a literal escape: the three settings, each as a JSON string
      with `<`, `>` and `&` unescaped, under the three field names the agent expects. */
  lemma CleanDocument(d: UserData)
    requires Clean(d.vmInit) && Clean(d.bootstrapAgent) && Clean(d.presignedUrl)
    ensures Unescaped(d) ==
            "{\"vm-init-config\":\"" + Escape(d.vmInit, All)
            + "\",\"bootstrap-agent-config\":\"" + Escape(d.bootstrapAgent, All)
            + "\",\"bootstrap-agent-download-url\":\"" + Escape(d.presignedUrl, All) + "\"}"
  {
    hide Escape, Clean, ReplaceHtmlEscapes, Render;
    FramesHaveNoBackslash();
    ThreeFields(Frames, Fields(d), "}");
    FieldNames();
  }

  lemma FieldNames()
    ensures Frames[0] == "{\"vm-init-config\":\""
    ensures "\"" + Frames[1] == "\",\"bootstrap-agent-config\":\""
    ensures "\"" + Frames[2] == "\",\"bootstrap-agent-download-url\":\""
    ensures "\"" + "}" == "\"}"
  {
  }

  lemma FramesHaveNoBackslash()
    ensures |Frames| == 3 && '\\' !in Frames[0] && '\\' !in Frames[1] && '\\' !in Frames[2]
  {
  }

  lemma ThreeFields(f: seq<string>, x: seq<string>, e: string)
    requires |f| == |x| == 3 && Clean(x[0]) && Clean(x[1]) && Clean(x[2])
    requires '\\' !in f[0] && '\\' !in f[1] && '\\' !in f[2] && '\\' !in e
    ensures ReplaceHtmlEscapes(Render(f, x, e)) ==
            f[0] + Escape(x[0], All) + ("\"" + f[1]) + Escape(x[1], All) + ("\"" + f[2]) + Escape(x[2], All)
            + ("\"" + e)
  {
    hide Escape, ReplaceHtmlEscapes, Clean, Render;
    var url := f[2] + (Escape(x[2], {}) + ("\"" + e));
    var agent := f[1] + (Escape(x[1], {}) + ("\"" + url));
    RenderThree(f, x, e);
    PassesOverFrame(e, "");
    NothingToReplace();
    assert e + "" == e;
    CleanField(x[2], e);
    PassesOverFrame(f[2], Escape(x[2], {}) + ("\"" + e));
    CleanField(x[1], url);
    PassesOverFrame(f[1], Escape(x[1], {}) + ("\"" + url));
    CleanField(x[0], agent);
    PassesOverFrame(f[0], Escape(x[0], {}) + ("\"" + agent));
    Regroup(f[0], Escape(x[0], All), "\"", f[1], Escape(x[1], All), f[2], Escape(x[2], All), e);
  }

  lemma NothingToReplace()
    ensures ReplaceHtmlEscapes("") == ""
  {
  }

  lemma Regroup(f: string, x: string, q: string, g: string, y: string, h: string, z: string, e: string)
    ensures f + (x + (q + (g + (y + (q + (h + (z + (q + e)))))))) == f + x + (q + g) + y + (q + h) + z + (q + e)
  {
  }

  lemma RenderThree(f: seq<string>, x: seq<string>, e: string)
    requires |f| == |x| == 3
    ensures var url := f[2] + (Escape(x[2], {}) + ("\"" + e));
            var agent := f[1] + (Escape(x[1], {}) + ("\"" + url));
            Render(f, x, e) == f[0] + (Escape(x[0], {}) + ("\"" + agent))
  {
    assert f[1..][1..] == f[2..] && x[1..][1..] == x[2..];
    assert f[2..][1..] == [] && x[2..][1..] == [];
    assert Render(f[2..], x[2..], e) == f[2] + (Escape(x[2], {}) + ("\"" + e));
    assert Render(f[1..], x[1..], e) == f[1] + (Escape(x[1], {}) + ("\"" + Render(f[2..], x[2..], e)));
  }

  /** A setting that contains, literally, the six characters of one of the escapes. */
  const Unclean: UserData := UserData("echo \"\\u003c\"", "", "")

  /** With it the agent cannot read its user data. */
  lemma LiteralEscapeLosesUserData()
    ensures Read(Frames, Unescaped(Unclean), "}") == None
  {
    assert LiteralAt(Unclean.vmInit, '<', 6);
    assert EscapeAt(Unclean.vmInit, 6);
    UserDataSurvivesIffClean(Unclean);
  }
}
