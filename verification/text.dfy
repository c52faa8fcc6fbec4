/**
 * String rules shared by the rest of the model: joining, prefixes, the
 * decimal rendering of a counter, Python's `str.strip()` whitespace, ASCII
 * lower-casing and `os.path.splitext` on POSIX paths.
 *
 * Strings are `seq<char>`; Dafny's `char` is a Unicode scalar value, so
 * `|s|` counts code points exactly as Python's `len` does.
 */
module Text {

  import opened Wrappers

  /** `sep.join(parts)` */
  function Join(parts: seq<string>, sep: string): string
    decreases |parts|
  {
    if |parts| == 0 then ""
    else if |parts| == 1 then parts[0]
    else parts[0] + sep + Join(parts[1..], sep)
  }

  /** Joining a list with one more element puts the separator before it. */
  lemma {:induction false} JoinSnoc(parts: seq<string>, last: string, sep: string)
    requires |parts| > 0
    ensures Join(parts + [last], sep) == Join(parts, sep) + sep + last
    decreases |parts|
  {
    if |parts| == 1 {
      assert parts + [last] == [parts[0], last];
    } else {
      assert (parts + [last])[1..] == parts[1..] + [last];
      JoinSnoc(parts[1..], last, sep);
    }
  }

  /** `s.startswith(p)` */
  predicate StartsWith(s: string, p: string)
  {
    |p| <= |s| && s[..|p|] == p
  }

  predicate IsDigit(c: char)
  {
    '0' <= c <= '9'
  }

  function DigitChar(d: nat): (c: char)
    requires d < 10
    ensures IsDigit(c)
  {
    (48 + d) as char
  }

  /** `str(n)` for a non-negative integer: its decimal digits, most significant first. */
  function NatToString(n: nat): (s: string)
    ensures |s| >= 1
    ensures n >= 10 ==> |s| >= 2
    ensures forall i :: 0 <= i < |s| ==> IsDigit(s[i])
    decreases n
  {
    if n < 10 then [DigitChar(n)] else NatToString(n / 10) + [DigitChar(n % 10)]
  }

  /** Two different counters never render to the same text. */
  lemma {:induction false} NatToStringInjective(a: nat, b: nat)
    requires NatToString(a) == NatToString(b)
    ensures a == b
    decreases a
  {
    var sa, sb := NatToString(a), NatToString(b);
    if a < 10 && b < 10 {
      assert sa[0] == DigitChar(a) && sb[0] == DigitChar(b);
    } else if a >= 10 && b >= 10 {
      assert sa == NatToString(a / 10) + [DigitChar(a % 10)];
      assert sb == NatToString(b / 10) + [DigitChar(b % 10)];
      assert sa[|sa| - 1] == DigitChar(a % 10) && sb[|sb| - 1] == DigitChar(b % 10);
      assert sa[..|sa| - 1] == NatToString(a / 10);
      assert sb[..|sb| - 1] == NatToString(b / 10);
      NatToStringInjective(a / 10, b / 10);
    }
  }

  /** Python's `str.isspace()` for one character (what `str.strip()` removes). */
  predicate IsSpace(c: char)
  {
    ('\t' <= c <= '\r') || ('\U{1C}' <= c <= ' ') || c == '\U{85}' || c == '\U{A0}'
    || c == '\U{1680}' || ('\U{2000}' <= c <= '\U{200A}') || c == '\U{2028}' || c == '\U{2029}'
    || c == '\U{202F}' || c == '\U{205F}' || c == '\U{3000}'
  }

  /** `not s.strip()`: the text is empty once surrounding whitespace is removed. */
  predicate IsBlank(s: string)
  {
    forall i :: 0 <= i < |s| ==> IsSpace(s[i])
  }

  /** `s.lower()` restricted to ASCII letters. */
  function ToLowerAscii(s: string): (r: string)
    ensures |r| == |s|
    ensures forall i :: 0 <= i < |s| ==> (if 'A' <= s[i] <= 'Z' then r[i] as int == s[i] as int + 32 else r[i] == s[i])
  {
    seq(|s|, i requires 0 <= i < |s| => if 'A' <= s[i] <= 'Z' then (s[i] as int + 32) as char else s[i])
  }

  /** `s.rfind(c)`: the last position of `c`, or -1. */
  function LastIndexOf(s: string, c: char): (r: int)
    ensures -1 <= r < |s|
    ensures r >= 0 ==> s[r] == c
    ensures forall k :: r < k < |s| ==> s[k] != c
    decreases |s|
  {
    if |s| == 0 then -1
    else if s[|s| - 1] == c then |s| - 1
    else LastIndexOf(s[..|s| - 1], c)
  }

  /** `sub` occurs in `s` starting at position `k`. */
  predicate OccursAt(s: string, sub: string, k: nat)
  {
    k + |sub| <= |s| && s[k..k + |sub|] == sub
  }

  /** The first position at which `sub` occurs in `s`, or -1 (`s.find(sub)`). */
  function Find(s: string, sub: string): (r: int)
    ensures r == -1 || (0 <= r && OccursAt(s, sub, r))
    ensures forall k: nat :: k < (if r == -1 then |s| + 1 else r) ==> !OccursAt(s, sub, k)
    decreases |s|
  {
    if |s| < |sub| then -1
    else if s[..|sub|] == sub then 0
    else
      var r := Find(s[1..], sub);
      forall k: nat | 1 <= k
        ensures OccursAt(s, sub, k) <==> OccursAt(s[1..], sub, k - 1)
      {
        if k + |sub| <= |s| {
          assert s[k..k + |sub|] == s[1..][k - 1..k - 1 + |sub|];
        }
      }
      if r == -1 then -1 else r + 1
  }

  /** `sub in s` */
  predicate Contains(s: string, sub: string)
  {
    Find(s, sub) >= 0
  }

  /** `c in s` as a substring test on one character, in terms of positions. */
  lemma ContainsChar(s: string, c: char)
    ensures Contains(s, [c]) <==> c in s
  {
    var r := Find(s, [c]);
    if r >= 0 {
      assert s[r..r + 1] == [c];
      assert s[r] == c;
    }
    if c in s {
      var k :| 0 <= k < |s| && s[k] == c;
      assert s[k..k + 1] == [c];
      assert OccursAt(s, [c], k);
    }
  }

  /** `s.split(sep)[1]`: the text after the first `sep`, up to the next one. */
  function SecondField(s: string, sep: string): (r: string)
    requires |sep| > 0 && Contains(s, sep)
  {
    var rest := s[Find(s, sep) + |sep|..];
    var j := Find(rest, sep);
    if j == -1 then rest else rest[..j]
  }

  /** `s.split(c)[-1]`: the text after the last `c` (all of `s` when there is none). */
  function AfterLast(s: string, c: char): (r: string)
    ensures c !in r
    ensures |r| <= |s| && s[|s| - |r|..] == r
  {
    var k := LastIndexOf(s, c);
    s[k + 1..]
  }

  /** `s.split(c)[0]`: the text before the first `c` (all of `s` when there is none). */
  function BeforeFirst(s: string, c: char): (r: string)
    ensures c !in r
    ensures StartsWith(s, r)
    ensures |r| < |s| ==> s[|r|] == c
    decreases |s|
  {
    if |s| == 0 then ""
    else if s[0] == c then ""
    else [s[0]] + BeforeFirst(s[1..], c)
  }

  /** `s.strip(c)`: `s` without leading and trailing `c` characters. */
  function StripChar(s: string, c: char): (r: string)
    ensures |r| == 0 || (r[0] != c && r[|r| - 1] != c)
    decreases |s|
  {
    if |s| > 0 && s[0] == c then StripChar(s[1..], c)
    else if |s| > 0 && s[|s| - 1] == c then StripChar(s[..|s| - 1], c)
    else s
  }

  /** `s.replace(a, b)` for single characters. */
  function ReplaceChar(s: string, a: char, b: char): (r: string)
    ensures |r| == |s|
    ensures forall i :: 0 <= i < |s| ==> r[i] == (if s[i] == a then b else s[i])
  {
    seq(|s|, i requires 0 <= i < |s| => if s[i] == a then b else s[i])
  }

  /** Some position in `p[lo..hi]` holds a character other than '.'. */
  predicate HasNonDot(p: string, lo: int, hi: int)
    requires 0 <= lo && hi <= |p|
  {
    exists k :: lo <= k < hi && p[k] != '.'
  }

  /**
   * `os.path.splitext(p)` with '/' as the separator: the extension starts at
   * the last '.' of the last path component, unless everything before that
   * dot in the component is dots (a hidden file such as ".bashrc").
   */
  function Splitext(p: string): (r: (string, string))
    ensures r.0 + r.1 == p
    ensures r.1 != "" ==> r.1[0] == '.' && '/' !in r.1 && '.' !in r.1[1..]
  {
    var sepIndex := LastIndexOf(p, '/');
    var dotIndex := LastIndexOf(p, '.');
    if dotIndex > sepIndex && HasNonDot(p, sepIndex + 1, dotIndex) then
      assert p[..dotIndex] + p[dotIndex..] == p;
      (p[..dotIndex], p[dotIndex..])
    else
      (p, "")
  }

  /** Names whose last component has a non-dot stem keep a plain extension. */
  lemma {:induction false} SplitextOfStemAndExt(stem: string, ext: string)
    requires |stem| > 0 && '/' !in stem && stem[0] != '.'
    requires |ext| > 0 && ext[0] == '.' && '/' !in ext && '.' !in ext[1..]
    ensures Splitext(stem + ext) == (stem, ext)
  {
    var p := stem + ext;
    var sepIndex := LastIndexOf(p, '/');
    var dotIndex := LastIndexOf(p, '.');
    assert p[|stem|] == '.';
    assert forall k :: |stem| < k < |p| ==> p[k] == ext[k - |stem|];
    assert dotIndex == |stem|;
    assert sepIndex == -1 by {
      forall k | 0 <= k < |p| ensures p[k] != '/' {
        if k < |stem| { assert p[k] == stem[k]; } else { assert p[k] == ext[k - |stem|]; }
      }
    }
    assert p[0] == stem[0];
    assert HasNonDot(p, 0, dotIndex);
    assert p[..dotIndex] == stem && p[dotIndex..] == ext;
  }

  /** A hexadecimal digit, lower case as Python writes it in `\xhh`. */
  function HexDigit(d: nat): (c: char)
    requires d < 16
    ensures IsHexDigit(c) && HexValue(c) == d
  {
    if d < 10 then DigitChar(d) else (87 + d) as char
  }

  predicate IsHexDigit(c: char)
  {
    IsDigit(c) || ('a' <= c <= 'f') || ('A' <= c <= 'F')
  }

  function HexValue(c: char): nat
    requires IsHexDigit(c)
  {
    if IsDigit(c) then c as nat - 48 else if 'a' <= c <= 'f' then c as nat - 87 else c as nat - 55
  }

  /** The quote `repr` puts around `s`: a double quote only when `s` has a single quote and no double quote. */
  function ReprQuote(s: string): (q: char)
    ensures q == '\'' || q == '"'
    ensures q == '"' ==> '"' !in s
  {
    if '\'' in s && '"' !in s then '"' else '\''
  }

  /**
   * How `repr` writes one character inside quotes `q`: backslash, the quote,
   * newline, carriage return and tab get a backslash escape, the other ASCII
   * control characters and DEL become `\xhh`, everything else is itself.
   */
  function EscapeChar(c: char, q: char): (r: string)
    ensures |r| >= 1
  {
    if c == '\\' then "\\\\"
    else if c == q then ['\\', q]
    else if c == '\n' then "\\n"
    else if c == '\r' then "\\r"
    else if c == '\t' then "\\t"
    else if c < ' ' || c == '\U{7F}' then ['\\', 'x', HexDigit(c as nat / 16), HexDigit(c as nat % 16)]
    else [c]
  }

  function EscapeAll(s: string, q: char): string
    decreases |s|
  {
    if |s| == 0 then "" else EscapeChar(s[0], q) + EscapeAll(s[1..], q)
  }

  /** `repr(s)` for a string. */
  function Repr(s: string): (r: string)
    ensures |r| >= 2 && r[0] == ReprQuote(s) && r[|r| - 1] == ReprQuote(s)
  {
    var q := ReprQuote(s);
    [q] + EscapeAll(s, q) + [q]
  }

  /**
   * Reads the inside of a string literal delimited by `q` back into its value,
   * as Python's tokenizer does for the escapes `repr` writes; an unescaped
   * quote, a raw line break or an escape outside that set is rejected.
   */
  function Unescape(t: string, q: char): (r: Option<string>)
    decreases |t|
  {
    if |t| == 0 then Some("")
    else if t[0] == q || t[0] == '\n' || t[0] == '\r' then None
    else if t[0] != '\\' then
      match Unescape(t[1..], q)
      case Some(rest) => Some([t[0]] + rest)
      case None => None
    else if |t| < 2 then None
    else
      var e := t[1];
      if e == 'x' then
        if |t| >= 4 && IsHexDigit(t[2]) && IsHexDigit(t[3]) then
          match Unescape(t[4..], q)
          case Some(rest) => Some([(HexValue(t[2]) * 16 + HexValue(t[3])) as char] + rest)
          case None => None
        else None
      else
        var c := if e == 'n' then Some('\n') else if e == 'r' then Some('\r') else if e == 't' then Some('\t')
                 else if e == '\\' || e == '\'' || e == '"' then Some(e) else None;
        match c
        case None => None
        case Some(ch) =>
          match Unescape(t[2..], q)
          case Some(rest) => Some([ch] + rest)
          case None => None
  }

  /** The value of a quoted literal such as `repr` produces. */
  function Unrepr(t: string): (r: Option<string>)
  {
    if |t| >= 2 && (t[0] == '\'' || t[0] == '"') && t[|t| - 1] == t[0] then Unescape(t[1..|t| - 1], t[0])
    else None
  }

  /** Reading one escaped character back consumes exactly its escape. */
  lemma UnescapeChar(c: char, q: char, rest: string)
    requires q == '\'' || q == '"'
    ensures Unescape(EscapeChar(c, q) + rest, q) ==
      match Unescape(rest, q) case Some(v) => Some([c] + v) case None => None
  {
    var t := EscapeChar(c, q) + rest;
    var n := |EscapeChar(c, q)|;
    assert t[n..] == rest;
    if (c < ' ' && c != '\n' && c != '\r' && c != '\t') || c == '\U{7F}' {
      assert (HexValue(t[2]) * 16 + HexValue(t[3])) == c as nat;
    }
  }

  /** The escaped body of a string reads back as the string. */
  lemma {:induction false} UnescapeEscapeAll(s: string, q: char)
    requires q == '\'' || q == '"'
    ensures Unescape(EscapeAll(s, q), q) == Some(s)
    decreases |s|
  {
    if |s| > 0 {
      UnescapeEscapeAll(s[1..], q);
      UnescapeChar(s[0], q, EscapeAll(s[1..], q));
      assert [s[0]] + s[1..] == s;
    }
  }

  /** `repr` loses nothing: evaluating the literal it writes gives back the string. */
  lemma ReprRoundTrip(s: string)
    ensures Unrepr(Repr(s)) == Some(s)
  {
    var q := ReprQuote(s);
    var r := Repr(s);
    assert r[1..|r| - 1] == EscapeAll(s, q);
    UnescapeEscapeAll(s, q);
  }
}
