/** A small Option datatype for partial results. */
module Wrappers {
  datatype Option<+T> = None | Some(value: T)
}

/**
 The pieces of Python's text semantics that the handler relies on: truthiness of
 a string, the substring test `p in s`, `repr` of a string, and `str` of a
 dictionary whose keys are strings.
 */
module PythonText {
  import opened Wrappers

  /** A Python string is truthy exactly when it is not empty. */
  predicate Truthy(s: string) {
    s != ""
  }

  /** `p` occurs in `s` starting at index `i`. */
  predicate OccursAt(s: string, p: string, i: int) {
    0 <= i && i + |p| <= |s| && s[i..i + |p|] == p
  }

  /** Python's `p in s` for strings: a substring test (the empty string occurs everywhere). */
  function Contains(s: string, p: string): (r: bool)
    ensures r <==> exists i :: OccursAt(s, p, i)
    decreases |s|
  {
    if |p| > |s| then
      assert forall i :: !OccursAt(s, p, i);
      false
    else if s[..|p|] == p then
      assert OccursAt(s, p, 0);
      true
    else
      var r := Contains(s[1..], p);
      assert forall i :: OccursAt(s[1..], p, i) <==> OccursAt(s, p, i + 1) by {
        forall i ensures OccursAt(s[1..], p, i) <==> OccursAt(s, p, i + 1) {
          if 0 <= i && i + |p| <= |s| - 1 {
            assert s[1..][i..i + |p|] == s[i + 1..i + 1 + |p|];
          }
        }
      }
      assert r ==> exists i :: OccursAt(s, p, i) by {
        if r {
          var j :| OccursAt(s[1..], p, j);
          assert OccursAt(s, p, j + 1);
        }
      }
      assert (exists i :: OccursAt(s, p, i)) ==> r by {
        if exists i :: OccursAt(s, p, i) {
          var i :| OccursAt(s, p, i);
          assert i != 0;
          assert OccursAt(s[1..], p, i - 1);
        }
      }
      r
  }

  /** `p` placed between any two strings is found by the substring test. */
  lemma ContainsInMiddle(x: string, p: string, y: string)
    ensures Contains(x + p + y, p)
  {
    assert (x + p + y)[|x|..|x| + |p|] == p;
    assert OccursAt(x + p + y, p, |x|);
  }

  /** A substring of a substring is a substring of the whole. */
  lemma ContainsTransitive(s: string, t: string, p: string)
    requires Contains(s, t) && Contains(t, p)
    ensures Contains(s, p)
  {
    var i :| OccursAt(s, t, i);
    var j :| OccursAt(t, p, j);
    forall k | 0 <= k < |p| ensures s[i + j + k] == p[k] {
      assert t[j + k] == p[k];
      assert s[i..i + |t|][j + k] == s[i + j + k];
    }
    assert s[i + j..i + j + |p|] == p;
    assert OccursAt(s, p, i + j);
  }

  // ---------------------------------------------------------------------------
  // repr of a str

  /** Lower-case hexadecimal digit, as `%02x` writes it. */
  function HexDigit(d: nat): (c: char)
    requires d < 16
  {
    "0123456789abcdef"[d]
  }

  /** Value of a lower-case hexadecimal digit, if it is one. */
  function HexValue(c: char): (r: Option<nat>)
    ensures r.Some? ==> r.value < 16
  {
    if '0' <= c <= '9' then Some(c as nat - '0' as nat)
    else if 'a' <= c <= 'f' then Some(c as nat - 'a' as nat + 10)
    else None
  }

  lemma HexValueOfDigit(d: nat)
    requires d < 16
    ensures HexValue(HexDigit(d)) == Some(d)
  {
  }

  /** An ASCII control character, which repr writes as `\xhh`. */
  predicate IsControl(c: char) {
    c as int < 0x20 || c as int == 0x7f
  }

  /** How repr writes one character inside a literal delimited by `quote`. */
  function EscapeChar(c: char, quote: char): string {
    if c == quote || c == '\\' then ['\\', c]
    else if c == '\t' then "\\t"
    else if c == '\n' then "\\n"
    else if c == '\r' then "\\r"
    else if IsControl(c) then ['\\', 'x', HexDigit(c as int / 16), HexDigit(c as int % 16)]
    else [c]
  }

  function Escape(s: string, quote: char): string {
    if s == [] then [] else EscapeChar(s[0], quote) + Escape(s[1..], quote)
  }

  /** repr uses single quotes unless the text holds a single quote and no double quote. */
  function QuoteFor(s: string): (q: char)
    ensures q == '\'' || q == '"'
  {
    if '\'' in s && '"' !in s then '"' else '\''
  }

  /** Python's `repr` of a str: quoted and escaped. */
  function Repr(s: string): string {
    var q := QuoteFor(s);
    [q] + Escape(s, q) + [q]
  }

  /** Prepends `c` to the decoded part of a successful decoding. */
  function Cons(c: char, r: Option<(string, string)>): Option<(string, string)> {
    match r
    case None => None
    case Some((d, rest)) => Some(([c] + d, rest))
  }

  /**
   Reads the body of a Python string literal that was opened with `quote`, up
   to and including the closing quote; yields the decoded text and what follows.
   */
  function Unescape(t: string, quote: char): Option<(string, string)>
    decreases |t|
  {
    if t == [] then None
    else if t[0] == quote then Some(([], t[1..]))
    else if t[0] != '\\' then Cons(t[0], Unescape(t[1..], quote))
    else if |t| < 2 then None
    else if t[1] == '\\' || t[1] == quote then Cons(t[1], Unescape(t[2..], quote))
    else if t[1] == 't' then Cons('\t', Unescape(t[2..], quote))
    else if t[1] == 'n' then Cons('\n', Unescape(t[2..], quote))
    else if t[1] == 'r' then Cons('\r', Unescape(t[2..], quote))
    else if t[1] == 'x' && |t| >= 4 && HexValue(t[2]).Some? && HexValue(t[3]).Some? then
      Cons((16 * HexValue(t[2]).value + HexValue(t[3]).value) as char, Unescape(t[4..], quote))
    else None
  }

  /** Reads one Python string literal from the front of `t`. */
  function ParseLiteral(t: string): Option<(string, string)> {
    if |t| > 0 && (t[0] == '\'' || t[0] == '"') then Unescape(t[1..], t[0]) else None
  }

  /** A character that needs no escape is read back as itself. */
  lemma UnescapePlain(c: char, quote: char, tail: string)
    requires c != quote && c != '\\'
    ensures Unescape([c] + tail, quote) == Cons(c, Unescape(tail, quote))
  {
    assert ([c] + tail)[1..] == tail;
  }

  /** A two-character escape `\e` is read back as `c`. */
  lemma UnescapePair(c: char, e: char, quote: char, tail: string)
    requires quote == '\'' || quote == '"'
    requires (c == e && (c == quote || c == '\\')) || (c == '\t' && e == 't') || (c == '\n' && e == 'n') || (c == '\r' && e == 'r')
    ensures Unescape(['\\', e] + tail, quote) == Cons(c, Unescape(tail, quote))
  {
    assert (['\\', e] + tail)[2..] == tail;
  }

  /** A `\xhh` escape is read back as the character with that code. */
  lemma UnescapeHex(c: char, quote: char, tail: string)
    requires quote == '\'' || quote == '"'
    requires IsControl(c)
    ensures Unescape(['\\', 'x', HexDigit(c as int / 16), HexDigit(c as int % 16)] + tail, quote) == Cons(c, Unescape(tail, quote))
  {
    var hi, lo := c as int / 16, c as int % 16;
    var t := ['\\', 'x', HexDigit(hi), HexDigit(lo)] + tail;
    HexValueOfDigit(hi);
    HexValueOfDigit(lo);
    assert t[2] == HexDigit(hi) && t[3] == HexDigit(lo);
    assert t[4..] == tail;
    assert (16 * hi + lo) as char == c;
  }

  /** Reading one escaped character gives that character back. */
  lemma UnescapeChar(c: char, quote: char, tail: string)
    requires quote == '\'' || quote == '"'
    ensures Unescape(EscapeChar(c, quote) + tail, quote) == Cons(c, Unescape(tail, quote))
  {
    if c == quote || c == '\\' {
      UnescapePair(c, c, quote, tail);
    } else if c == '\t' {
      UnescapePair(c, 't', quote, tail);
    } else if c == '\n' {
      UnescapePair(c, 'n', quote, tail);
    } else if c == '\r' {
      UnescapePair(c, 'r', quote, tail);
    } else if IsControl(c) {
      UnescapeHex(c, quote, tail);
    } else {
      UnescapePlain(c, quote, tail);
    }
  }

  lemma {:induction false} UnescapeEscape(s: string, quote: char, rest: string)
    requires quote == '\'' || quote == '"'
    ensures Unescape(Escape(s, quote) + [quote] + rest, quote) == Some((s, rest))
    decreases |s|
  {
    if s == [] {
      assert Escape(s, quote) + [quote] + rest == [quote] + rest;
    } else {
      var tail := Escape(s[1..], quote) + [quote] + rest;
      UnescapeEscape(s[1..], quote, rest);
      assert Escape(s, quote) + [quote] + rest == EscapeChar(s[0], quote) + tail;
      UnescapeChar(s[0], quote, tail);
      assert [s[0]] + s[1..] == s;
    }
  }

  /** repr is faithful: the literal it writes reads back as the original text. */
  lemma ReprRoundTrip(s: string, rest: string)
    ensures ParseLiteral(Repr(s) + rest) == Some((s, rest))
  {
    var q := QuoteFor(s);
    var t := Repr(s) + rest;
    UnescapeEscape(s, q, rest);
    assert t == [q] + (Escape(s, q) + [q] + rest);
    assert t[0] == q && t[1..] == Escape(s, q) + [q] + rest;
  }

  /** repr writes different texts differently. */
  lemma ReprInjective(s: string, t: string)
    requires Repr(s) == Repr(t)
    ensures s == t
  {
    ReprRoundTrip(s, []);
    ReprRoundTrip(t, []);
  }

  /** A repr literal at the front of a text is read off unambiguously. */
  lemma ReprPrefixInjective(s: string, rest: string, t: string, rest': string)
    requires Repr(s) + rest == Repr(t) + rest'
    ensures s == t && rest == rest'
  {
    ReprRoundTrip(s, rest);
    ReprRoundTrip(t, rest');
  }

  // ---------------------------------------------------------------------------
  // str of a dict

  /** The items of a dictionary in order, each already written as `key: value`. */
  function Join(items: seq<string>, sep: string): string
    decreases |items|
  {
    if items == [] then []
    else if |items| == 1 then items[0]
    else items[0] + sep + Join(items[1..], sep)
  }

  lemma {:induction false} JoinContainsItem(items: seq<string>, sep: string, k: nat)
    requires k < |items|
    ensures Contains(Join(items, sep), items[k])
    decreases |items|
  {
    if |items| == 1 {
      ContainsInMiddle([], items[0], []);
      assert [] + items[0] + [] == items[0];
    } else if k == 0 {
      ContainsInMiddle([], items[0], sep + Join(items[1..], sep));
      assert [] + items[0] + (sep + Join(items[1..], sep)) == Join(items, sep);
    } else {
      JoinContainsItem(items[1..], sep, k - 1);
      var j := Join(items[1..], sep);
      ContainsInMiddle(items[0] + sep, j, []);
      assert items[0] + sep + j + [] == Join(items, sep);
      ContainsTransitive(Join(items, sep), j, items[k]);
    }
  }

  /** A dict entry `repr(key): value` with a str key gives back its key and its value text. */
  lemma EntryInjective(a: string, x: string, b: string, y: string)
    requires Repr(a) + ": " + x == Repr(b) + ": " + y
    ensures a == b && x == y
  {
    assert Repr(a) + ": " + x == Repr(a) + (": " + x);
    assert Repr(b) + ": " + y == Repr(b) + (": " + y);
    ReprPrefixInjective(a, ": " + x, b, ": " + y);
    assert x == (": " + x)[2..] && y == (": " + y)[2..];
  }

  /** `str` of a dict: `{` + items separated by `, ` + `}`. */
  function DictStr(items: seq<string>): string {
    "{" + Join(items, ", ") + "}"
  }

  /** Every item of the dictionary appears in its `str`. */
  lemma DictStrContainsItem(items: seq<string>, k: nat)
    requires k < |items|
    ensures Contains(DictStr(items), items[k])
  {
    JoinContainsItem(items, ", ", k);
    ContainsInMiddle("{", Join(items, ", "), "}");
    ContainsTransitive(DictStr(items), Join(items, ", "), items[k]);
  }
}
