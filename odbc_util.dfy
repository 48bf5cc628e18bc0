/**
 * Identifier quoting of the ODBC wrapper (`odbc::Util::quote`): an identifier is written as a
 * delimited identifier in the sense of ISO/IEC 9075, section 5.2, between double quotes with every
 * double quote inside it doubled.
 *
 * A `const char *` argument is a sequence read up to its first NUL character (or to its end); the
 * `std::string` overloads pass `c_str()`, so they also stop at the first NUL.
 */
module OdbcUtil {

  const Quote: char := '"'
  const Nul: char := '\0'

  /** What `escape` writes for one character. */
  function EscapeChar(c: char): string {
    if c == Quote then [Quote, Quote] else [c]
  }

  /** `escape` of a NUL-free string, written the way the loop produces it: left to right. */
  function Escaped(s: string): string {
    if s == [] then [] else Escaped(s[..|s| - 1]) + EscapeChar(s[|s| - 1])
  }

  /** The characters a `const char *` denotes: everything before the first NUL. */
  function CString(s: string): (r: string)
    ensures |r| <= |s| && r == s[..|r|]
    ensures Nul !in r
    ensures |r| < |s| ==> s[|r|] == Nul
  {
    if s == [] || s[0] == Nul then [] else [s[0]] + CString(s[1..])
  }

  /** The delimited identifier for an identifier: it starts and ends with a double quote. */
  function Quoted(s: string): (q: string)
    ensures |q| >= 2 && q[0] == Quote && q[|q| - 1] == Quote
  {
    [Quote] + Escaped(s) + [Quote]
  }

  /** The number of double quotes in `s`. */
  function QuoteCount(s: string): nat {
    if s == [] then 0 else (if s[0] == Quote then 1 else 0) + QuoteCount(s[1..])
  }

  /** The reading direction of a delimited identifier's body: each `""` stands for one `"`. */
  function Unescaped(t: string): string {
    if |t| >= 2 && t[0] == Quote && t[1] == Quote then [Quote] + Unescaped(t[2..])
    else if t == [] then []
    else [t[0]] + Unescaped(t[1..])
  }

  /** Strips the delimiting quotes and undoes the doubling. */
  function Unquoted(q: string): string {
    if |q| >= 2 then Unescaped(q[1..|q| - 1]) else q
  }

  // ---------------------------------------------------------------------------------------------
  // The loops

  /** `escape(const char *s, ostream &out)`: walks the string up to its NUL. */
  method Escape(s: string) returns (out: string)
    ensures out == Escaped(CString(s))
  {
    out := [];
    var i := 0;
    while i < |s| && s[i] != Nul
      invariant 0 <= i <= |s|
      invariant forall k | 0 <= k < i :: s[k] != Nul
      invariant out == Escaped(s[..i])
    {
      if s[i] == Quote {
        out := out + [Quote, Quote];
      } else {
        out := out + [s[i]];
      }
      assert s[..i + 1][..i] == s[..i];
      i := i + 1;
    }
    CStringUpToNul(s, i);
  }

  /** `quote(const char *s)`. */
  method QuoteChars(s: string) returns (r: string)
    ensures r == Quoted(CString(s))
  {
    var body := Escape(s);
    r := [Quote] + body + [Quote];
  }

  /** `quote(const std::string &s)`: delegates with `c_str()`, so an embedded NUL ends it. */
  method QuoteString(s: string) returns (r: string)
    ensures Nul !in s ==> r == Quoted(s)
    ensures r == Quoted(CString(s))
  {
    r := QuoteChars(s);
    if Nul !in s {
      CStringWithoutNul(s);
    }
  }

  /** `quote(const char *schema, const char *table)`: `"schema"."table"`. */
  method QuoteQualifiedChars(schema: string, table: string) returns (r: string)
    ensures r == Quoted(CString(schema)) + "." + Quoted(CString(table))
  {
    var s := Escape(schema);
    var t := Escape(table);
    r := [Quote] + s + [Quote, '.', Quote] + t + [Quote];
  }

  /** `quote(const std::string &schema, const std::string &table)`: delegates with `c_str()`. */
  method QuoteQualifiedString(schema: string, table: string) returns (r: string)
    ensures Nul !in schema && Nul !in table ==> r == Quoted(schema) + "." + Quoted(table)
    ensures r == Quoted(CString(schema)) + "." + Quoted(CString(table))
  {
    r := QuoteQualifiedChars(schema, table);
    if Nul !in schema && Nul !in table {
      CStringWithoutNul(schema);
      CStringWithoutNul(table);
    }
  }

  // ---------------------------------------------------------------------------------------------
  // Properties

  /** Reading a C string stops at the first NUL: the loop's exit condition. */
  lemma {:induction false} CStringUpToNul(s: string, i: int)
    requires 0 <= i <= |s|
    requires forall k | 0 <= k < i :: s[k] != Nul
    requires i == |s| || s[i] == Nul
    ensures CString(s) == s[..i]
  {
    if i > 0 {
      CStringUpToNul(s[1..], i - 1);
    }
  }

  /** A string without NUL is read whole. */
  lemma CStringWithoutNul(s: string)
    requires Nul !in s
    ensures CString(s) == s
  {
    CStringUpToNul(s, |s|);
  }

  /** Anything after a NUL is never read. */
  lemma CStringIgnoresTail(s: string, t: string)
    requires Nul !in s
    ensures CString(s + [Nul] + t) == s
  {
    var u := s + [Nul] + t;
    assert forall k | 0 <= k < |s| :: u[k] == s[k];
    CStringUpToNul(u, |s|);
    assert u[..|s|] == s;
  }

  /** Escaping distributes over concatenation. */
  lemma {:induction false} EscapedAppend(a: string, b: string)
    ensures Escaped(a + b) == Escaped(a) + Escaped(b)
    decreases |b|
  {
    if b == [] {
      assert a + b == a;
    } else {
      var b' := b[..|b| - 1];
      assert (a + b)[..|a + b| - 1] == a + b';
      EscapedAppend(a, b');
    }
  }

  /** Escaping a string one character at a time from the front. */
  lemma EscapedCons(c: char, s: string)
    ensures Escaped([c] + s) == EscapeChar(c) + Escaped(s)
  {
    EscapedAppend([c], s);
    assert [c][..0] == [];
  }

  /** The escaped body is one character longer than the input for every double quote. */
  lemma {:induction false} EscapedLength(s: string)
    ensures |Escaped(s)| == |s| + QuoteCount(s)
  {
    if s != [] {
      EscapedCons(s[0], s[1..]);
      assert [s[0]] + s[1..] == s;
      EscapedLength(s[1..]);
    }
  }

  /** The delimited identifier's length: two delimiters plus one extra character per quote. */
  lemma QuotedLength(s: string)
    ensures |Quoted(s)| == |s| + 2 + QuoteCount(s)
  {
    EscapedLength(s);
  }

  /**
   * Every double quote is doubled and every other character copied, in order: reading the body
   * back (each `""` as one `"`) gives the input again.
   */
  lemma {:induction false} UnescapeEscaped(s: string)
    ensures Unescaped(Escaped(s)) == s
  {
    if s != [] {
      EscapedCons(s[0], s[1..]);
      assert [s[0]] + s[1..] == s;
      UnescapeEscaped(s[1..]);
      var rest := Escaped(s[1..]);
      if s[0] == Quote {
        assert ([Quote, Quote] + rest)[2..] == rest;
      } else {
        assert ([s[0]] + rest)[1..] == rest;
      }
    }
  }

  /** The round trip: unquoting a quoted identifier gives it back. */
  lemma UnquoteQuoted(s: string)
    ensures Unquoted(Quoted(s)) == s
  {
    var q := Quoted(s);
    assert q[1..|q| - 1] == Escaped(s);
    UnescapeEscaped(s);
  }
}
