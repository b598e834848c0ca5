/** The cell quoting rule of the CSV template (GetCellValue): every header and
    every cell is wrapped in double quotes and each double quote inside it is
    doubled, as in the field escaping of section 2 of RFC 4180, applied to
    every field whether or not it needs it. */
module Quoting {
  import opened Wrappers

  /** The platform's ordinal `s.Replace(pattern, replacement)`: occurrences of
      `pattern` are found left to right, never overlapping, and each is
      replaced. The platform rejects an empty pattern. */
  function Replace(s: string, pattern: string, replacement: string): (r: string)
    requires |pattern| > 0
    ensures (forall i {:trigger OccursAt(s, pattern, i)} :: !OccursAt(s, pattern, i)) ==> r == s
    decreases |s|
  {
    if |s| < |pattern| then s
    else if s[..|pattern|] == pattern then
      assert OccursAt(s, pattern, 0);
      replacement + Replace(s[|pattern|..], pattern, replacement)
    else
      ShiftOccurrences(s, pattern);
      [s[0]] + Replace(s[1..], pattern, replacement)
  }

  /** `pattern` occurs in `s` at index `i`. */
  predicate OccursAt(s: string, pattern: string, i: int)
  {
    0 <= i && i + |pattern| <= |s| && s[i..i + |pattern|] == pattern
  }

  /** An occurrence after the first character of `s` is an occurrence in `s`. */
  lemma ShiftOccurrences(s: string, pattern: string)
    requires s != []
    ensures forall i {:trigger OccursAt(s[1..], pattern, i)} :: OccursAt(s[1..], pattern, i) ==> OccursAt(s, pattern, i + 1)
  {
    forall i | OccursAt(s[1..], pattern, i) ensures OccursAt(s, pattern, i + 1) {
      assert s[1..][i..i + |pattern|] == s[i + 1..i + 1 + |pattern|];
    }
  }

  /** Reference definition of the escaping: a double quote becomes two double
      quotes, every other character is kept, one character at a time. */
  function Escape(s: string): string
  {
    if s == [] then []
    else (if s[0] == '"' then "\"\"" else [s[0]]) + Escape(s[1..])
  }

  /** GetCellValue: the value between two double quotes, with every inner
      double quote written twice. */
  function Quote(value: string): (r: string)
    ensures r == "\"" + Escape(value) + "\""
  {
    ReplaceQuoteIsEscape(value);
    "\"" + Replace(value, "\"", "\"\"") + "\""
  }

  /** A quoted value is two characters longer than the value, plus one for
      each double quote in it. */
  lemma QuoteLength(value: string)
    ensures |Quote(value)| == |value| + multiset(value)['"'] + 2
  {
    EscapeLength(value);
  }

  /** Replacing the one-character pattern `"` by `""` is the per-character
      escaping. */
  lemma {:induction false} ReplaceQuoteIsEscape(s: string)
    ensures Replace(s, "\"", "\"\"") == Escape(s)
  {
    if s != [] {
      ReplaceQuoteIsEscape(s[1..]);
    }
  }

  /** Escaping adds exactly one character per double quote. */
  lemma {:induction false} EscapeLength(s: string)
    ensures |Escape(s)| == |s| + multiset(s)['"']
  {
    if s != [] {
      EscapeLength(s[1..]);
      assert s == [s[0]] + s[1..];
      assert multiset(s) == multiset([s[0]]) + multiset(s[1..]);
    }
  }

  /** Reads the inside of a quoted field, starting just after its opening
      quote, up to its closing quote; a doubled quote stands for one quote.
      Yields the unescaped content and the text after the closing quote, or
      None when the closing quote is missing. Whatever it yields, escaping the
      content and closing the quote gives back the text it read. */
  function ScanQuoted(s: string): (r: Option<(string, string)>)
    ensures r.Some? ==> s == Escape(r.value.0) + "\"" + r.value.1
    ensures r.Some? ==> |r.value.1| < |s|
    decreases |s|
  {
    if s == [] then None
    else if s[0] == '"' then
      if |s| > 1 && s[1] == '"' then
        match ScanQuoted(s[2..])
        case None => None
        case Some((c, rest)) =>
          assert ("\"" + c)[1..] == c;
          assert Escape("\"" + c) == "\"\"" + Escape(c);
          assert s == "\"\"" + s[2..];
          Some(("\"" + c, rest))
      else
        Some(([], s[1..]))
    else
      match ScanQuoted(s[1..])
      case None => None
      case Some((c, rest)) =>
        assert ([s[0]] + c)[1..] == c;
        assert Escape([s[0]] + c) == [s[0]] + Escape(c);
        assert s == [s[0]] + s[1..];
        Some(([s[0]] + c, rest))
  }

  /** The standard unescaping of one whole quoted field: the opening quote,
      the content with doubled quotes, the closing quote and nothing after. */
  function Unquote(field: string): Option<string>
  {
    if field == [] || field[0] != '"' then None
    else
      match ScanQuoted(field[1..])
      case None => None
      case Some((c, rest)) => if rest == [] then Some(c) else None
  }

  /** The reader stops at the quote that closes an escaped value, provided
      what follows does not start with another quote (which would make that
      quote an escaped one). */
  lemma {:induction false} ScanQuotedEscape(x: string, tail: string)
    requires tail == [] || tail[0] != '"'
    ensures ScanQuoted(Escape(x) + "\"" + tail) == Some((x, tail))
  {
    var s := Escape(x) + "\"" + tail;
    if x == [] {
      assert s == "\"" + tail;
      assert s[1..] == tail;
    } else {
      var rest := Escape(x[1..]) + "\"" + tail;
      ScanQuotedEscape(x[1..], tail);
      if x[0] == '"' {
        assert s == "\"\"" + rest;
        ScanQuotedDoubled(rest);
        assert "\"" + x[1..] == x;
      } else {
        assert s == [x[0]] + rest;
        ScanQuotedPlain(x[0], rest);
        assert [x[0]] + x[1..] == x;
      }
    }
  }

  /** A doubled quote is read as one quote of the value. */
  lemma ScanQuotedDoubled(rest: string)
    requires ScanQuoted(rest).Some?
    ensures ScanQuoted("\"\"" + rest) == Some(("\"" + ScanQuoted(rest).value.0, ScanQuoted(rest).value.1))
  {
    assert ("\"\"" + rest)[2..] == rest;
  }

  /** Any other character is read as itself. */
  lemma ScanQuotedPlain(c: char, rest: string)
    requires c != '"' && ScanQuoted(rest).Some?
    ensures ScanQuoted([c] + rest) == Some(([c] + ScanQuoted(rest).value.0, ScanQuoted(rest).value.1))
  {
    assert ([c] + rest)[1..] == rest;
  }

  /** Unquoting a quoted cell gives back exactly the cell. */
  lemma UnquoteQuote(s: string)
    ensures Unquote(Quote(s)) == Some(s)
  {
    var f := Quote(s);
    ScanQuotedEscape(s, []);
    assert f[1..] == Escape(s) + "\"" + [];
  }

  /** Conversely, a field the reader accepts is exactly the quoting of what it
      reads, so no other spelling of a cell is accepted. */
  lemma QuoteUnquote(field: string)
    requires Unquote(field).Some?
    ensures Quote(Unquote(field).value) == field
  {
    var r := ScanQuoted(field[1..]);
    assert field == [field[0]] + field[1..];
  }

  /** A value without double quotes is only wrapped by the quoting. */
  lemma {:induction false} EscapePlain(s: string)
    requires '"' !in s
    ensures Escape(s) == s
  {
    if s != [] {
      EscapePlain(s[1..]);
      assert [s[0]] + s[1..] == s;
    }
  }

  /** Escaping works piece by piece. */
  lemma {:induction false} EscapeConcat(a: string, b: string)
    ensures Escape(a + b) == Escape(a) + Escape(b)
  {
    if a == [] {
      assert a + b == b;
    } else {
      calc {
        Escape(a + b);
        { assert (a + b)[0] == a[0] && (a + b)[1..] == a[1..] + b; }
        (if a[0] == '"' then "\"\"" else [a[0]]) + Escape(a[1..] + b);
        { EscapeConcat(a[1..], b); }
        (if a[0] == '"' then "\"\"" else [a[0]]) + (Escape(a[1..]) + Escape(b));
        Escape(a) + Escape(b);
      }
    }
  }
}
