/**
 * Delimited SQL identifiers: the double-quote form `"..."` in which a quote inside the
 * identifier is written twice (the `<delimited identifier>` rule of ISO/IEC 9075-2, section 5.2).
 * `QuoteIdentifier` is the adapter's quoting; `Unescape` and `ParseDelimited` are the reading
 * side a SQL lexer applies, and the lemmas below connect the two.
 */
module Quoting {
  import opened Outcomes

  const Dq: char := '"'

  /** Number of occurrences of `c` in `s`. */
  function Count(c: char, s: string): nat {
    if s == [] then 0 else (if s[0] == c then 1 else 0) + Count(c, s[1..])
  }

  /** `name.replace('"', '""')`. */
  function Escape(name: string): string {
    if name == [] then []
    else (if name[0] == Dq then [Dq, Dq] else [name[0]]) + Escape(name[1..])
  }

  /** Undoes `Escape`: every `""` becomes `"`; a lone `"` makes the text malformed. */
  function Unescape(s: string): Option<string> {
    if s == [] then Some([])
    else if s[0] != Dq then
      match Unescape(s[1..])
      case Some(t) => Some([s[0]] + t)
      case None => None
    else if |s| >= 2 && s[1] == Dq then
      match Unescape(s[2..])
      case Some(t) => Some([Dq] + t)
      case None => None
    else None
  }

  /**
   * Reads the body of a delimited identifier whose opening quote has been consumed: returns the
   * identifier and the text after its closing quote, or None when no closing quote is found.
   */
  function ParseBody(s: string): Option<(string, string)> {
    if s == [] then None
    else if s[0] != Dq then
      match ParseBody(s[1..])
      case Some((id, rest)) => Some(([s[0]] + id, rest))
      case None => None
    else if |s| >= 2 && s[1] == Dq then
      match ParseBody(s[2..])
      case Some((id, rest)) => Some(([Dq] + id, rest))
      case None => None
    else Some(([], s[1..]))
  }

  /** Reads one delimited identifier at the start of `s`, as a SQL lexer does. */
  function ParseDelimited(s: string): Option<(string, string)> {
    if s != [] && s[0] == Dq then ParseBody(s[1..]) else None
  }

  lemma {:induction false} EscapeLength(name: string)
    ensures |Escape(name)| == |name| + Count(Dq, name)
  {
    if name != [] { EscapeLength(name[1..]); }
  }

  lemma {:induction false} EscapeRoundTrip(name: string)
    ensures Unescape(Escape(name)) == Some(name)
  {
    if name != [] {
      EscapeRoundTrip(name[1..]);
      var e := Escape(name);
      if name[0] == Dq {
        assert e[2..] == Escape(name[1..]);
      } else {
        assert e[1..] == Escape(name[1..]);
      }
      assert [name[0]] + name[1..] == name;
    }
  }

  /** A name without quote characters is left as it is by `Escape`. */
  lemma {:induction false} EscapeWithoutQuotes(name: string)
    requires Dq !in name
    ensures Escape(name) == name
  {
    if name != [] {
      EscapeWithoutQuotes(name[1..]);
      assert [name[0]] + name[1..] == name;
    }
  }

  /** A name without quote characters is quoted by wrapping it, nothing more. */
  lemma QuoteWithoutQuotes(name: string)
    requires Dq !in name
    ensures QuoteIdentifier(name) == [Dq] + name + [Dq]
  {
    EscapeWithoutQuotes(name);
  }

  /** The escaped body followed by the closing quote is read back exactly, whatever follows. */
  lemma {:induction false} ParseBodyEscaped(name: string, rest: string)
    requires rest == [] || rest[0] != Dq
    ensures ParseBody(Escape(name) + [Dq] + rest) == Some((name, rest))
  {
    var s := Escape(name) + [Dq] + rest;
    if name == [] {
      assert s == [Dq] + rest;
      assert s[1..] == rest;
    } else {
      ParseBodyEscaped(name[1..], rest);
      var tail := Escape(name[1..]) + [Dq] + rest;
      if name[0] == Dq {
        assert s == [Dq, Dq] + tail;
        assert s[2..] == tail;
      } else {
        assert s == [name[0]] + tail;
        assert s[1..] == tail;
      }
      assert [name[0]] + name[1..] == name;
    }
  }

  /**
   * `quote_identifier`: wraps `name` in double quotes with every quote inside doubled. The result
   * is `|name| + 2` characters plus one per quote in `name`, and its interior unescapes to `name`.
   */
  function QuoteIdentifier(name: string): (r: string)
    ensures |r| == |name| + 2 + Count(Dq, name)
    ensures r[0] == Dq && r[|r| - 1] == Dq
    ensures Unescape(r[1..|r| - 1]) == Some(name)
  {
    EscapeLength(name);
    EscapeRoundTrip(name);
    var r := [Dq] + Escape(name) + [Dq];
    assert r[1..|r| - 1] == Escape(name);
    r
  }

  /**
   * Injection safety: a lexer reading `QuoteIdentifier(name)` followed by any text that does not
   * itself start with a quote gets back exactly `name`, and the following text untouched.
   */
  lemma QuotedIdentifierParses(name: string, rest: string)
    requires rest == [] || rest[0] != Dq
    ensures ParseDelimited(QuoteIdentifier(name) + rest) == Some((name, rest))
  {
    ParseBodyEscaped(name, rest);
    var s := QuoteIdentifier(name) + rest;
    assert s == [Dq] + (Escape(name) + [Dq] + rest);
    assert s[1..] == Escape(name) + [Dq] + rest;
  }

  /** Without a quote there is no closing quote: the identifier never ends. */
  lemma {:induction false} NoClosingQuote(w: string)
    requires Dq !in w
    ensures ParseBody(w).None?
  {
    if w != [] {
      NoClosingQuote(w[1..]);
    }
  }

  /** A quote-free body is read up to its closing quote. */
  lemma QuoteFreeBody(w: string, rest: string)
    requires Dq !in w && Dq !in rest
    ensures ParseBody(w + [Dq] + rest) == Some((w, rest))
  {
    EscapeWithoutQuotes(w);
    ParseBodyEscaped(w, rest);
  }

  /**
   * A body wrapped in quotes without doubling the quotes inside it: when it holds a quote, the
   * lexer either finds no identifier or ends it before the whole body has been read.
   */
  lemma {:induction false} WrappedWithQuoteShorter(t: string, rest: string)
    requires Dq in t && Dq !in rest
    ensures ParseBody(t + [Dq] + rest).None? || |ParseBody(t + [Dq] + rest).value.0| < |t|
    decreases |t|
  {
    var x := t + [Dq] + rest;
    if t[0] != Dq {
      assert x[1..] == t[1..] + [Dq] + rest;
      assert Dq in t[1..];
      WrappedWithQuoteShorter(t[1..], rest);
    } else if |t| == 1 {
      assert x == [Dq, Dq] + rest;
      assert x[2..] == rest;
      NoClosingQuote(rest);
    } else if t[1] == Dq {
      var y := t[2..] + [Dq] + rest;
      assert x[2..] == y;
      if Dq in t[2..] {
        WrappedWithQuoteShorter(t[2..], rest);
      } else {
        QuoteFreeBody(t[2..], rest);
      }
    } else {
      assert x[1] == t[1];
    }
  }

  /** Distinct names quote to distinct identifiers. */
  lemma QuoteIdentifierInjective(a: string, b: string)
    requires QuoteIdentifier(a) == QuoteIdentifier(b)
    ensures a == b
  {
  }

  lemma {:induction false} EscapeAppend(a: string, b: string)
    ensures Escape(a + b) == Escape(a) + Escape(b)
  {
    if a != [] {
      EscapeAppend(a[1..], b);
      assert (a + b)[0] == a[0] && (a + b)[1..] == a[1..] + b;
      var piece := if a[0] == Dq then [Dq, Dq] else [a[0]];
      assert Escape(a + b) == piece + (Escape(a[1..]) + Escape(b));
      assert Escape(a) == piece + Escape(a[1..]);
    } else {
      assert a + b == b;
    }
  }

  /** A quote between two quote-free parts is doubled, as for a column named `first"name`. */
  lemma QuoteDoublesEmbeddedQuote(front: string, back: string)
    requires Dq !in front && Dq !in back
    ensures QuoteIdentifier(front + [Dq] + back) == [Dq] + front + [Dq, Dq] + back + [Dq]
  {
    EscapeAppend(front + [Dq], back);
    EscapeAppend(front, [Dq]);
    EscapeWithoutQuotes(front);
    EscapeWithoutQuotes(back);
    assert Escape([Dq]) == [Dq, Dq];
  }
}
