/**
 * `csv.writer(f, delimiter=';', quoting=csv.QUOTE_MINIMAL)` as every generator opens it, and
 * `writer.writerow(tokens)`: a token is enclosed in double quotes exactly when it holds the
 * delimiter, the quote character or a line-break character, a quote inside a quoted token is
 * doubled, tokens are separated by ';' and the line ends with "\r\n" (the writer's default
 * line terminator). The reading side follows section 2 of RFC 4180 with ';' as the separator.
 */
module LineWriter {
  import opened Text
  import opened Wrappers

  const DELIMITER := ';'
  const QUOTE := '"'
  const LINE_END := "\r\n"

  predicate NeedsQuoting(s: string)
  {
    DELIMITER in s || QUOTE in s || '\r' in s || '\n' in s
  }

  /** The token with every '"' doubled. */
  function Escape(s: string): (r: string)
    ensures |r| >= |s|
    ensures QUOTE !in s ==> r == s
  {
    if s == "" then ""
    else if s[0] == QUOTE then [QUOTE, QUOTE] + Escape(s[1..])
    else [s[0]] + Escape(s[1..])
  }

  /** A token as `QUOTE_MINIMAL` writes it. */
  function QuoteField(s: string): (r: string)
    ensures NeedsQuoting(s) ==> |r| >= 2 && r[0] == QUOTE && r[|r| - 1] == QUOTE
    ensures !NeedsQuoting(s) ==> r == s
  {
    if NeedsQuoting(s) then [QUOTE] + Escape(s) + [QUOTE] else s
  }

  function QuoteFields(tokens: seq<string>): (r: seq<string>)
    ensures |r| == |tokens|
  {
    seq(|tokens|, k requires 0 <= k < |tokens| => QuoteField(tokens[k]))
  }

  /** `writer.writerow(tokens)`: the text one call appends to the file. */
  function WriteRow(tokens: seq<string>): (line: string)
    ensures EndsWith(line, LINE_END)
  {
    var line := Join(QuoteFields(tokens), [DELIMITER]) + LINE_END;
    assert line[|line| - 2..] == LINE_END;
    line
  }

  // ---------------------------------------------------------------- reading a line back

  /** The text of an unquoted token: everything up to the next ';', and what follows it. */
  function ReadPlain(s: string): (r: (string, string))
    ensures |r.1| <= |s|
    ensures r.1 == "" || r.1[0] == DELIMITER
    decreases |s|
  {
    if s == "" || s[0] == DELIMITER then ("", s)
    else
      var (f, rest) := ReadPlain(s[1..]);
      ([s[0]] + f, rest)
  }

  /** The content of a quoted token whose opening quote is already consumed, and what follows its closing quote. */
  function ReadQuoted(s: string): (r: Option<(string, string)>)
    ensures r.Some? ==> |r.value.1| < |s|
    decreases |s|
  {
    if s == "" then None
    else if s[0] == QUOTE then
      if |s| >= 2 && s[1] == QUOTE then
        match ReadQuoted(s[2..])
        case None => None
        case Some((f, rest)) => Some(([QUOTE] + f, rest))
      else
        Some(("", s[1..]))
    else
      match ReadQuoted(s[1..])
      case None => None
      case Some((f, rest)) => Some(([s[0]] + f, rest))
  }

  /** The tokens of a line whose terminator is already removed. */
  function ParseFields(s: string): Option<seq<string>>
    decreases |s|
  {
    if s != "" && s[0] == QUOTE then
      match ReadQuoted(s[1..])
      case None => None
      case Some((f, rest)) =>
        if rest == "" then Some([f])
        else if rest[0] != DELIMITER then None
        else
          match ParseFields(rest[1..])
          case None => None
          case Some(fs) => Some([f] + fs)
    else
      var (f, rest) := ReadPlain(s);
      if rest == "" then Some([f])
      else
        match ParseFields(rest[1..])
        case None => None
        case Some(fs) => Some([f] + fs)
  }

  function ParseLine(line: string): Option<seq<string>>
  {
    if EndsWith(line, LINE_END) then ParseFields(line[..|line| - 2]) else None
  }

  lemma {:induction false} ReadPlainToken(f: string, rest: string)
    requires DELIMITER !in f
    requires rest == "" || rest[0] == DELIMITER
    ensures ReadPlain(f + rest) == (f, rest)
    decreases |f|
  {
    if f != "" {
      assert (f + rest)[0] == f[0] && f[0] in f;
      assert (f + rest)[1..] == f[1..] + rest;
      ReadPlainToken(f[1..], rest);
      assert [f[0]] + f[1..] == f;
    } else {
      assert f + rest == rest;
    }
  }

  lemma {:induction false} ReadQuotedToken(f: string, rest: string)
    requires rest == "" || rest[0] != QUOTE
    ensures ReadQuoted(Escape(f) + [QUOTE] + rest) == Some((f, rest))
    decreases |f|
  {
    var s := Escape(f) + [QUOTE] + rest;
    if f == "" {
      assert s == [QUOTE] + rest;
      assert s[1..] == rest;
    } else if f[0] == QUOTE {
      assert s == [QUOTE, QUOTE] + (Escape(f[1..]) + [QUOTE] + rest);
      assert s[2..] == Escape(f[1..]) + [QUOTE] + rest;
      ReadQuotedToken(f[1..], rest);
      assert [QUOTE] + f[1..] == f;
    } else {
      assert s == [f[0]] + (Escape(f[1..]) + [QUOTE] + rest);
      assert s[1..] == Escape(f[1..]) + [QUOTE] + rest;
      ReadQuotedToken(f[1..], rest);
      assert [f[0]] + f[1..] == f;
    }
  }

  /** One token as written, followed by what comes after it, reads back as that token. */
  lemma ReadToken(t: string, rest: string)
    requires rest == "" || rest[0] == DELIMITER
    ensures var s := QuoteField(t) + rest;
      && (s != "" && s[0] == QUOTE ==> ReadQuoted(s[1..]) == Some((t, rest)))
      && (!(s != "" && s[0] == QUOTE) ==> ReadPlain(s) == (t, rest))
  {
    if NeedsQuoting(t) {
      ReadQuotedField(t, rest);
    } else {
      ReadPlainField(t, rest);
    }
  }

  /** A quoted token opens with '"' and its content reads back up to the closing quote. */
  lemma ReadQuotedField(t: string, rest: string)
    requires NeedsQuoting(t) && (rest == "" || rest[0] == DELIMITER)
    ensures var s := QuoteField(t) + rest;
      s != "" && s[0] == QUOTE && ReadQuoted(s[1..]) == Some((t, rest))
  {
    assert QuoteField(t) == [QUOTE] + Escape(t) + [QUOTE];
    Enclosed(Escape(t), rest);
    ReadQuotedToken(t, rest);
  }

  lemma Enclosed(e: string, rest: string)
    ensures var s := [QUOTE] + e + [QUOTE] + rest; s[0] == QUOTE && s[1..] == e + [QUOTE] + rest
  {
    var s := [QUOTE] + e + [QUOTE] + rest;
    assert s == [QUOTE] + (e + [QUOTE] + rest);
  }

  /** A token written as it is does not open with '"' and reads back up to the next ';'. */
  lemma ReadPlainField(t: string, rest: string)
    requires !NeedsQuoting(t) && (rest == "" || rest[0] == DELIMITER)
    ensures var s := QuoteField(t) + rest;
      !(s != "" && s[0] == QUOTE) && ReadPlain(s) == (t, rest)
  {
    if t != "" {
      assert t[0] in t && (t + rest)[0] == t[0];
    } else {
      assert t + rest == rest;
    }
    ReadPlainToken(t, rest);
  }

  lemma {:induction false} ParseJoinedFields(tokens: seq<string>)
    requires |tokens| >= 1
    ensures ParseFields(Join(QuoteFields(tokens), [DELIMITER])) == Some(tokens)
  {
    var quoted := QuoteFields(tokens);
    var rest := if |tokens| == 1 then "" else [DELIMITER] + Join(quoted[1..], [DELIMITER]);
    var s := Join(quoted, [DELIMITER]);
    assert s == QuoteField(tokens[0]) + rest;
    ReadToken(tokens[0], rest);
    if |tokens| >= 2 {
      assert rest[1..] == Join(QuoteFields(tokens[1..]), [DELIMITER]) by {
        assert quoted[1..] == QuoteFields(tokens[1..]);
      }
      ParseJoinedFields(tokens[1..]);
      assert [tokens[0]] + tokens[1..] == tokens;
      if s != "" && s[0] == QUOTE {
        assert ReadQuoted(s[1..]) == Some((tokens[0], rest));
      } else {
        assert ReadPlain(s) == (tokens[0], rest);
      }
    } else {
      assert tokens == [tokens[0]];
      if s != "" && s[0] == QUOTE {
        assert ReadQuoted(s[1..]) == Some((tokens[0], rest));
      } else {
        assert ReadPlain(s) == (tokens[0], rest);
      }
    }
  }

  /** Reading a written line gives back exactly the tokens that were written. */
  lemma ParseWriteRow(tokens: seq<string>)
    requires |tokens| >= 1
    ensures ParseLine(WriteRow(tokens)) == Some(tokens)
  {
    var body := Join(QuoteFields(tokens), [DELIMITER]);
    assert WriteRow(tokens)[..|WriteRow(tokens)| - 2] == body;
    ParseJoinedFields(tokens);
  }

  /** Two rows are written as the same line only when they hold the same tokens. */
  lemma WriteRowInjective(a: seq<string>, b: seq<string>)
    requires |a| >= 1 && |b| >= 1
    requires WriteRow(a) == WriteRow(b)
    ensures a == b
  {
    ParseWriteRow(a);
    ParseWriteRow(b);
  }

  /**
   * The '|' item separator does not make the writer quote a token: one holding '|' but no ';',
   * '"', CR or LF is written bare, '|' and all.
   */
  lemma ItemSeparatorAloneIsNotQuoted(s: string)
    requires '|' in s
    requires DELIMITER !in s && QUOTE !in s && '\r' !in s && '\n' !in s
    ensures !NeedsQuoting(s) && QuoteField(s) == s && '|' in QuoteField(s)
  {
  }

  /**
   * A token that already carries its own enclosing quotes is quoted again by the writer, so every
   * quote of the pair is doubled inside a new pair: `"a|b"` is written as `"""a|b"""`.
   */
  lemma PreQuotedTokenIsQuotedTwice(s: string)
    requires QUOTE !in s
    ensures QuoteField([QUOTE] + s + [QUOTE]) == [QUOTE, QUOTE, QUOTE] + s + [QUOTE, QUOTE, QUOTE]
  {
    var t := [QUOTE] + s + [QUOTE];
    assert QUOTE in t by { assert t[0] == QUOTE; }
    EscapeConcat([QUOTE], s + [QUOTE]);
    EscapeConcat(s, [QUOTE]);
    assert t == [QUOTE] + (s + [QUOTE]);
  }

  lemma {:induction false} EscapeConcat(a: string, b: string)
    ensures Escape(a + b) == Escape(a) + Escape(b)
    decreases |a|
  {
    if a != "" {
      var h := if a[0] == QUOTE then [QUOTE, QUOTE] else [a[0]];
      assert (a + b)[0] == a[0] && (a + b)[1..] == a[1..] + b;
      assert Escape(a) == h + Escape(a[1..]);
      assert Escape(a + b) == h + Escape(a[1..] + b);
      EscapeConcat(a[1..], b);
    } else {
      assert a + b == b;
    }
  }
}
