/** git's single-quote convention for values passed through the environment
    (`GIT_CONFIG_PARAMETERS`): the writer, sq_quote_buf, and the reader,
    sq_dequote, of git's quote.c. The bot hands a quoted word to git, so what
    git reads back is what this module computes. */
module GitQuote {
  import opened Base

  /** The characters sq_quote_buf writes outside the quotes, after a backslash. */
  predicate NeedsBackslash(c: char)
  {
    c == '\'' || c == '!'
  }

  function QuoteBody(s: string): (r: string)
    ensures |r| >= |s|
  {
    if s == [] then []
    else (if NeedsBackslash(s[0]) then ['\'', '\\', s[0], '\''] else [s[0]]) + QuoteBody(s[1..])
  }

  /** sq_quote_buf: `'...'`, each `'` and `!` written as `'\''` or `'\!'`. */
  function SqQuote(s: string): (r: string)
    ensures |r| >= |s| + 2 && r[0] == '\''
  {
    "'" + QuoteBody(s) + "'"
  }

  /** The part of sq_dequote after the opening quote. A quote ends the word
      when nothing follows it; `'\''` and `'\!'` put the character back and
      reopen the quotes; anything else after a closing quote is refused. */
  function DequoteQuoted(s: string): (r: Option<string>)
    decreases |s|
  {
    if s == [] then None
    else if s[0] != '\'' then
      match DequoteQuoted(s[1..])
      case Some(w) => Some([s[0]] + w)
      case None => None
    else if |s| == 1 then Some([])
    else if |s| >= 4 && s[1] == '\\' && NeedsBackslash(s[2]) && s[3] == '\'' then
      match DequoteQuoted(s[4..])
      case Some(w) => Some([s[2]] + w)
      case None => None
    else None
  }

  /** sq_dequote: the single word a quoted value stands for, if it is one. */
  function SqDequote(s: string): (r: Option<string>)
  {
    if s == [] || s[0] != '\'' then None else DequoteQuoted(s[1..])
  }

  lemma {:induction false} DequoteQuoteBody(s: string)
    ensures DequoteQuoted(QuoteBody(s) + "'") == Some(s)
  {
    if s == [] {
      assert QuoteBody(s) + "'" == "'";
    } else {
      DequoteQuoteBody(s[1..]);
      var tail := QuoteBody(s[1..]) + "'";
      if NeedsBackslash(s[0]) {
        assert QuoteBody(s) + "'" == ['\'', '\\', s[0], '\''] + tail;
        assert (['\'', '\\', s[0], '\''] + tail)[4..] == tail;
      } else {
        assert QuoteBody(s) + "'" == [s[0]] + tail;
        assert ([s[0]] + tail)[1..] == tail;
      }
      assert s == [s[0]] + s[1..];
    }
  }

  /** git reads back exactly the word sq_quote_buf wrote, whatever it holds. */
  lemma SqQuoteRoundTrip(s: string)
    ensures SqDequote(SqQuote(s)) == Some(s)
  {
    assert SqQuote(s)[1..] == QuoteBody(s) + "'";
    DequoteQuoteBody(s);
  }

  /** A word written between two quotes without any escaping is read back
      as it is exactly when it holds no quote: every quote before the last
      one costs the reader at least one character. */
  lemma {:induction false} DequoteShrinks(t: string)
    requires DequoteQuoted(t).Some?
    ensures |DequoteQuoted(t).value| <= |t| - 1
    ensures (exists i :: 0 <= i < |t| - 1 && t[i] == '\'') ==> |DequoteQuoted(t).value| < |t| - 1
    decreases |t|
  {
    if t[0] != '\'' {
      DequoteShrinks(t[1..]);
      if exists i :: 0 <= i < |t| - 1 && t[i] == '\'' {
        var i :| 0 <= i < |t| - 1 && t[i] == '\'';
        assert t[1..][i - 1] == '\'';
      }
    } else if |t| > 1 {
      DequoteShrinks(t[4..]);
    }
  }

  lemma {:induction false} DequoteUnescaped(x: string)
    requires '\'' !in x
    ensures DequoteQuoted(x + "'") == Some(x)
  {
    if x != [] {
      assert (x + "'")[1..] == x[1..] + "'";
      DequoteUnescaped(x[1..]);
      assert x == [x[0]] + x[1..];
    }
  }

  /** Both directions: wrapping a word in quotes without escaping it is read
      back as that word if and only if the word holds no quote. */
  lemma PlainQuotingReadsBackIff(x: string)
    ensures SqDequote("'" + x + "'") == Some(x) <==> '\'' !in x
  {
    var s := "'" + x + "'";
    assert s[1..] == x + "'";
    if '\'' !in x {
      DequoteUnescaped(x);
    } else if DequoteQuoted(x + "'").Some? {
      var i :| 0 <= i < |x| && x[i] == '\'';
      assert (x + "'")[i] == '\'';
      DequoteShrinks(x + "'");
    }
  }

  lemma {:induction false} QuoteBodyPlain(s: string)
    requires forall i :: 0 <= i < |s| ==> !NeedsBackslash(s[i])
    ensures QuoteBody(s) == s
  {
    if s != [] {
      QuoteBodyPlain(s[1..]);
      assert s == [s[0]] + s[1..];
    }
  }

  /** A word without `'` or `!` is quoted by simply wrapping it in quotes. */
  lemma SqQuotePlain(s: string)
    requires '\'' !in s && '!' !in s
    ensures SqQuote(s) == "'" + s + "'"
  {
    QuoteBodyPlain(s);
  }
}
