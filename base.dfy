/** Values shared by every part of the webhook handler: optional values, the
    outcome of a git subprocess, the git commands the bot runs, and Go's `%q`
    verb as the handler's error messages use it. */
module Base {

  datatype Option<+T> = None | Some(value: T)

  /** What one `git` subprocess gave back: its standard output, or the text of
      the error the caller received. The subprocess itself is not modelled. */
  datatype GitOutcome = GitOk(out: string) | GitFailed(msg: string)

  /** The error a caller sees for a git outcome: none on success. */
  function ErrorOf(o: GitOutcome): (e: Option<string>)
    ensures e.None? <==> o.GitOk?
    ensures o.GitFailed? ==> e == Some(o.msg)
  {
    match o
    case GitOk(_) => None
    case GitFailed(msg) => Some(msg)
  }

  /** The git commands the bot runs, each with the repository it runs in. */
  datatype GitCommand =
    | Clone(url: string, dest: string)    // git clone --bare --quiet <url> <dest>
    | Fetch(gitDir: string)               // git fetch --quiet --force origin *:*
    | Show(gitDir: string, obj: string)   // git show <obj>

  /** The number of bytes Go's UTF-8 encoding gives a character. */
  function CharBytes(c: char): (n: nat)
    ensures 1 <= n <= 4 && (n == 1 <==> c as int < 0x80)
  {
    if c as int < 0x80 then 1
    else if c as int < 0x800 then 2
    else if c as int < 0x1_0000 then 3
    else 4
  }

  /** `len(s)` of a Go string: its length in UTF-8 bytes, which is what
      slicing such as `s[:8]` counts. */
  function Utf8Length(s: string): (n: nat)
    ensures |s| <= n <= 4 * |s|
  {
    if s == [] then 0 else CharBytes(s[0]) + Utf8Length(s[1..])
  }

  /** For ASCII text bytes and characters are the same count. */
  lemma {:induction false} Utf8LengthAscii(s: string)
    requires forall i :: 0 <= i < |s| ==> s[i] as int < 0x80
    ensures Utf8Length(s) == |s|
  {
    if s != [] {
      Utf8LengthAscii(s[1..]);
    }
  }

  /** The escape sequence `%q` writes for one character. */
  function EscapeChar(c: char): (r: string)
    ensures |r| >= 1
  {
    if c == '"' then "\\\""
    else if c == '\\' then "\\\\"
    else if c == '\n' then "\\n"
    else if c == '\r' then "\\r"
    else if c == '\t' then "\\t"
    else [c]
  }

  function Escape(s: string): (r: string)
    ensures |r| >= |s|
  {
    if s == [] then [] else EscapeChar(s[0]) + Escape(s[1..])
  }

  /** Go's `%q` for a string: a double-quoted literal. */
  function Quote(s: string): (r: string)
    ensures |r| >= |s| + 2 && r[0] == '"' && r[|r| - 1] == '"'
  {
    "\"" + Escape(s) + "\""
  }

  /** Reads back one escaped character sequence written by EscapeChar. */
  function Unescape(s: string): (r: Option<string>)
  {
    if s == [] then Some([])
    else if s[0] == '"' then None
    else if s[0] != '\\' then
      match Unescape(s[1..])
      case Some(rest) => Some([s[0]] + rest)
      case None => None
    else if |s| < 2 then None
    else
      var c :=
        if s[1] == 'n' then '\n' else if s[1] == 'r' then '\r'
        else if s[1] == 't' then '\t' else s[1];
      if !(s[1] in "\"\\nrt") then None
      else
        match Unescape(s[2..])
        case Some(rest) => Some([c] + rest)
        case None => None
  }

  /** strconv.Unquote for the literals Quote produces. */
  function Unquote(s: string): (r: Option<string>)
  {
    if |s| < 2 || s[0] != '"' || s[|s| - 1] != '"' then None
    else Unescape(s[1..|s| - 1])
  }

  /** One escape sequence is read back as the character it was written for. */
  lemma UnescapeChar(c: char, rest: string, t: string)
    requires Unescape(rest) == Some(t)
    ensures Unescape(EscapeChar(c) + rest) == Some([c] + t)
  {
    var e := EscapeChar(c);
    if |e| == 1 {
      assert (e + rest)[1..] == rest;
    } else {
      assert (e + rest)[2..] == rest;
    }
  }

  lemma {:induction false} UnescapeEscape(s: string)
    ensures Unescape(Escape(s)) == Some(s)
  {
    if s != [] {
      UnescapeEscape(s[1..]);
      UnescapeChar(s[0], Escape(s[1..]), s[1..]);
      assert s == [s[0]] + s[1..];
    }
  }

  /** The text inside `%q` can always be recovered: an error message that
      quotes a URL or a format names it unambiguously. */
  lemma QuoteRoundTrip(s: string)
    ensures Unquote(Quote(s)) == Some(s)
  {
    var q := Quote(s);
    assert q[1..|q| - 1] == Escape(s);
    UnescapeEscape(s);
  }
}
