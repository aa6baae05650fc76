/** The repository configuration as config.go reads it: the TOML file
    `.github/commit-emails.toml` at the tip of HEAD. This is a second version
    of the configuration reader, kept apart from the JSON one in mailbot.go.
    The TOML decoder and `GitShow` are parameters. */
module TomlConfig {
  import opened Base

  /** The `[email]` table. */
  datatype Email = Email(format: string)

  /** `to = ...` and `[email] format = ...`; a missing key decodes as "". */
  datatype CommitEmailConfig = CommitEmailConfig(mailingList: string, email: Email)

  const ZeroConfig := CommitEmailConfig("", Email(""))

  /** What toml.Decode makes of the file: the record and the keys it did not
      place in the record, or a failure. */
  datatype Decoding = Decoded(config: CommitEmailConfig, undecoded: seq<string>) | DecodeFailed(msg: string)

  /** The errors parseConfig and getConfig return. */
  datatype ConfigError =
    | MissingConfigError
    | DecodeError(msg: string)
    | InvalidFormat(format: string)

  const MissingText := "no commit-emails.toml found"
  // The prefixes are concatenations of two literals only to keep proofs
  // about their first characters cheap; each reads as the single literal
  // config.go writes.
  const DecodePrefix := "decoding" + " commit-emails.toml: "
  const InvalidFormatPrefix := "invalid" + " email.format (should be html or text): "

  /** The text each error prints (`Error()`). */
  function ErrorText(e: ConfigError): (s: string)
    ensures e.MissingConfigError? ==> s == MissingText
  {
    match e
    case MissingConfigError => MissingText
    case DecodeError(msg) => DecodePrefix + msg
    case InvalidFormat(format) => InvalidFormatPrefix + format
  }

  datatype ConfigResult = ConfigResult(config: CommitEmailConfig, err: Option<ConfigError>)

  predicate ValidFormat(format: string)
  {
    format == "" || format == "html" || format == "text"
  }

  /** parseConfig. Keys the decoder could not place are only logged as a
      warning (the log is not modelled): they do not change the result. */
  function ParseConfig(d: Decoding): (r: ConfigResult)
    ensures r.err.None? <==> d.Decoded? && ValidFormat(d.config.email.format)
    ensures r.err.None? ==> r.config == d.config
    ensures r.err.Some? ==> r.config == ZeroConfig && !r.err.value.MissingConfigError?
    ensures d.DecodeFailed? ==> r.err == Some(DecodeError(d.msg))
    ensures d.Decoded? && !ValidFormat(d.config.email.format) ==> r.err == Some(InvalidFormat(d.config.email.format))
  {
    match d
    case DecodeFailed(msg) => ConfigResult(ZeroConfig, Some(DecodeError(msg)))
    case Decoded(config, _) =>
      var format := config.email.format;
      if !(format == "" || format == "html" || format == "text") then
        ConfigResult(ZeroConfig, Some(InvalidFormat(format)))
      else
        ConfigResult(config, None)
  }

  /** getConfig: any failure to read the file becomes MissingConfigError,
      whatever git said; a file that was read is judged by parseConfig alone. */
  function GetConfig(shown: GitOutcome, decode: string -> Decoding): (r: ConfigResult)
    ensures shown.GitFailed? ==> r == ConfigResult(ZeroConfig, Some(MissingConfigError))
    ensures shown.GitOk? ==> r == ParseConfig(decode(shown.out))
    ensures r.err == Some(MissingConfigError) <==> shown.GitFailed?
  {
    match shown
    case GitFailed(_) => ConfigResult(ZeroConfig, Some(MissingConfigError))
    case GitOk(text) => ParseConfig(decode(text))
  }

  /** Unknown keys never decide the outcome. */
  lemma UndecodedKeysOnlyWarn(config: CommitEmailConfig, u1: seq<string>, u2: seq<string>)
    ensures ParseConfig(Decoded(config, u1)) == ParseConfig(Decoded(config, u2))
    ensures ValidFormat(config.email.format) ==> ParseConfig(Decoded(config, u1)) == ConfigResult(config, None)
  {
  }

  /** Parsing is idempotent: what parseConfig accepts, it accepts again,
      unchanged. */
  lemma ParseConfigIdempotent(d: Decoding, undecoded: seq<string>)
    requires ParseConfig(d).err.None?
    ensures ParseConfig(Decoded(ParseConfig(d).config, undecoded)) == ParseConfig(d)
  {
  }

  /** The first letter of each kind of error text. */
  lemma DecodePrefixInitial()
    ensures DecodePrefix[0] == 'd'
  {
    assert DecodePrefix[0] == "decoding"[0];
  }

  lemma InvalidFormatPrefixInitial()
    ensures InvalidFormatPrefix[0] == 'i'
  {
    assert InvalidFormatPrefix[0] == "invalid"[0];
  }

  lemma ErrorTextInitial(e: ConfigError)
    ensures |ErrorText(e)| > 0
    ensures ErrorText(e)[0] == (if e.MissingConfigError? then 'n' else if e.DecodeError? then 'd' else 'i')
  {
    DecodePrefixInitial();
    InvalidFormatPrefixInitial();
    match e
    case MissingConfigError =>
    case DecodeError(msg) =>
      assert ErrorText(e)[0] == DecodePrefix[0];
    case InvalidFormat(format) =>
      assert ErrorText(e)[0] == InvalidFormatPrefix[0];
  }

  /** The three kinds of error, and the values they carry, can be told apart
      by their text: in particular a missing file never reads like an invalid
      one. */
  lemma {:induction false} ErrorTextInjective(e1: ConfigError, e2: ConfigError)
    requires ErrorText(e1) == ErrorText(e2)
    ensures e1 == e2
  {
    var t := ErrorText(e1);
    ErrorTextInitial(e1);
    ErrorTextInitial(e2);
    match e1
    case MissingConfigError =>
    case DecodeError(m1) =>
      var n := |DecodePrefix|;
      assert m1 == t[n..] == e2.msg;
    case InvalidFormat(f1) =>
      var n := |InvalidFormatPrefix|;
      assert f1 == t[n..] == e2.format;
  }
}
