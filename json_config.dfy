/** The repository configuration as mailbot.go reads it: the JSON file
    `.github/commit-emails.json` at the tip of the mirror's HEAD. The JSON
    decoder is a parameter; what is modelled is what the handler does with
    the decoded record or the decoder's failure. */
module JsonConfig {
  import opened Base

  /** `{"mailingList": ..., "emailFormat": ...}`; a missing field decodes as "". */
  datatype CommitEmailConfig = CommitEmailConfig(mailingList: string, emailFormat: string)

  const ZeroConfig := CommitEmailConfig("", "")

  /** The object handed to `git show`. */
  const ConfigObject := "HEAD:.github/commit-emails.json"

  /** What json.Decoder, with unknown fields disallowed, makes of the file. */
  datatype Decoding = Decoded(config: CommitEmailConfig) | DecodeFailed(msg: string)

  /** Go's `(config CommitEmailConfig, err error)` pair. */
  datatype ConfigResult = ConfigResult(config: CommitEmailConfig, err: Option<string>)

  /** The email formats the handler accepts: unset, "html" or "text". */
  predicate ValidFormat(format: string)
  {
    format == "" || format == "html" || format == "text"
  }

  /** getConfig: reads the file through `git show`, decodes it and checks the
      format. Every failure comes with the zero configuration; a failure of
      `git show` (a repository without the file included) is passed through
      as it is. */
  function GetConfig(shown: GitOutcome, decode: string -> Decoding): (r: ConfigResult)
    ensures r.err.None? <==>
      shown.GitOk? && decode(shown.out).Decoded? && ValidFormat(decode(shown.out).config.emailFormat)
    ensures r.err.None? ==> r.config == decode(shown.out).config && ValidFormat(r.config.emailFormat)
    ensures r.err.Some? ==> r.config == ZeroConfig
    ensures shown.GitFailed? ==> r.err == Some(shown.msg)
  {
    match shown
    case GitFailed(msg) => ConfigResult(ZeroConfig, Some(msg))
    case GitOk(text) =>
      match decode(text)
      case DecodeFailed(msg) =>
        ConfigResult(ZeroConfig, Some("decoding commit-emails.json: " + msg))
      case Decoded(config) =>
        if config.emailFormat != "" && !(config.emailFormat == "html" || config.emailFormat == "text") then
          ConfigResult(ZeroConfig, Some("invalid emailFormat (should be html or text): " + Quote(config.emailFormat)))
        else
          ConfigResult(config, None)
  }

  /** A decoded file is accepted exactly when its format is one of the three,
      and an unacceptable format names itself, quoted, in the error. */
  lemma GetConfigFormat(text: string, decode: string -> Decoding, config: CommitEmailConfig)
    requires decode(text) == Decoded(config)
    ensures ValidFormat(config.emailFormat) ==> GetConfig(GitOk(text), decode) == ConfigResult(config, None)
    ensures !ValidFormat(config.emailFormat) ==>
      GetConfig(GitOk(text), decode)
        == ConfigResult(ZeroConfig, Some("invalid emailFormat (should be html or text): " + Quote(config.emailFormat)))
  {
  }

  /** Validation is idempotent: a configuration getConfig returned passes
      getConfig again when it is what the file decodes to. */
  lemma GetConfigIdempotent(shown: GitOutcome, decode: string -> Decoding, text: string, decode2: string -> Decoding)
    requires GetConfig(shown, decode).err.None?
    requires decode2(text) == Decoded(GetConfig(shown, decode).config)
    ensures GetConfig(GitOk(text), decode2) == GetConfig(shown, decode)
  {
  }
}
