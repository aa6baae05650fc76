# commit-emails-bot, modelled in Dafny

commit-emails-bot is a GitHub webhook server. For every push to a
repository that has installed it, it keeps a bare mirror of that repository
up to date and runs git-multimail (`./git_multimail_wrapper.py`) on the
pushed range to send commit emails to the repository's mailing list.

This project models the decision and argument-building layer of the
server. The modules follow the program's structure:

- `Base` (base.dfy): the outcome of a git subprocess, the git commands the
  bot runs, and Go's `%q` quoting together with its inverse.
- `Paths` (paths.dfy): `filepath.Join` and the mirror path
  `<persist>/repos/github.com/<full_name>` that both the ping and the push
  branch derive.
- `JsonConfig` (json_config.dfy): `getConfig` of mailbot.go. It reads
  `.github/commit-emails.json`, decodes it and checks `emailFormat`.
- `TomlConfig` (toml_config.dfy): `parseConfig`, `getConfig` and
  `MissingConfigError` of config.go. This is a second version of the
  configuration reader. The two files cannot be built together, so each
  version gets its own module.
- `GitQuote` (git_quote.dfy): git's single-quote convention for
  `GIT_CONFIG_PARAMETERS`. Its writer and its reader correspond to
  `sq_quote_buf` and `sq_dequote` in git's quote.c.
- `Notifier` (notifier.dfy): the three inputs of the notifier run:
  - its argument list;
  - the line on its standard input;
  - its environment, where the last entry for a key wins.
- `Mirror` (mirror.dfy): `syncRepo` as a decision on what `os.Stat`
  reports. The decision says which git commands to run and which error to
  return.
- `Events` (events.dfy): the decoded push and generic payloads.
- `Router` (router.dfy): `githubEventHandler`'s chain of checks and its
  dispatch on the event type, as a function.
- `Mailbot` (mailbot.dfy): the push pipeline `Push` (sync, then
  configuration, then notifier) and the request handler `Serve`, both as
  functions. They are implemented by the class `Server`, whose state is:
  - the persistence root, the SMTP password and the inherited environment,
    all fixed at start-up;
  - the file system as `os.Stat` sees it;
  - the sequence of subprocesses started so far.

  Its methods are proved against `Mirror.Sync`, `Push` and `Serve`.

Everything the server asks of the outside world is an input:
- the outcome of each git command and of the notifier;
- the JSON decoder;
- the signature scan and the HMAC comparison;
- the inherited environment.

The code differs from the repository's own description in two places, and
the model follows the code:
- A repository without `commit-emails.json` is not silently skipped. The
  push handler returns an error, and the request is answered with 400
  (`Mailbot.MissingConfigFailsPush`).
- The notifier's standard error goes to the server's standard error.
  `cmd.Output` therefore captures none of it, and the error for a non-zero
  exit ends in `":\n"` with nothing after it (`Mailbot.NotifierError`).

## Model

| member | source | states |
|---|---|---|
| Base.QuoteRoundTrip | mailbot.go:257 | The URL that `%q` puts into the sync error can always be read back exactly: unquoting the literal gives the original string |
| Base.UnescapeEscape | mailbot.go:164 | Reading back the escape sequences `%q` writes for a string gives that string, whatever characters it holds |
| Base.Utf8Length | mailbot.go:277 | A string of n characters takes between n and 4n bytes in UTF-8, the length Go's slicing of a string counts in |
| Base.Utf8LengthAscii | mailbot.go:277 | A string of ASCII characters, such as a hexadecimal commit id, is as many bytes long as it has characters |
| Paths.Join | mailbot.go:253 | The joined path is empty exactly when every element is empty |
| Paths.ReposRoot | mailbot.go:253 | The repository root is `persist/repos/github.com`, or `repos/github.com` when the persistence path is empty |
| Paths.MirrorPath | mailbot.go:304 | The mirror of a repository is the repository root followed by `/` and the full name; an empty full name falls back to the root itself |
| Paths.MirrorPathClean | mailbot.go:253 | For a clean persistence path (empty, or without trailing or doubled `/` and without `.` or `..` elements) and a clean full name, the repository root and the mirror path are clean, so `filepath.Join`'s final Clean leaves them as the model computes them |
| Paths.MirrorPathInjective | mailbot.go:304 | Two repositories with different clean full names never share a mirror directory under a clean persistence path |
| Paths.MirrorPathUnderRoot | mailbot.go:253 | The mirror path of a clean full name begins with the repository root followed by `/` |
| JsonConfig.GetConfig | mailbot.go:151-168 | The result has no error exactly when `git show` succeeded, the file decoded and its format is "", "html" or "text"; an accepted config is the decoded one; every error comes with the zero config; a `git show` failure (a missing file included) is passed through unchanged |
| JsonConfig.GetConfigFormat | mailbot.go:162-166 | A decoded file is accepted unchanged when its format is one of the three; any other format is rejected with the zero config and an error naming the format in `%q` quotes |
| JsonConfig.GetConfigIdempotent | mailbot.go:162-167 | A config that getConfig accepted is accepted again, unchanged, when it is what the file decodes to |
| TomlConfig.ErrorText | config.go:22-24 | `MissingConfigError` prints the constant "no commit-emails.toml found" |
| TomlConfig.ParseConfig | config.go:26-43 | The result has no error exactly when the TOML decoded and `email.format` is "", "html" or "text"; an accepted config is the decoded one; every error comes with the zero config and is never `MissingConfigError`; a decode failure and a bad format each give their own error |
| TomlConfig.GetConfig | config.go:46-52 | Any failure to read the file becomes `MissingConfigError` with the zero config, whatever git said; a file that was read gives exactly what parseConfig gives; so the error is `MissingConfigError` if and only if the read failed |
| TomlConfig.UndecodedKeysOnlyWarn | config.go:31-37 | Keys that the decoder could not place never change the result; with a valid format the decoded config is returned with no error |
| TomlConfig.ParseConfigIdempotent | config.go:38-42 | A config that parseConfig accepted is accepted again, unchanged |
| TomlConfig.ErrorTextInjective | config.go:20-41 | Different errors print differently, so a missing file can be told apart from one that does not decode or has an invalid format |
| GitQuote.SqQuoteRoundTrip | mailbot.go:336-337 | A value quoted the way git quotes (`'`, with `'` and `!` escaped outside the quotes) is read back by git exactly, whatever it holds |
| GitQuote.PlainQuotingReadsBackIff | mailbot.go:336-337 | Wrapping a value in single quotes without escaping it is read back as that value if and only if the value holds no single quote |
| Notifier.Args | mailbot.go:311-323 | The arguments start with `--stdout` if and only if the password is empty. Then come `-c` and the mailing-list override, then `-c` and the format override if and only if a format is set. Their number is `[no password] + 2 + 2·[format set]`, and nothing else appears in them |
| Notifier.ArgsIgnorePassword | mailbot.go:311-324 | The argument list depends on the password only through whether it is empty, so the password itself never reaches argv |
| Notifier.Stdin | mailbot.go:325 | The notifier's input line is `before`, a space, `after`, a space and `ref`, each in its place and nothing else |
| Notifier.StdinSplits | mailbot.go:325 | The notifier's input line splits on spaces into exactly before, after and ref, as a post-receive hook reads it |
| Notifier.GetenvLastWins | mailbot.go:328-337 | A program finds a value for a key if and only if some entry sets that key, and the value it finds is the one of the last such entry |
| Notifier.Env | mailbot.go:328-337 | The environment is the inherited one followed by exactly three more entries |
| Notifier.EnvOverrides | mailbot.go:328-337 | Whatever the inherited environment holds, the notifier reads `GIT_DIR` as the mirror, `GIT_CONFIG_GLOBAL` as `git-multimail.config`, and `GIT_CONFIG_PARAMETERS` as the password parameter between single quotes, as written |
| Notifier.EnvPasswordReadsBackIff | mailbot.go:328-337 | The notifier's git reads back `multimailhook.smtpPass=<password>` from its environment if and only if the password holds no single quote |
| Notifier.EnvPasswordOnlyInLastEntry | mailbot.go:332-337 | The inherited entries and the first two appended entries are the same whatever the password; of the three entries the handler appends, only the `GIT_CONFIG_PARAMETERS` one depends on the password |
| Notifier.AsWrittenReadsBackIff | mailbot.go:337 | With the quoting as written, git reads back `multimailhook.smtpPass=<password>` if and only if the password holds no single quote |
| Notifier.QuoteInPasswordIsRefused | mailbot.go:337 | With the quoting as written, the password `a'b` is not read back by git |
| Notifier.ConfigParametersRoundTrip | mailbot.go:336-337 | With git's own quoting, git reads back `multimailhook.smtpPass=<password>` exactly, for every password |
| Notifier.ConfigParametersAgree | mailbot.go:337 | For a password without `'` or `!`, git's quoting and the quoting as written produce the same value |
| Mirror.Sync | mailbot.go:281-301 | A missing path is cloned, and fetched only if the clone succeeded. An existing directory is only fetched. A path that is not a directory is an error and no git command runs. Any other stat error is returned unchanged. The mirror is created exactly when a clone succeeded, and the sync succeeds exactly when it reached a fetch that succeeded |
| Mirror.SyncIdempotent | mailbot.go:281-301 | After a successful sync the mirror is a directory, and a second sync only fetches |
| Mirror.FailedFetchAfterCloneRetriesFetchOnly | mailbot.go:282-295 | A clone that succeeded is never repeated, even when the fetch after it failed |
| Mailbot.NotifierError | mailbot.go:338-345 | The push handler succeeds exactly when the notifier exited with status zero |
| Mailbot.Push | mailbot.go:303-346 | A push that succeeds ended with a notifier run that exited zero; the whole run, step by step, is stated by `Mailbot.PushPipeline` |
| Mailbot.PushPipeline | mailbot.go:303-346 | The sync runs first, and a failed sync ends the push with its error. `git show` of the config runs next. The notifier runs, once and as the last subprocess, if and only if the sync and the config both succeeded; the push then runs exactly the sync's commands, `git show` and the notifier, and after a config error exactly the sync's commands and `git show`. A config error, a missing file included, ends the push with "no commit-emails.json found for <repo>: <error>". The push succeeds exactly when sync, config and notifier all succeed |
| Mailbot.PushInvocationIgnoresPassword | mailbot.go:311-337 | Two passwords that are both empty or both set give the notifier the same arguments, the same input, and environments that differ in their last entry only (the entry that carries the password parameter) |
| Mailbot.PushIgnoresPassword | mailbot.go:303-346 | For the same notifier outcome, the password does not change which subprocesses a push runs up to the notifier, nor the push's error |
| Mailbot.MissingConfigFailsPush | mailbot.go:315-319 | A repository without its configuration file gets no email, and the push reports an error |
| Mailbot.HtmlConfigReachesNotifier | mailbot.go:320-323 | Scenario: a mirrored repository configured for HTML email runs the notifier with `multimailhook.commitEmailFormat=html`, and the push succeeds |
| Mailbot.NotifierSteps | mailbot.go:311-337 | The argument list and the environment, appended step by step, are `Notifier.Args` and `Notifier.Env` |
| Mailbot.Serve | mailbot.go:206-279 | A rejected request starts no subprocess and leaves the file system unchanged; only a push request can run the notifier; what a ping does is stated by `Mailbot.PongMeansMirrored` and `Mailbot.FirstPingCreatesMirror`, what a push does by `Mailbot.OKMeansNotified` |
| Mailbot.PingAndPushShareMirror | mailbot.go:253 | The mirror that a ping of a repository syncs is the one that a push of the same repository works on |
| Mailbot.PongMeansMirrored | mailbot.go:251-263 | The answer "Pong" is given only to a ping after the sync's last subprocess, a fetch of the mirror, succeeded, and the mirror is then a directory |
| Mailbot.FirstPingCreatesMirror | mailbot.go:251-263 | Scenario: a ping of a repository whose mirror is absent, with a clone and a fetch that succeed, runs exactly that clone and that fetch, adds the mirror directory and changes nothing else, and answers "Pong" |
| Mailbot.OKMeansNotified | mailbot.go:267-276 | The answer "OK" is given only after the notifier ran and exited zero |
| Mailbot.Server.GitClone | mailbot.go:348-351 | Records `git clone --bare` of the URL into the destination; a successful clone leaves a directory there |
| Mailbot.Server.GitFetch | mailbot.go:353-356 | Records `git fetch` in the mirror and leaves the file system as it was |
| Mailbot.Server.SyncRepo | mailbot.go:281-301 | Runs exactly the commands `Mirror.Sync` decides, in its order, and returns its error; a directory is added at the mirror path exactly when a clone succeeded, and nothing else in the file system changes |
| Mailbot.Server.PushHandler | mailbot.go:303-346 | Starts exactly the subprocesses `Push` lists, in order, returns `Push`'s error, and changes the file system as the sync does |
| Mailbot.Server.RunNotifier | mailbot.go:320-345 | Builds the arguments and the environment (with the password between single quotes, as written) step by step and starts the notifier with `Push`'s invocation, and the notifier's exit decides the error |
| Mailbot.Server.EventHandler | mailbot.go:206-279 | Answers, starts subprocesses and changes the file system exactly as `Serve` says |
| Router.BadRequest | mailbot.go:208 | `http.Error` answers 400, and its body is the message followed by a newline |
| Router.Route | mailbot.go:206-279 | The checks reject with 400, in this order: a method other than POST, a signature header that does not scan, an HMAC mismatch, an empty event type, a payload that does not decode. A rejected request hands on no work. `ping` syncs the mirror at `MirrorPath(persist, full_name)` and answers "Pong" exactly when the sync succeeded. A `push` whose payload names neither a repository nor a sender panics before any work. Any other `push` runs the push handler; it answers "OK" exactly when the handler succeeded and both commit ids are at least eight bytes long in UTF-8, and, when the handler succeeded, panics when either is shorter; a failed handler is answered 400 "push handler failed: …" whatever the length of the ids. Any other event type is answered 200 with an empty body and does nothing |
| Router.RouteActionsIgnoreOutcomes | mailbot.go:251-278 | Which work is handed on depends on the request alone, never on how the sync or the push turns out |
| Router.StatusShowsInBody | mailbot.go:206-279 | The handler answers only 200 or 400. An answer is a 400 if and only if its body ends in a newline |
| Router.ShortIdsCountBytes | mailbot.go:277 | Scenario: a successful push whose `before` is five characters `é` (ten bytes) is answered "OK", because Go slices the id by bytes |
| Router.SuccessBodiesMeanWorkDone | mailbot.go:251-278 | "OK" means a POST push whose handler ran and succeeded; "Pong" means a POST ping whose mirror sync ran and succeeded |

## Left out

- `main` is not modelled: flags, environment variables, TLS and autocert, the `ListenAndServe` goroutines, shutdown on signals and the `index.html` page are process and network setup.
- The HMAC-SHA256 of the payload is not modelled. Whether it matches the header is an input, and a constant-time comparison cannot be expressed.
- The 1 MiB limit that `http.MaxBytesReader` puts on the payload is not modelled.
- The `%x` scan of the signature header is not modelled. Whether it succeeds, and its error text, are inputs.
- JSON and TOML decoding, including `DisallowUnknownFields`, are not modelled. A request carries what the decoder makes of its payload as a push event and as a generic event. The configuration readers take the decoder as a function.
- Running git and the notifier is not modelled. Their outcomes and the texts of their errors are inputs, including the error text that `runGitCmd` builds and the exit state the notifier's error names.
- `os.Stat` sees a map from paths to "directory", "file" or an error. No other file-system detail is modelled.
- `os.Environ()` is an opaque sequence of entries.
- Logging is not modelled. This includes `slog.Warn` and the loop that builds its key list in parseConfig.
- Concurrent deliveries that race on one mirror directory, and request timeouts, are not modelled.
- `GitShow` is not part of this model. Any failure of it is a failed git outcome.
- Paths.Join: does not model `Clean`, so `.`, `..` and repeated slashes inside a full name are kept as they are.
- Paths.ReposRoot: equals `filepath.Join`'s result only for a clean persistence path (`Paths.MirrorPathClean`); Go turns `persist/` or `./persist` into a different string.
- Paths.MirrorPath: equals `filepath.Join`'s result only for a clean persistence path and a clean full name. For other names Go's Clean changes the path: `a/b` and `a/b/` share one mirror, and `../../../x` leaves the repository root. GitHub's `owner/repo` names are clean.
- Mailbot.PushIgnoresPassword: the notifier's exit is an input independent of its arguments and environment. In the program a password holding `'` makes git refuse `GIT_CONFIG_PARAMETERS` (see Findings), so the push can fail where another password succeeds.
- Paths.MirrorPathInjective, Paths.MirrorPathUnderRoot: hold for clean names only, for the reason above.
- Notifier.EnvPasswordOnlyInLastEntry: the inherited environment is an input independent of the password. In the server it holds `MAIL_SMTP_PASSWORD`, the very value the password is read from, and `WEBHOOK_SECRET`, so the password also appears in an inherited entry; the lemma speaks only of the entries the handler appends.
- Mailbot.PushInvocationIgnoresPassword: for the same reason, the two environments differ in their last entry alone only when the inherited environment does not depend on the password; in the server its `MAIL_SMTP_PASSWORD` entry differs as well.
- Base.Quote: escapes only `"`, `\`, newline, carriage return and tab. `%q` also writes `\a`, `\b`, `\f` and `\v` as two-character escapes, `\x` for other control bytes and invalid UTF-8, `\u` for other non-printable characters and `\U` for those above U+FFFF; none of these is modelled.
- GitQuote.SqDequote: reads a single word. git's splitting of `GIT_CONFIG_PARAMETERS` into several whitespace-separated words is not modelled.
- What net/http sends to the client after the handler panics is not modelled: the answer is only `Panicked`.

## Findings

| source | as written | input that shows it | evidently intended | confidence | as-written member | corrected member |
|---|---|---|---|---|---|---|
| mailbot.go:337 | `GIT_CONFIG_PARAMETERS` is set to the password parameter between single quotes, with nothing escaped | SMTP password `a'b`: the quote inside the password closes the quoted word early, and git does not read back `multimailhook.smtpPass=a'b` | git reads back `multimailhook.smtpPass=<password>` for every password, which takes escaping `'` (and `!`) the way git's own `sq_quote_buf` does | medium; not executed | Notifier.EnvPasswordReadsBackIff | Notifier.ConfigParametersRoundTrip |
