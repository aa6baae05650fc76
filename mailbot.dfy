/** The push pipeline of mailbot.go: sync the mirror, read the configuration,
    then run the notifier. The server's state is the part of the file system
    os.Stat looks at and the sequence of subprocesses it has started; the
    outcome of every subprocess is an input. */
module Mailbot {
  import opened Base
  import Paths
  import Mirror
  import JsonConfig
  import Notifier
  import opened Events
  import Router

  /** How the notifier subprocess ended. Its standard error goes to the
      server's own standard error, so an exit error carries no captured text. */
  datatype NotifierExit = ExitedZero | ExitedNonZero(state: string) | RunFailed(msg: string)

  /** The outcomes of the subprocesses one push runs: clone and fetch of the
      mirror, `git show` of the configuration, the JSON decoder, the notifier. */
  datatype Oracle = Oracle(
    clone: GitOutcome,
    fetch: GitOutcome,
    show: GitOutcome,
    decode: string -> JsonConfig.Decoding,
    notifier: NotifierExit)

  /** A subprocess the server starts. */
  datatype Effect = Git(cmd: GitCommand) | Notify(inv: Notifier.Invocation)

  function GitEffects(cmds: seq<GitCommand>): (es: seq<Effect>)
    ensures |es| == |cmds| && forall i :: 0 <= i < |cmds| ==> es[i] == Git(cmds[i])
  {
    if cmds == [] then [] else [Git(cmds[0])] + GitEffects(cmds[1..])
  }

  /** What is at a path, as far as os.Stat can tell. */
  datatype Node = Dir | File | Unstattable(err: string)

  function StatOf(fs: map<string, Node>, path: string): (s: Mirror.Stat)
    ensures s.Missing? <==> path !in fs
  {
    if path !in fs then Mirror.Missing
    else match fs[path]
      case Dir => Mirror.Directory
      case File => Mirror.NotDirectory
      case Unstattable(err) => Mirror.StatFailed(err)
  }

  /** The error githubPushHandler returns for the notifier's exit. */
  function NotifierError(exit: NotifierExit): (e: Option<string>)
    ensures e.None? <==> exit.ExitedZero?
  {
    match exit
    case ExitedZero => None
    case ExitedNonZero(state) => Some("git_multimail_wrapper.py failed: " + state + ":\n")
    case RunFailed(msg) => Some(msg)
  }

  predicate Notified(effects: seq<Effect>)
  {
    exists i :: 0 <= i < |effects| && effects[i].Notify?
  }

  /** One run of githubPushHandler: the subprocesses it started, its error,
      and whether it created the mirror. */
  datatype PushRun = PushRun(effects: seq<Effect>, err: Option<string>, created: bool)

  /** The mirror a push event works on. */
  function GitDir(persist: string, ev: PushEvent): string
    requires ev.generic.Some?
  {
    Paths.MirrorPath(persist, ev.generic.value.repository.fullName)
  }

  /** The notifier run a push asks for, once its mirror and configuration
      are known. */
  function PushInvocation(gitDir: string, smtpPassword: string, environ: seq<string>,
                          ev: PushEvent, config: JsonConfig.CommitEmailConfig): Notifier.Invocation
  {
    Notifier.Invocation(
      Notifier.Args(smtpPassword, config),
      Notifier.Stdin(ev.before, ev.after, ev.ref),
      Notifier.Env(environ, gitDir, smtpPassword))
  }

  /** githubPushHandler as a function of the mirror's state and of the
      outcomes of its subprocesses. A push that succeeds ended with a
      notifier run that exited zero; `PushPipeline` states the whole run. */
  function Push(stat: Mirror.Stat, persist: string, smtpPassword: string, environ: seq<string>,
                ev: PushEvent, o: Oracle): (r: PushRun)
    requires ev.generic.Some?
    ensures r.err.None? ==> o.notifier.ExitedZero? && |r.effects| > 0 && r.effects[|r.effects| - 1].Notify?
  {
    var repo := ev.generic.value.repository;
    var gitDir := GitDir(persist, ev);
    var sync := Mirror.Sync(stat, gitDir, repo.cloneUrl, o.clone, o.fetch);
    if sync.err.Some? then
      PushRun(GitEffects(sync.commands), sync.err, sync.created)
    else
      var shown := GitEffects(sync.commands) + [Git(Show(gitDir, JsonConfig.ConfigObject))];
      var cfg := JsonConfig.GetConfig(o.show, o.decode);
      if cfg.err.Some? then
        PushRun(shown, Some("no commit-emails.json found for " + repo.fullName + ": " + cfg.err.value), sync.created)
      else
        PushRun(shown + [Notify(PushInvocation(gitDir, smtpPassword, environ, ev, cfg.config))],
                NotifierError(o.notifier), sync.created)
  }

  /** The pipeline order: the sync comes first and a failed sync ends the
      run; the configuration is read next and a configuration error (a
      missing file among them) ends the run; only then is the notifier run,
      once, with arguments, input and environment built from the event, the
      configuration and the password, and a failure of the notifier is the
      run's error. */
  lemma PushPipeline(stat: Mirror.Stat, persist: string, smtpPassword: string, environ: seq<string>,
                     ev: PushEvent, o: Oracle)
    requires ev.generic.Some?
    ensures var r := Push(stat, persist, smtpPassword, environ, ev, o);
      var repo := ev.generic.value.repository;
      var gitDir := GitDir(persist, ev);
      var sync := Mirror.Sync(stat, gitDir, repo.cloneUrl, o.clone, o.fetch);
      var cfg := JsonConfig.GetConfig(o.show, o.decode);
      && r.created == sync.created
      && |r.effects| >= |sync.commands| && r.effects[..|sync.commands|] == GitEffects(sync.commands)
      && (sync.err.Some? ==> r.effects == GitEffects(sync.commands) && r.err == sync.err)
      && (sync.err.None? ==>
            (|r.effects| > |sync.commands| && r.effects[|sync.commands|] == Git(Show(gitDir, JsonConfig.ConfigObject))))
      && (sync.err.None? && cfg.err.Some? ==>
            r.err == Some("no commit-emails.json found for " + repo.fullName + ": " + cfg.err.value))
      && (sync.err.None? && cfg.err.Some? ==> |r.effects| == |sync.commands| + 1)
      && (Notified(r.effects) <==> sync.err.None? && cfg.err.None?)
      && (Notified(r.effects) ==> |r.effects| == |sync.commands| + 2)
      && (Notified(r.effects) ==>
            r.effects[|r.effects| - 1] == Notify(PushInvocation(gitDir, smtpPassword, environ, ev, cfg.config))
            && r.err == NotifierError(o.notifier))
      && (r.err.None? <==> sync.err.None? && cfg.err.None? && o.notifier.ExitedZero?)
  {
    var repo := ev.generic.value.repository;
    var gitDir := GitDir(persist, ev);
    var sync := Mirror.Sync(stat, gitDir, repo.cloneUrl, o.clone, o.fetch);
    var synced := GitEffects(sync.commands);
    assert !Notified(synced);
    if sync.err.None? {
      var shown := synced + [Git(Show(gitDir, JsonConfig.ConfigObject))];
      assert !Notified(shown);
      var cfg := JsonConfig.GetConfig(o.show, o.decode);
      if cfg.err.None? {
        var effects := shown + [Notify(PushInvocation(gitDir, smtpPassword, environ, ev, cfg.config))];
        assert effects[..|sync.commands|] == synced;
        assert effects[|effects| - 1].Notify?;
      }
    }
  }

  /** The password never reaches the notifier's arguments or input: with
      another password that is empty exactly when this one is, the notifier
      gets the same arguments and the same input, and of the environment
      entries the handler appends only the last one differs. (The inherited
      environment is an input here; in the running server it is the one the
      password was read from.) */
  lemma PushInvocationIgnoresPassword(gitDir: string, pw1: string, pw2: string, environ: seq<string>,
                                      ev: PushEvent, config: JsonConfig.CommitEmailConfig)
    requires (pw1 == "") == (pw2 == "")
    ensures var i1 := PushInvocation(gitDir, pw1, environ, ev, config);
      var i2 := PushInvocation(gitDir, pw2, environ, ev, config);
      i1.args == i2.args && i1.stdin == i2.stdin && |i1.env| == |i2.env| &&
      i1.env[..|environ| + 2] == i2.env[..|environ| + 2]
  {
    Notifier.ArgsIgnorePassword(pw1, pw2, config);
    Notifier.EnvPasswordOnlyInLastEntry(environ, gitDir, pw1, pw2);
  }

  /** ... and, for the same notifier outcome, the rest of the push does not
      depend on the password: the same subprocesses run up to the notifier
      and the run ends with the same error. The notifier's exit is an input
      here; in the program it can depend on the password (see
      `Notifier.EnvPasswordReadsBackIff`). */
  lemma PushIgnoresPassword(stat: Mirror.Stat, persist: string, pw1: string, pw2: string,
                            environ: seq<string>, ev: PushEvent, o: Oracle)
    requires ev.generic.Some?
    ensures var r1 := Push(stat, persist, pw1, environ, ev, o);
      var r2 := Push(stat, persist, pw2, environ, ev, o);
      r1.err == r2.err && |r1.effects| == |r2.effects| &&
      (!Notified(r1.effects) ==> r1.effects == r2.effects) &&
      (Notified(r1.effects) ==> r1.effects[..|r1.effects| - 1] == r2.effects[..|r2.effects| - 1])
  {
    var repo := ev.generic.value.repository;
    var sync := Mirror.Sync(stat, GitDir(persist, ev), repo.cloneUrl, o.clone, o.fetch);
    var cfg := JsonConfig.GetConfig(o.show, o.decode);
    var r1 := Push(stat, persist, pw1, environ, ev, o);
    if sync.err.None? && cfg.err.None? {
      var shown := GitEffects(sync.commands) + [Git(Show(GitDir(persist, ev), JsonConfig.ConfigObject))];
      assert r1.effects[..|r1.effects| - 1] == shown;
    } else {
      PushPipeline(stat, persist, pw1, environ, ev, o);
    }
  }

  /** A repository without a configuration file gets no email, and the push
      is reported as failed. */
  lemma MissingConfigFailsPush(stat: Mirror.Stat, persist: string, smtpPassword: string, environ: seq<string>,
                               ev: PushEvent, o: Oracle)
    requires ev.generic.Some?
    requires o.show.GitFailed?
    ensures var r := Push(stat, persist, smtpPassword, environ, ev, o);
      !Notified(r.effects) && r.err.Some?
  {
  }

  /** The scenario of a repository configured for HTML email: the notifier
      runs with the format override and the push succeeds. */
  lemma HtmlConfigReachesNotifier(persist: string, smtpPassword: string, environ: seq<string>,
                                  ev: PushEvent, o: Oracle, mailingList: string)
    requires ev.generic.Some?
    requires o.fetch.GitOk? && o.show.GitOk? && o.notifier.ExitedZero?
    requires o.decode(o.show.out) == JsonConfig.Decoded(JsonConfig.CommitEmailConfig(mailingList, "html"))
    ensures var r := Push(Mirror.Directory, persist, smtpPassword, environ, ev, o);
      r.err.None? && Notified(r.effects) &&
      "multimailhook.commitEmailFormat=html" in r.effects[|r.effects| - 1].inv.args
  {
    var config := JsonConfig.CommitEmailConfig(mailingList, "html");
    var args := Notifier.Args(smtpPassword, config);
    assert Notifier.FormatOverride(config) == "multimailhook.commitEmailFormat=html";
    var k := if smtpPassword == "" then 1 else 0;
    assert args[k + 3] == "multimailhook.commitEmailFormat=html";
    PushPipeline(Mirror.Directory, persist, smtpPassword, environ, ev, o);
  }

  /** The argument list and environment, appended to step by step as
      githubPushHandler does, are Notifier.Args and Notifier.Env. */
  lemma NotifierSteps(smtpPassword: string, config: JsonConfig.CommitEmailConfig, environ: seq<string>, gitDir: string)
    ensures (if smtpPassword == "" then ["--stdout"] else []) + ["-c", "multimailhook.mailingList=" + config.mailingList]
      + (if config.emailFormat != "" then ["-c", "multimailhook.commitEmailFormat=" + config.emailFormat] else [])
      == Notifier.Args(smtpPassword, config)
    ensures environ + ["GIT_DIR=" + gitDir] + ["GIT_CONFIG_GLOBAL=" + Notifier.GlobalConfig]
      + ["GIT_CONFIG_PARAMETERS=" + Notifier.ConfigParametersAsWritten(smtpPassword)]
      == Notifier.Env(environ, gitDir, smtpPassword)
  {
  }

  /** One request as the server handles it: the answer, the subprocesses
      started for it, and the file system afterwards. */
  datatype Served = Served(outcome: Router.Outcome, effects: seq<Effect>, fs: map<string, Node>)

  /** githubEventHandler run against a file system and the outcomes of the
      subprocesses: the routing decides which work is done, the work's error
      decides the answer. */
  function Serve(fs: map<string, Node>, persist: string, smtpPassword: string, environ: seq<string>,
                 req: Router.Request, o: Oracle): (r: Served)
    ensures !Router.Accepted(req) ==> r.effects == [] && r.fs == fs
    ensures Notified(r.effects) ==> req.eventType == "push"
  {
    var planned := Router.Route(req, persist, None, None);
    if planned.actions == [] then
      Served(planned.outcome, [], fs)
    else match planned.actions[0]
      case SyncMirror(gitDir, url) =>
        var sync := Mirror.Sync(StatOf(fs, gitDir), gitDir, url, o.clone, o.fetch);
        assert !Notified(GitEffects(sync.commands));
        Served(Router.Route(req, persist, sync.err, None).outcome, GitEffects(sync.commands),
               if sync.created then fs[gitDir := Dir] else fs)
      case RunPushHandler(ev) =>
        var run := Push(StatOf(fs, GitDir(persist, ev)), persist, smtpPassword, environ, ev, o);
        Served(Router.Route(req, persist, None, run.err).outcome, run.effects,
               if run.created then fs[GitDir(persist, ev) := Dir] else fs)
  }

  /** The mirror a ping prepares is the one a push of the same repository
      works on. */
  lemma PingAndPushShareMirror(persist: string, ping: Router.Request, push: Router.Request)
    requires Router.Accepted(ping) && ping.eventType == "ping"
    requires Router.Accepted(push) && push.eventType == "push" && push.asPush.event.generic.Some?
    requires push.asPush.event.generic.value.repository == ping.asGeneric.event.repository
    ensures Router.Route(ping, persist, None, None).actions[0].gitDir == GitDir(persist, push.asPush.event)
  {
  }

  /** "OK" is answered only after the notifier ran and exited zero: every
      acknowledged push sent its email. */
  lemma OKMeansNotified(fs: map<string, Node>, persist: string, smtpPassword: string, environ: seq<string>,
                        req: Router.Request, o: Oracle)
    ensures var r := Serve(fs, persist, smtpPassword, environ, req, o);
      r.outcome == Router.Replied(Router.StatusOK, "OK") ==> Notified(r.effects) && o.notifier.ExitedZero?
  {
    var planned := Router.Route(req, persist, None, None);
    if planned.actions != [] && planned.actions[0].RunPushHandler? {
      var ev := planned.actions[0].event;
      PushPipeline(StatOf(fs, GitDir(persist, ev)), persist, smtpPassword, environ, ev, o);
    }
  }

  /** "Pong" is answered only after the mirror sync reached a fetch that
      succeeded: the mirror of the pinged repository is a directory
      afterwards, and the fetch was the last subprocess. */
  lemma PongMeansMirrored(fs: map<string, Node>, persist: string, smtpPassword: string, environ: seq<string>,
                          req: Router.Request, o: Oracle)
    ensures var r := Serve(fs, persist, smtpPassword, environ, req, o);
      r.outcome == Router.Replied(Router.StatusOK, "Pong") ==>
        && req.eventType == "ping" && req.asGeneric.Parsed?
        && var gitDir := Paths.MirrorPath(persist, req.asGeneric.event.repository.fullName);
           gitDir in r.fs && r.fs[gitDir] == Dir
           && |r.effects| > 0 && r.effects[|r.effects| - 1] == Git(Fetch(gitDir))
  {
  }

  /** Scenario: the first ping of a repository whose mirror is absent clones
      it, fetches it and answers "Pong", and the mirror directory is the
      only change to the file system. */
  lemma FirstPingCreatesMirror(fs: map<string, Node>, persist: string, smtpPassword: string, environ: seq<string>,
                               req: Router.Request, o: Oracle)
    requires Router.Accepted(req) && req.eventType == "ping"
    requires Paths.MirrorPath(persist, req.asGeneric.event.repository.fullName) !in fs
    requires o.clone.GitOk? && o.fetch.GitOk?
    ensures var r := Serve(fs, persist, smtpPassword, environ, req, o);
      var repo := req.asGeneric.event.repository;
      var gitDir := Paths.MirrorPath(persist, repo.fullName);
      && r.outcome == Router.Replied(Router.StatusOK, "Pong")
      && r.fs == fs[gitDir := Dir]
      && r.effects == [Git(Clone(repo.cloneUrl, gitDir)), Git(Fetch(gitDir))]
  {
  }

  /** The server: the persistence root, the SMTP password and the process
      environment, all fixed at start-up; the file system as os.Stat sees it;
      and every subprocess started so far, in order. */
  class Server {
    const persist: string
    const smtpPassword: string
    const environ: seq<string>
    var fs: map<string, Node>
    var trace: seq<Effect>

    constructor (persist: string, smtpPassword: string, environ: seq<string>, fs: map<string, Node>)
      ensures this.persist == persist && this.smtpPassword == smtpPassword && this.environ == environ
      ensures this.fs == fs && trace == []
    {
      this.persist := persist;
      this.smtpPassword := smtpPassword;
      this.environ := environ;
      this.fs := fs;
      this.trace := [];
    }

    /** gitClone: `git clone --bare`; a clone that succeeded leaves a
        directory at `dest`. */
    method GitClone(url: string, dest: string, outcome: GitOutcome) returns (err: Option<string>)
      modifies this
      ensures trace == old(trace) + [Git(Clone(url, dest))]
      ensures fs == if outcome.GitOk? then old(fs)[dest := Dir] else old(fs)
      ensures err == ErrorOf(outcome)
    {
      trace := trace + [Git(Clone(url, dest))];
      if outcome.GitOk? {
        fs := fs[dest := Dir];
      }
      err := ErrorOf(outcome);
    }

    /** gitFetch: `git fetch --force origin *:*` in the mirror. */
    method GitFetch(gitDir: string, outcome: GitOutcome) returns (err: Option<string>)
      modifies this
      ensures trace == old(trace) + [Git(Fetch(gitDir))] && fs == old(fs)
      ensures err == ErrorOf(outcome)
    {
      trace := trace + [Git(Fetch(gitDir))];
      err := ErrorOf(outcome);
    }

    /** syncRepo. */
    method SyncRepo(gitDir: string, url: string, clone: GitOutcome, fetch: GitOutcome) returns (err: Option<string>)
      modifies this
      ensures var run := Mirror.Sync(StatOf(old(fs), gitDir), gitDir, url, clone, fetch);
        trace == old(trace) + GitEffects(run.commands) && err == run.err &&
        fs == (if run.created then old(fs)[gitDir := Dir] else old(fs))
    {
      var stat := StatOf(fs, gitDir);
      if stat.Missing? {
        err := GitClone(url, gitDir, clone);
        if err.Some? {
          return;
        }
      } else if stat.StatFailed? {
        return Some(stat.err);
      } else if stat.NotDirectory? {
        return Some(gitDir + " exists and is not a directory");
      }
      err := GitFetch(gitDir, fetch);
    }

    /** githubPushHandler. */
    method PushHandler(ev: PushEvent, o: Oracle) returns (err: Option<string>)
      requires ev.generic.Some?
      modifies this
      ensures var run := Push(StatOf(old(fs), GitDir(persist, ev)), persist, smtpPassword, environ, ev, o);
        trace == old(trace) + run.effects && err == run.err &&
        fs == (if run.created then old(fs)[GitDir(persist, ev) := Dir] else old(fs))
    {
      var repo := ev.generic.value.repository;
      var gitDir := Paths.MirrorPath(persist, repo.fullName);
      ghost var stat := StatOf(fs, gitDir);
      ghost var sync := Mirror.Sync(stat, gitDir, repo.cloneUrl, o.clone, o.fetch);
      ghost var run := Push(stat, persist, smtpPassword, environ, ev, o);
      ghost var fs0, trace0 := fs, trace;

      err := SyncRepo(gitDir, repo.cloneUrl, o.clone, o.fetch);
      assert trace == trace0 + GitEffects(sync.commands);
      if err.Some? {
        assert run == PushRun(GitEffects(sync.commands), sync.err, sync.created);
        return;
      }

      trace := trace + [Git(Show(gitDir, JsonConfig.ConfigObject))];
      var config := JsonConfig.GetConfig(o.show, o.decode);
      if config.err.Some? {
        assert run.effects == GitEffects(sync.commands) + [Git(Show(gitDir, JsonConfig.ConfigObject))];
        return Some("no commit-emails.json found for " + repo.fullName + ": " + config.err.value);
      }
      err := RunNotifier(gitDir, ev, config.config, o.notifier);
      assert run.effects == GitEffects(sync.commands) + [Git(Show(gitDir, JsonConfig.ConfigObject))]
        + [Notify(PushInvocation(gitDir, smtpPassword, environ, ev, config.config))];
    }

    /** The tail of githubPushHandler: the notifier's arguments, input and
        environment, built up step by step, and its run. */
    method RunNotifier(gitDir: string, ev: PushEvent, config: JsonConfig.CommitEmailConfig, exit: NotifierExit)
      returns (err: Option<string>)
      modifies this
      ensures trace == old(trace) + [Notify(PushInvocation(gitDir, smtpPassword, environ, ev, config))]
      ensures fs == old(fs) && err == NotifierError(exit)
    {
      var args: seq<string> := [];
      if smtpPassword == "" {
        args := args + ["--stdout"];
      }
      args := args + ["-c", "multimailhook.mailingList=" + config.mailingList];
      if config.emailFormat != "" {
        args := args + ["-c", "multimailhook.commitEmailFormat=" + config.emailFormat];
      }
      var stdin := ev.before + " " + ev.after + " " + ev.ref;
      var env := environ;
      env := env + ["GIT_DIR=" + gitDir];
      env := env + ["GIT_CONFIG_GLOBAL=" + Notifier.GlobalConfig];
      env := env + ["GIT_CONFIG_PARAMETERS=" + Notifier.ConfigParametersAsWritten(smtpPassword)];
      var inv := Notifier.Invocation(args, stdin, env);
      assert inv == PushInvocation(gitDir, smtpPassword, environ, ev, config) by {
        NotifierSteps(smtpPassword, config, environ, gitDir);
      }
      trace := trace + [Notify(inv)];
      match exit
      case ExitedZero =>
        err := None;
      case ExitedNonZero(state) =>
        err := Some("git_multimail_wrapper.py failed: " + state + ":\n");
      case RunFailed(msg) =>
        err := Some(msg);
    }

    /** githubEventHandler: the checks in order, then the ping or the push. */
    method EventHandler(req: Router.Request, o: Oracle) returns (outcome: Router.Outcome)
      modifies this
      ensures var r := Serve(old(fs), persist, smtpPassword, environ, req, o);
        outcome == r.outcome && trace == old(trace) + r.effects && fs == r.fs
    {
      if req.verb != "POST" {
        return Router.BadRequest("unexpected method: " + req.verb);
      }
      if req.signature.ScanFailed? {
        return Router.BadRequest("invalid signature: " + req.signature.err);
      }
      if !req.hmacMatches {
        return Router.BadRequest("signature verification failed");
      }
      if req.eventType == "" {
        return Router.BadRequest("no event type specified");
      }
      if !Router.Decodes(req) {
        return Router.BadRequest("failed to parse payload: " + Router.ParseError(req));
      }
      if req.eventType == "push" && req.asPush.event.generic.None? {
        return Router.Panicked;
      }
      if req.eventType == "ping" {
        var repo := req.asGeneric.event.repository;
        var gitDir := Paths.MirrorPath(persist, repo.fullName);
        var err := SyncRepo(gitDir, repo.cloneUrl, o.clone, o.fetch);
        if err.Some? {
          return Router.BadRequest("syncing repo " + Quote(repo.cloneUrl) + " failed: " + err.value);
        }
        return Router.Replied(Router.StatusOK, "Pong");
      }
      if req.eventType == "push" {
        var ev := req.asPush.event;
        var err := PushHandler(ev, o);
        if err.Some? {
          return Router.BadRequest("push handler failed: " + err.value);
        }
        if Utf8Length(ev.before) < 8 || Utf8Length(ev.after) < 8 {
          return Router.Panicked;
        }
        return Router.Replied(Router.StatusOK, "OK");
      }
      return Router.Replied(Router.StatusOK, "");
    }
  }
}
