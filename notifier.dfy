/** How the push handler invokes `./git_multimail_wrapper.py`: the argument
    list, the line on its standard input and its environment. Of what the
    handler adds, only the last environment entry carries the SMTP password. */
module Notifier {
  import opened Base
  import JsonConfig
  import GitQuote

  /** The fixed git configuration file holding the notifier's constants. */
  const GlobalConfig := "git-multimail.config"

  /** The configuration key the password is given under. */
  const PasswordKey := "multimailhook.smtpPass="

  /** One run of the notifier: arguments after the program name, standard
      input, and the complete environment. */
  datatype Invocation = Invocation(args: seq<string>, stdin: string, env: seq<string>)

  function MailingListOverride(config: JsonConfig.CommitEmailConfig): string
  {
    "multimailhook.mailingList=" + config.mailingList
  }

  function FormatOverride(config: JsonConfig.CommitEmailConfig): string
  {
    "multimailhook.commitEmailFormat=" + config.emailFormat
  }

  /** The argument list: `--stdout` when there is no password, then the
      mailing list override, then the format override when a format is set. */
  function Args(smtpPassword: string, config: JsonConfig.CommitEmailConfig): (args: seq<string>)
    ensures (|args| > 0 && args[0] == "--stdout") <==> smtpPassword == ""
    ensures |args| == (if smtpPassword == "" then 1 else 0) + 2 + (if config.emailFormat != "" then 2 else 0)
    ensures var k := if smtpPassword == "" then 1 else 0;
      args[k] == "-c" && args[k + 1] == MailingListOverride(config) &&
      (config.emailFormat != "" ==> args[k + 2] == "-c" && args[k + 3] == FormatOverride(config))
    ensures forall a <- args ::
      a == "--stdout" || a == "-c" || a == MailingListOverride(config) || a == FormatOverride(config)
  {
    (if smtpPassword == "" then ["--stdout"] else [])
    + ["-c", MailingListOverride(config)]
    + (if config.emailFormat != "" then ["-c", FormatOverride(config)] else [])
  }

  /** The argument list, visible to every user of the machine, depends on the
      password only through whether there is one. */
  lemma ArgsIgnorePassword(pw1: string, pw2: string, config: JsonConfig.CommitEmailConfig)
    requires (pw1 == "") == (pw2 == "")
    ensures Args(pw1, config) == Args(pw2, config)
  {
  }

  /** The line the notifier reads, as a git post-receive hook would. */
  function Stdin(before: string, after: string, ref: string): (s: string)
    ensures |s| == |before| + |after| + |ref| + 2
    ensures s[..|before|] == before && s[|before|] == ' '
    ensures s[|before| + 1..|before| + 1 + |after|] == after && s[|before| + 1 + |after|] == ' '
    ensures s[|before| + |after| + 2..] == ref
  {
    before + " " + after + " " + ref
  }

  /** strings.Split(s, " "). */
  function Split(s: string): (r: seq<string>)
    ensures |r| >= 1
    decreases |s|
  {
    if s == [] then [""]
    else if s[0] == ' ' then [""] + Split(s[1..])
    else
      var rest := Split(s[1..]);
      [[s[0]] + rest[0]] + rest[1..]
  }

  lemma {:induction false} SplitWord(x: string)
    requires ' ' !in x
    ensures Split(x) == [x]
  {
    if x != [] {
      SplitWord(x[1..]);
      assert x == [x[0]] + x[1..];
    }
  }

  lemma {:induction false} SplitAfterWord(x: string, y: string)
    requires ' ' !in x
    ensures Split(x + " " + y) == [x] + Split(y)
  {
    if x == [] {
      assert x + " " + y == " " + y;
      assert (" " + y)[1..] == y;
    } else {
      SplitAfterWord(x[1..], y);
      assert (x + " " + y)[1..] == x[1..] + " " + y;
      assert x == [x[0]] + x[1..];
    }
  }

  /** The three fields can be read back from the line: commit ids and ref
      names never hold a space. */
  lemma StdinSplits(before: string, after: string, ref: string)
    requires ' ' !in before && ' ' !in after && ' ' !in ref
    ensures Split(Stdin(before, after, ref)) == [before, after, ref]
  {
    assert Stdin(before, after, ref) == before + " " + (after + " " + ref);
    SplitAfterWord(before, after + " " + ref);
    SplitAfterWord(after, ref);
    SplitWord(ref);
  }

  /** Whether an environment entry sets `key` (a name without '='). */
  predicate Sets(entry: string, key: string)
  {
    |entry| > |key| && entry[..|key|] == key && entry[|key|] == '='
  }

  /** Entry `i` sets `key` and no later entry does. */
  predicate LastSetting(env: seq<string>, key: string, i: int)
    requires 0 <= i < |env|
  {
    Sets(env[i], key) && forall j :: i < j < |env| ==> !Sets(env[j], key)
  }

  /** The value a program reads for `key`: os/exec keeps only the last entry
      of a duplicated key. */
  function Getenv(env: seq<string>, key: string): Option<string>
    decreases |env|
  {
    if env == [] then None
    else if Sets(env[|env| - 1], key) then Some(env[|env| - 1][|key| + 1..])
    else Getenv(env[..|env| - 1], key)
  }

  /** A key is found exactly when some entry sets it, and its value is the
      one the last such entry gives. */
  lemma {:induction false} GetenvLastWins(env: seq<string>, key: string)
    ensures Getenv(env, key).Some? <==> exists i :: 0 <= i < |env| && Sets(env[i], key)
    ensures Getenv(env, key).Some? ==>
      exists i :: 0 <= i < |env| && env[i] == key + "=" + Getenv(env, key).value && LastSetting(env, key, i)
    decreases |env|
  {
    if env != [] {
      var n := |env|;
      var entry := env[n - 1];
      if Sets(entry, key) {
        assert entry == key + "=" + entry[|key| + 1..];
        assert LastSetting(env, key, n - 1);
      } else {
        var init := env[..n - 1];
        GetenvLastWins(init, key);
        assert forall j :: 0 <= j < n - 1 ==> init[j] == env[j];
        if exists i :: 0 <= i < n && Sets(env[i], key) {
          var i :| 0 <= i < n && Sets(env[i], key);
          assert Sets(init[i], key);
        }
        if Getenv(init, key).Some? {
          var i :| 0 <= i < n - 1 && init[i] == key + "=" + Getenv(init, key).value && LastSetting(init, key, i);
          assert LastSetting(env, key, i);
        }
      }
    }
  }

  /** The value of GIT_CONFIG_PARAMETERS exactly as the handler writes it:
      the password between single quotes, not escaped. */
  function ConfigParametersAsWritten(smtpPassword: string): (v: string)
  {
    "'" + PasswordKey + smtpPassword + "'"
  }

  /** The value of GIT_CONFIG_PARAMETERS, quoted the way git expects. */
  function ConfigParameters(smtpPassword: string): (v: string)
  {
    GitQuote.SqQuote(PasswordKey + smtpPassword)
  }

  /** Written as the handler does, git reads the password back only when it
      holds no single quote; with one (`a'b`, say) git refuses the variable. */
  lemma AsWrittenReadsBackIff(smtpPassword: string)
    ensures GitQuote.SqDequote(ConfigParametersAsWritten(smtpPassword)) == Some(PasswordKey + smtpPassword)
      <==> '\'' !in smtpPassword
  {
    var x := PasswordKey + smtpPassword;
    assert ConfigParametersAsWritten(smtpPassword) == "'" + x + "'";
    assert '\'' !in PasswordKey;
    assert ('\'' in x) == ('\'' in smtpPassword) by {
      if '\'' in smtpPassword {
        var i :| 0 <= i < |smtpPassword| && smtpPassword[i] == '\'';
        assert x[|PasswordKey| + i] == '\'';
      }
    }
    GitQuote.PlainQuotingReadsBackIff(x);
  }

  lemma QuoteInPasswordIsRefused()
    ensures GitQuote.SqDequote(ConfigParametersAsWritten("a'b")) != Some(PasswordKey + "a'b")
  {
    AsWrittenReadsBackIff("a'b");
    assert "a'b"[1] == '\'';
  }

  /** Quoted as git expects, every password is read back exactly. */
  lemma ConfigParametersRoundTrip(smtpPassword: string)
    ensures GitQuote.SqDequote(ConfigParameters(smtpPassword)) == Some(PasswordKey + smtpPassword)
  {
    GitQuote.SqQuoteRoundTrip(PasswordKey + smtpPassword);
  }

  /** For every password without `'` or `!` the two values are the same. */
  lemma ConfigParametersAgree(smtpPassword: string)
    requires '\'' !in smtpPassword && '!' !in smtpPassword
    ensures ConfigParameters(smtpPassword) == ConfigParametersAsWritten(smtpPassword)
  {
    var x := PasswordKey + smtpPassword;
    assert '\'' !in PasswordKey && '!' !in PasswordKey;
    assert '\'' !in x && '!' !in x by {
      forall i | 0 <= i < |x| ensures x[i] != '\'' && x[i] != '!' {
        if i >= |PasswordKey| {
          assert x[i] == smtpPassword[i - |PasswordKey|];
        }
      }
    }
    GitQuote.SqQuotePlain(x);
  }

  /** The notifier's environment: the server's own environment followed by
      the mirror, the fixed configuration and the password parameter,
      written as the handler writes it. */
  function Env(environ: seq<string>, gitDir: string, smtpPassword: string): (env: seq<string>)
    ensures |env| == |environ| + 3 && env[..|environ|] == environ
  {
    environ + ["GIT_DIR=" + gitDir, "GIT_CONFIG_GLOBAL=" + GlobalConfig,
               "GIT_CONFIG_PARAMETERS=" + ConfigParametersAsWritten(smtpPassword)]
  }

  /** An entry appended for `key` is the value read for it. */
  lemma GetenvAppendSets(env: seq<string>, key: string, value: string)
    ensures Getenv(env + [key + "=" + value], key) == Some(value)
  {
    var entry := key + "=" + value;
    assert (env + [entry])[|env|] == entry;
    assert entry[..|key|] == key && entry[|key| + 1..] == value;
  }

  /** An entry appended for another key changes nothing for `key`. */
  lemma GetenvAppendOther(env: seq<string>, key: string, entry: string)
    requires !Sets(entry, key)
    ensures Getenv(env + [entry], key) == Getenv(env, key)
  {
    assert (env + [entry])[..|env|] == env;
  }

  /** An entry that differs from `key` within its length does not set it. */
  lemma NotSetsAt(entry: string, key: string, i: nat)
    requires i < |key| && i < |entry| && entry[i] != key[i]
    ensures !Sets(entry, key)
  {
    if |entry| > |key| {
      assert entry[..|key|][i] == entry[i];
    }
  }

  /** The three keys the handler appends are told apart by their fifth or
      twelfth letter. */
  lemma AppendedKeysDiffer(params: string)
    ensures !Sets("GIT_CONFIG_GLOBAL=" + GlobalConfig, "GIT_DIR")
    ensures !Sets("GIT_CONFIG_PARAMETERS=" + params, "GIT_DIR")
    ensures !Sets("GIT_CONFIG_PARAMETERS=" + params, "GIT_CONFIG_GLOBAL")
  {
    var global := "GIT_CONFIG_GLOBAL=" + GlobalConfig;
    var entry := "GIT_CONFIG_PARAMETERS=" + params;
    assert global[4] == 'C' && "GIT_DIR"[4] == 'D';
    NotSetsAt(global, "GIT_DIR", 4);
    assert entry[4] == 'C';
    NotSetsAt(entry, "GIT_DIR", 4);
    assert entry[11] == 'P' && "GIT_CONFIG_GLOBAL"[11] == 'G';
    NotSetsAt(entry, "GIT_CONFIG_GLOBAL", 11);
  }

  /** Later entries win, so whatever the inherited environment holds, the
      notifier sees the mirror, the fixed configuration and the password
      parameter the handler appended. */
  lemma EnvOverrides(environ: seq<string>, gitDir: string, smtpPassword: string)
    ensures var env := Env(environ, gitDir, smtpPassword);
      && Getenv(env, "GIT_DIR") == Some(gitDir)
      && Getenv(env, "GIT_CONFIG_GLOBAL") == Some(GlobalConfig)
      && Getenv(env, "GIT_CONFIG_PARAMETERS") == Some(ConfigParametersAsWritten(smtpPassword))
  {
    var dir := "GIT_DIR=" + gitDir;
    var global := "GIT_CONFIG_GLOBAL=" + GlobalConfig;
    var params := "GIT_CONFIG_PARAMETERS=" + ConfigParametersAsWritten(smtpPassword);
    assert Env(environ, gitDir, smtpPassword) == environ + [dir] + [global] + [params];
    AppendedKeysDiffer(ConfigParametersAsWritten(smtpPassword));
    GetenvAppendSets(environ, "GIT_DIR", gitDir);
    GetenvAppendOther(environ + [dir], "GIT_DIR", global);
    GetenvAppendOther(environ + [dir] + [global], "GIT_DIR", params);
    GetenvAppendSets(environ + [dir], "GIT_CONFIG_GLOBAL", GlobalConfig);
    GetenvAppendOther(environ + [dir] + [global], "GIT_CONFIG_GLOBAL", params);
    GetenvAppendSets(environ + [dir] + [global], "GIT_CONFIG_PARAMETERS", ConfigParametersAsWritten(smtpPassword));
  }

  /** What the notifier's git reads as the password parameter: the handler's
      value is read back as `multimailhook.smtpPass=<password>` exactly when
      the password holds no single quote. */
  lemma EnvPasswordReadsBackIff(environ: seq<string>, gitDir: string, smtpPassword: string)
    ensures var params := Getenv(Env(environ, gitDir, smtpPassword), "GIT_CONFIG_PARAMETERS");
      params.Some? &&
      (GitQuote.SqDequote(params.value) == Some(PasswordKey + smtpPassword) <==> '\'' !in smtpPassword)
  {
    EnvOverrides(environ, gitDir, smtpPassword);
    AsWrittenReadsBackIff(smtpPassword);
  }

  /** Of the three entries the handler appends, only the last depends on the
      password. The inherited entries do not depend on it here because the
      inherited environment is an input. */
  lemma EnvPasswordOnlyInLastEntry(environ: seq<string>, gitDir: string, pw1: string, pw2: string)
    ensures Env(environ, gitDir, pw1)[..|environ| + 2] == Env(environ, gitDir, pw2)[..|environ| + 2]
  {
  }
}
