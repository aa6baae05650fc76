/** syncRepo: keeps the bare mirror of one repository up to date. What is
    modelled is the decision, made from what os.Stat says about the mirror
    path, of which git commands to run and which error to return; the
    outcomes of the git commands are inputs. */
module Mirror {
  import opened Base

  /** What os.Stat reports for the mirror path. */
  datatype Stat = Missing | Directory | NotDirectory | StatFailed(err: string)

  /** One sync: the git commands it ran in order, its error, and whether it
      created the mirror directory (a clone that succeeded). */
  datatype SyncRun = SyncRun(commands: seq<GitCommand>, err: Option<string>, created: bool)

  /** A path that does not exist is cloned and, when the clone succeeds,
      fetched; a directory is fetched; a path that is not a directory is an
      error and no git command runs; any other stat error is returned as it
      is. */
  function Sync(stat: Stat, gitDir: string, url: string, clone: GitOutcome, fetch: GitOutcome): (r: SyncRun)
    ensures r.created <==> stat.Missing? && clone.GitOk?
    ensures (Clone(url, gitDir) in r.commands) <==> stat.Missing?
    ensures (Fetch(gitDir) in r.commands) <==> stat.Directory? || r.created
    ensures forall c <- r.commands :: c == Clone(url, gitDir) || c == Fetch(gitDir)
    ensures |r.commands| == 2 ==> r.commands == [Clone(url, gitDir), Fetch(gitDir)]
    ensures |r.commands| <= 2
    ensures r.err.None? <==> (stat.Directory? || r.created) && fetch.GitOk?
    ensures stat.Directory? || r.created ==> r.err == ErrorOf(fetch)
    ensures stat.Missing? && clone.GitFailed? ==> r.err == Some(clone.msg)
    ensures stat.NotDirectory? ==> r.err == Some(gitDir + " exists and is not a directory")
    ensures stat.StatFailed? ==> r.err == Some(stat.err)
  {
    match stat
    case Missing =>
      if clone.GitFailed? then SyncRun([Clone(url, gitDir)], Some(clone.msg), false)
      else SyncRun([Clone(url, gitDir), Fetch(gitDir)], ErrorOf(fetch), true)
    case StatFailed(err) => SyncRun([], Some(err), false)
    case NotDirectory => SyncRun([], Some(gitDir + " exists and is not a directory"), false)
    case Directory => SyncRun([Fetch(gitDir)], ErrorOf(fetch), false)
  }

  /** What os.Stat reports after a sync. */
  function StatAfter(stat: Stat, run: SyncRun): Stat
  {
    if run.created then Directory else stat
  }

  /** A sync that succeeded leaves a directory behind, and syncing again
      clones nothing: it fetches once and succeeds whenever that fetch does.
      Repeated deliveries of one event therefore converge on fetch-only
      syncs. */
  lemma SyncIdempotent(stat: Stat, gitDir: string, url: string, clone: GitOutcome, fetch: GitOutcome,
                       clone2: GitOutcome, fetch2: GitOutcome)
    requires Sync(stat, gitDir, url, clone, fetch).err.None?
    ensures StatAfter(stat, Sync(stat, gitDir, url, clone, fetch)) == Directory
    ensures var again := Sync(StatAfter(stat, Sync(stat, gitDir, url, clone, fetch)), gitDir, url, clone2, fetch2);
      again.commands == [Fetch(gitDir)] && !again.created && again.err == ErrorOf(fetch2)
  {
  }

  /** A clone that succeeded is never repeated, even when the fetch after it
      failed: the retry only fetches. */
  lemma FailedFetchAfterCloneRetriesFetchOnly(gitDir: string, url: string, clone: GitOutcome, fetch: GitOutcome,
                                              clone2: GitOutcome, fetch2: GitOutcome)
    requires clone.GitOk?
    ensures var first := Sync(Missing, gitDir, url, clone, fetch);
      Sync(StatAfter(Missing, first), gitDir, url, clone2, fetch2).commands == [Fetch(gitDir)]
  {
  }
}
