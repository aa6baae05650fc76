/** Where the bot keeps the bare mirror of a repository: the path that both the
    ping and the push branch of the handler derive with filepath.Join. */
module Paths {

  /** filepath.Join on '/'-separated paths: empty elements are dropped and the
      others joined with '/'. Clean's removal of `.`, `..` and doubled slashes
      inside an element is not modelled. */
  function Join(elems: seq<string>): (p: string)
    ensures p == "" <==> forall i :: 0 <= i < |elems| ==> elems[i] == ""
  {
    if elems == [] then ""
    else
      var init := Join(elems[..|elems| - 1]);
      var last := elems[|elems| - 1];
      assert forall i :: 0 <= i < |elems| - 1 ==> elems[..|elems| - 1][i] == elems[i];
      if last == "" then init
      else if init == "" then last
      else init + "/" + last
  }

  /** Appending one element to a Join. */
  lemma JoinAppend(elems: seq<string>, last: string)
    ensures var init := Join(elems);
      Join(elems + [last]) == if last == "" then init else if init == "" then last else init + "/" + last
  {
    assert (elems + [last])[..|elems|] == elems;
  }

  /** The directory that holds every mirrored github.com repository. The
      contract spells `repos/github.com` as three literals, the elements
      filepath.Join receives, which keeps its proof cheap. */
  function ReposRoot(persist: string): (p: string)
    ensures p == (if persist == "" then "" else persist + "/") + "repos" + "/" + "github.com"
  {
    JoinAppend([], persist);
    JoinAppend([persist], "repos");
    JoinAppend([persist, "repos"], "github.com");
    assert [] + [persist] == [persist] && [persist] + ["repos"] == [persist, "repos"];
    assert [persist, "repos"] + ["github.com"] == [persist, "repos", "github.com"];
    Join([persist, "repos", "github.com"])
  }

  /** `filepath.Join(persist, "repos", "github.com", fullName)`. */
  function MirrorPath(persist: string, fullName: string): (p: string)
    ensures fullName == "" ==> p == ReposRoot(persist)
    ensures fullName != "" ==> p == ReposRoot(persist) + "/" + fullName
  {
    var elems := [persist, "repos", "github.com", fullName];
    assert elems[..3] == [persist, "repos", "github.com"];
    Join(elems)
  }

  /** At `i` starts a path element that is `.` or `..`. */
  predicate DotElementAt(s: string, i: int)
    requires 0 <= i < |s|
  {
    && s[i] == '.' && (i == 0 || s[i - 1] == '/')
    && (i + 1 == |s| || s[i + 1] == '/' || (s[i + 1] == '.' && (i + 2 == |s| || s[i + 2] == '/')))
  }

  /** A path that filepath.Clean leaves as it is: not empty, no trailing or
      doubled '/', and no `.` or `..` element. (Clean also leaves `/` and
      leading `..` elements alone; this predicate does not need them.) */
  predicate Clean(s: string)
  {
    && |s| > 0 && s[|s| - 1] != '/'
    && (forall i :: 0 <= i < |s| - 1 ==> !(s[i] == '/' && s[i + 1] == '/'))
    && (forall i :: 0 <= i < |s| ==> !DotElementAt(s, i))
  }

  /** A clean relative path, such as GitHub's `owner/repo`. */
  predicate CleanName(s: string)
  {
    Clean(s) && s[0] != '/'
  }

  /** A persistence path that Join either drops (empty) or keeps as it is. */
  predicate CleanPersist(s: string)
  {
    s == "" || Clean(s)
  }

  /** A single element without '/' is clean unless it is `.` or `..`. */
  lemma ElementClean(s: string)
    requires s != "" && s != "." && s != ".." && forall i :: 0 <= i < |s| ==> s[i] != '/'
    ensures CleanName(s)
  {
    forall i | 0 <= i < |s|
      ensures !DotElementAt(s, i)
    {
      if i == 0 && s[0] == '.' && |s| <= 2 {
        assert s == [s[0]] || s == [s[0], s[1]];
      }
    }
  }

  /** Joining two clean paths with '/' gives a clean path. */
  lemma CleanConcat(x: string, y: string)
    requires Clean(x) && CleanName(y)
    ensures Clean(x + "/" + y)
  {
    var s := x + "/" + y;
    var n := |x|;
    assert forall k :: 0 <= k < n ==> s[k] == x[k];
    assert s[n] == '/';
    assert forall k :: 0 <= k < |y| ==> s[n + 1 + k] == y[k];
    forall i | 0 <= i < |s| - 1
      ensures !(s[i] == '/' && s[i + 1] == '/')
    {
      if i < n - 1 {
        assert !(x[i] == '/' && x[i + 1] == '/');
      } else if i > n {
        assert !(y[i - n - 1] == '/' && y[i - n] == '/');
      }
    }
    forall i | 0 <= i < |s|
      ensures !DotElementAt(s, i)
    {
      if i < n {
        assert !DotElementAt(x, i);
      } else if i > n {
        assert !DotElementAt(y, i - n - 1);
      }
    }
  }

  /** For a clean persistence path and a clean full name, the joined path is
      already clean, so the Clean step of filepath.Join leaves it as the model
      computes it. */
  lemma MirrorPathClean(persist: string, fullName: string)
    requires CleanPersist(persist) && CleanName(fullName)
    ensures Clean(ReposRoot(persist)) && Clean(MirrorPath(persist, fullName))
  {
    assert "repos"[1] != '.';
    ElementClean("repos");
    assert "github.com"[1] != '.';
    ElementClean("github.com");
    if persist == "" {
      CleanConcat("repos", "github.com");
    } else {
      CleanConcat(persist, "repos");
      CleanConcat(persist + "/" + "repos", "github.com");
    }
    CleanConcat(ReposRoot(persist), fullName);
  }

  /** Two repositories with different clean full names never share a mirror,
      and the full name can be read back from the path below the repository
      root. */
  lemma {:induction false} MirrorPathInjective(persist: string, a: string, b: string)
    requires CleanPersist(persist) && CleanName(a) && CleanName(b)
    requires MirrorPath(persist, a) == MirrorPath(persist, b)
    ensures a == b
  {
    var root := ReposRoot(persist);
    var pa, pb := MirrorPath(persist, a), MirrorPath(persist, b);
    assert a == pa[|root| + 1..];
    assert b == pb[|root| + 1..];
  }

  /** The mirror of a clean full name lies strictly below the repository
      root. */
  lemma MirrorPathUnderRoot(persist: string, fullName: string)
    requires CleanPersist(persist) && CleanName(fullName)
    ensures var root := ReposRoot(persist); var p := MirrorPath(persist, fullName);
      |root| < |p| && p[..|root|] == root && p[|root|] == '/'
  {
  }
}
