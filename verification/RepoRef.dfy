/** Reading (owner, repo) out of a project's `repo` field: the regular expression of
    command_center/github.py under leftmost search, with an optional host prefix
    that is tried first, a greedy owner and a lazy repo. */
module RepoRef {
  import opened Prelude
  import opened Text

  predicate Allowed(c: char) {
    'A' <= c <= 'Z' || 'a' <= c <= 'z' || '0' <= c <= '9' || c == '_' || c == '.' || c == '-'
  }

  const HOST := "github.com"

  /** One way to match the expression: it starts at `start`, the owner is
      s[owner..sep], the repo s[sep + 1..end]. */
  datatype Match = Match(start: nat, owner: nat, sep: nat, end: nat)

  predicate HostAt(s: string, i: nat) {
    i + 11 <= |s| && s[i..i + 10] == HOST && (s[i + 10] == ':' || s[i + 10] == '/')
  }

  // (?:\.git)?/?$
  predicate IsTail(t: string) {
    t == "" || t == "/" || t == ".git" || t == ".git/"
  }

  predicate TailAt(s: string, k: nat) {
    k <= |s| && IsTail(s[k..])
  }

  predicate OwnerFits(s: string, owner: nat, sep: nat) {
    owner < sep < |s| && s[sep] == '/' && forall k | owner <= k < sep :: Allowed(s[k])
  }

  predicate RepoFits(s: string, sep: nat, end: nat) {
    sep + 1 < end <= |s| && (forall k | sep < k < end :: Allowed(s[k])) && TailAt(s, end)
  }

  ghost predicate Matches(s: string, m: Match) {
    && (m.owner == m.start || (m.owner == m.start + 11 && HostAt(s, m.start)))
    && OwnerFits(s, m.owner, m.sep)
    && RepoFits(s, m.sep, m.end)
  }

  // The order in which a backtracking search meets the matches.
  predicate Sooner(a: Match, b: Match) {
    || a.start < b.start
    || (a.start == b.start && a.owner > b.owner)
    || (a.start == b.start && a.owner == b.owner && a.sep > b.sep)
    || (a.start == b.start && a.owner == b.owner && a.sep == b.sep && a.end < b.end)
  }

  // ----- the search

  // The lazy half: the shortest repo after `sep` that lets the rest match.
  function LazyRepo(s: string, sep: nat, k: nat): (r: Option<nat>)
    requires sep < k <= |s|
    requires forall i | sep < i < k :: Allowed(s[i])
    requires forall e: nat | e < k :: !RepoFits(s, sep, e)
    ensures r.Some? ==> RepoFits(s, sep, r.value) && forall e: nat | e < r.value :: !RepoFits(s, sep, e)
    ensures r.None? ==> forall e :: !RepoFits(s, sep, e)
    decreases |s| - k
  {
    if sep + 1 < k && TailAt(s, k) then Some(k)
    else if k < |s| && Allowed(s[k]) then LazyRepo(s, sep, k + 1)
    else None
  }

  // The greedy half: all it can take ...
  function OwnerRun(s: string, i: nat, j: nat): (r: nat)
    requires i <= j <= |s| && forall k | i <= k < j :: Allowed(s[k])
    ensures j <= r <= |s| && forall k | i <= k < r :: Allowed(s[k])
    ensures r < |s| ==> !Allowed(s[r])
    decreases |s| - j
  {
    if j < |s| && Allowed(s[j]) then OwnerRun(s, i, j + 1) else j
  }

  // ... then one less at each retry.
  function GreedyOwner(s: string, owner: nat, sep: nat): (r: Option<(nat, nat)>)
    requires sep <= |s|
    requires forall p, e | sep < p && OwnerFits(s, owner, p) :: !RepoFits(s, p, e)
    ensures r.Some? ==>
              && OwnerFits(s, owner, r.value.0) && RepoFits(s, r.value.0, r.value.1)
              && (forall p, e | r.value.0 < p && OwnerFits(s, owner, p) :: !RepoFits(s, p, e))
              && (forall e: nat | e < r.value.1 :: !RepoFits(s, r.value.0, e))
    ensures r.None? ==> forall p, e | OwnerFits(s, owner, p) :: !RepoFits(s, p, e)
    decreases sep
  {
    if sep <= owner then None
    else if OwnerFits(s, owner, sep) then
      match LazyRepo(s, sep, sep + 1)
      case Some(e) => Some((sep, e))
      case None => GreedyOwner(s, owner, sep - 1)
    else GreedyOwner(s, owner, sep - 1)
  }

  function OwnerFrom(s: string, owner: nat): (r: Option<(nat, nat)>)
    requires owner <= |s|
    ensures r.Some? ==>
              && OwnerFits(s, owner, r.value.0) && RepoFits(s, r.value.0, r.value.1)
              && (forall p, e | r.value.0 < p && OwnerFits(s, owner, p) :: !RepoFits(s, p, e))
              && (forall e: nat | e < r.value.1 :: !RepoFits(s, r.value.0, e))
    ensures r.None? ==> forall p, e | OwnerFits(s, owner, p) :: !RepoFits(s, p, e)
  {
    GreedyOwner(s, owner, OwnerRun(s, owner, owner))
  }

  // The host prefix is optional and tried first.
  function MatchAt(s: string, i: nat): (r: Option<Match>)
    requires i <= |s|
    ensures r.Some? ==> Matches(s, r.value) && r.value.start == i
    ensures r.Some? ==> forall m | Matches(s, m) && m.start == i :: !Sooner(m, r.value)
    ensures r.None? ==> forall m | Matches(s, m) :: m.start != i
  {
    var hosted := if HostAt(s, i) then OwnerFrom(s, i + 11) else None;
    if hosted.Some? then Some(Match(i, i + 11, hosted.value.0, hosted.value.1))
    else
      match OwnerFrom(s, i)
      case Some((sep, end)) => Some(Match(i, i, sep, end))
      case None => None
  }

  function Search(s: string, i: nat): (r: Option<Match>)
    requires i <= |s|
    requires forall m | Matches(s, m) :: i <= m.start
    ensures r.Some? ==> Matches(s, r.value) && forall m | Matches(s, m) :: !Sooner(m, r.value)
    ensures r.None? ==> forall m :: !Matches(s, m)
    decreases |s| - i
  {
    match MatchAt(s, i)
    case Some(m) => Some(m)
    case None => if i < |s| then Search(s, i + 1) else None
  }

  function ParseOwnerRepo(repoRef: string): Result<(string, string)> {
    var s := Strip(repoRef);
    match Search(s, 0)
    case Some(m) => Ok((s[m.owner..m.sep], s[m.sep + 1..m.end]))
    case None => Err(Validation("cannot derive a GitHub repo"))
  }

  // ----- printed references

  datatype Form = Bare | Https | Scp

  function Lead(f: Form): string {
    match f
    case Bare => ""
    case Https => "https://github.com/"
    case Scp => "git@github.com:"
  }

  function Printed(f: Form, owner: string, repo: string, git: bool, slash: bool): string {
    Lead(f) + owner + "/" + repo + TailOf(git, slash)
  }

  function TailOf(git: bool, slash: bool): string {
    (if git then ".git" else "") + (if slash then "/" else "")
  }

  predicate Name(s: string) {
    s != [] && forall i | 0 <= i < |s| :: Allowed(s[i])
  }

  predicate EndsInGit(repo: string) {
    |repo| >= 4 && repo[|repo| - 4..] == ".git"
  }

  // Where the parts of a printed reference lie.
  ghost predicate Laid(s: string, o: nat, p: nat, r: nat, owner: string, repo: string, tail: string) {
    && o < p < r <= |s| && r == p + 1 + |repo|
    && s[o..p] == owner && s[p] == '/' && s[p + 1..r] == repo && s[r..] == tail
    && (o > 0 ==> !Allowed(s[o - 1]))
  }

  lemma PrintedIsLaid(f: Form, owner: string, repo: string, git: bool, slash: bool)
    requires Name(owner) && Name(repo)
    ensures var s, o := Printed(f, owner, repo, git, slash), |Lead(f)|;
            && Laid(s, o, o + |owner|, o + |owner| + 1 + |repo|, owner, repo, TailOf(git, slash))
            && (f.Bare? <==> o == 0)
            && (!f.Bare? ==> o >= 11 && HostAt(s, o - 11))
  {
    var lead, tail := Lead(f), TailOf(git, slash);
    LeadIsHost(f);
    hide Lead, TailOf, Allowed, HostAt;
    SplitAt(lead, owner, repo, tail);
    if !f.Bare? { HostExtends(Printed(f, owner, repo, git, slash), lead, |lead| - 11); }
  }

  lemma SplitAt(lead: string, owner: string, repo: string, tail: string)
    ensures var s, p := lead + owner + "/" + repo + tail, |lead| + |owner|;
            && s[..|lead|] == lead && s[|lead|..p] == owner && s[p] == '/'
            && s[p + 1..p + 1 + |repo|] == repo && s[p + 1 + |repo|..] == tail
            && |s| == p + 1 + |repo| + |tail|
            && (forall k | 0 <= k < |lead| :: s[k] == lead[k])
  {
  }

  lemma LeadIsHost(f: Form)
    ensures f.Bare? <==> Lead(f) == ""
    ensures !f.Bare? ==> |Lead(f)| >= 11 && HostAt(Lead(f), |Lead(f)| - 11) && !Allowed(Lead(f)[|Lead(f)| - 1])
  {
    if f.Https? {
      assert Lead(f)[8..18] == HOST;
    } else if f.Scp? {
      assert Lead(f)[4..14] == HOST;
    }
  }

  lemma HostExtends(s: string, lead: string, i: nat)
    requires |lead| <= |s| && s[..|lead|] == lead && HostAt(lead, i)
    ensures HostAt(s, i)
  {
    assert s[i..i + 10] == s[..|lead|][i..i + 10];
    assert s[i + 10] == s[..|lead|][i + 10];
  }

  lemma SlashEndsTail(s: string, k: nat)
    requires TailAt(s, k)
    ensures forall j | k <= j < |s| && s[j] == '/' :: j == |s| - 1
  {
    forall j | k <= j < |s| && s[j] == '/' ensures j == |s| - 1 {
      assert s[k..][j - k] == '/';
    }
  }

  lemma SlashesLaid(s: string, o: nat, p: nat, r: nat, owner: string, repo: string, git: bool, slash: bool)
    requires Laid(s, o, p, r, owner, repo, TailOf(git, slash)) && Name(repo)
    ensures forall j | p < j < |s| && s[j] == '/' :: j == |s| - 1
  {
    assert forall j | p < j < r :: s[j] == repo[j - p - 1];
    forall j | r <= j < |s| && s[j] == '/' ensures j == |s| - 1 {
      assert s[r..][j - r] == '/';
    }
  }

  // Every match puts the separator where it was printed.
  lemma SepIsForced(s: string, o: nat, p: nat, r: nat, owner: string, repo: string,
                    git: bool, slash: bool, m: Match)
    requires Laid(s, o, p, r, owner, repo, TailOf(git, slash)) && Name(owner) && Name(repo)
    requires OwnerFits(s, m.owner, m.sep) && RepoFits(s, m.sep, m.end)
    ensures m.sep == p && o <= m.owner
  {
    SlashEndsTail(s, m.end);
    SlashesLaid(s, o, p, r, owner, repo, git, slash);
    assert m.sep == p;
  }

  // The lazy repo stops early exactly at a trailing ".git" of the name itself.
  lemma EndIsForced(s: string, p: nat, r: nat, repo: string, git: bool, slash: bool, end: nat)
    requires p < r <= |s| && r == p + 1 + |repo| && s[p + 1..r] == repo && s[r..] == TailOf(git, slash)
    requires Name(repo)
    requires p + 1 < end <= r
    ensures TailAt(s, end) <==>
            end == r || (!git && EndsInGit(repo) && end == r - 4)
  {
    var left := repo[end - p - 1..];
    assert s[end..] == left + TailOf(git, slash);
    if end < r {
      TailSplit(left, git, slash);
      if |left| == 4 { assert left == repo[|repo| - 4..]; }
    } else {
      assert left + TailOf(git, slash) == TailOf(git, slash);
    }
  }

  lemma TailSplit(left: string, git: bool, slash: bool)
    requires Name(left)
    ensures IsTail(left + TailOf(git, slash)) <==> !git && left == ".git"
  {
    var t := left + TailOf(git, slash);
    assert t[0] == left[0] != '/';
    assert t[|left|..] == TailOf(git, slash);
    if git {
      assert t[|left|] == TailOf(git, slash)[0] == '.';
    } else if slash {
      assert t[|left|] == '/' && |t| == |left| + 1;
      assert t[..|left|] == left;
      assert left == ".git" ==> t == ".git/";
    } else {
      assert t == left;
      assert Allowed(t[|t| - 1]);
    }
  }

  lemma PrintedIsStripped(f: Form, owner: string, repo: string, git: bool, slash: bool)
    requires Name(owner) && Name(repo)
    ensures Trimmed(Printed(f, owner, repo, git, slash))
  {
    PrintedIsLaid(f, owner, repo, git, slash);
    var s := Printed(f, owner, repo, git, slash);
    assert s[0] == (Lead(f) + owner)[0];
    assert s[|s| - 1] == (repo + TailOf(git, slash))[|repo + TailOf(git, slash)| - 1];
  }

  /** Parsing undoes printing: for all names, in all three written forms, with or
      without `.git` and a trailing slash, and whatever white space surrounds it,
      the owner comes back; and the repo does exactly when the suffix was written
      or the name does not itself end in `.git` after something else. When it does
      not, the repo comes back without that ending. */
  lemma ParseUndoesPrint(f: Form, owner: string, repo: string, git: bool, slash: bool, a: string, b: string)
    requires Name(owner) && Name(repo) && Blank(a) && Blank(b)
    ensures ParseOwnerRepo(a + Printed(f, owner, repo, git, slash) + b) ==
            if git || !EndsInGit(repo) || |repo| == 4 then Ok((owner, repo))
            else Ok((owner, repo[..|repo| - 4]))
  {
    var s := Printed(f, owner, repo, git, slash);
    hide *;
    PrintedIsStripped(f, owner, repo, git, slash);
    StripIs(a, s, b);
    PrintedIsLaid(f, owner, repo, git, slash);
    LeadIsHost(f);
    ParseLaid(a + s + b, s, f, |Lead(f)|, owner, repo, git, slash);
  }

  lemma ParseLaid(repoRef: string, s: string, f: Form, o: nat, owner: string, repo: string, git: bool, slash: bool)
    requires Strip(repoRef) == s && Name(owner) && Name(repo)
    requires Laid(s, o, o + |owner|, o + |owner| + 1 + |repo|, owner, repo, TailOf(git, slash))
    requires f.Bare? <==> o == 0
    requires !f.Bare? ==> o >= 11 && HostAt(s, o - 11)
    ensures ParseOwnerRepo(repoRef) ==
            if git || !EndsInGit(repo) || |repo| == 4 then Ok((owner, repo))
            else Ok((owner, repo[..|repo| - 4]))
  {
    hide *;
    var p := o + |owner|;
    var r := p + 1 + |repo|;
    LaidFacts(s, o, p, r, owner, repo, TailOf(git, slash));
    var end := if git || !EndsInGit(repo) || |repo| == 4 then r else r - 4;
    forall e | p + 1 < e <= end ensures TailAt(s, e) <==> e == end {
      EndIsForced(s, p, r, repo, git, slash, e);
    }
    var m := FoundMatch(s, f, o, p, r, owner, repo, git, slash, end);
    ParseFrom(repoRef, s, m);
    SliceOfSlice(s, p + 1, r, end);
    assert repo[..|repo|] == repo;
  }

  lemma LaidFacts(s: string, o: nat, p: nat, r: nat, owner: string, repo: string, tail: string)
    requires Laid(s, o, p, r, owner, repo, tail) && Name(repo)
    ensures p + 1 < r <= |s| && s[p + 1..r] == repo && s[o..p] == owner && s[r..] == tail
    ensures EndsInGit(repo) ==> |repo| >= 4
  {
  }

  lemma SliceOfSlice(s: string, i: nat, j: nat, k: nat)
    requires i <= k <= j <= |s|
    ensures s[i..k] == s[i..j][..k - i]
  {
  }

  lemma ParseFrom(repoRef: string, s: string, m: Match)
    requires Strip(repoRef) == s && Search(s, 0) == Some(m) && Matches(s, m)
    ensures ParseOwnerRepo(repoRef) == Ok((s[m.owner..m.sep], s[m.sep + 1..m.end]))
  {
    hide Strip, Search;
  }

  lemma HostIsNoOwner(s: string, p: nat)
    requires p <= |s| && HostAt(s, 0) && forall k | 0 <= k < p :: Allowed(s[k])
    ensures p <= 10
  {
  }

  // The printed reference has a match, and it is the one the search meets first.
  lemma FoundMatch(s: string, f: Form, o: nat, p: nat, r: nat, owner: string, repo: string,
                   git: bool, slash: bool, end: nat) returns (m: Match)
    requires Laid(s, o, p, r, owner, repo, TailOf(git, slash)) && Name(owner) && Name(repo)
    requires f.Bare? <==> o == 0
    requires !f.Bare? ==> o >= 11 && HostAt(s, o - 11)
    requires p + 1 < end <= r && TailAt(s, end)
    requires forall e | p + 1 < e < end :: !TailAt(s, e)
    ensures Search(s, 0) == Some(m) && Matches(s, m) && m.owner == o && m.sep == p && m.end == end
  {
    hide TailAt, TailOf, HostAt;
    var expected := Match(if f.Bare? then 0 else o - 11, o, p, end);
    assert forall k | o <= k < p :: s[k] == s[o..p][k - o];
    assert forall k | p < k < r :: s[k] == s[p + 1..r][k - p - 1];
    assert Matches(s, expected);
    if f.Bare? && HostAt(s, 0) { HostIsNoOwner(s, p); }
    m := Search(s, 0).value;
    SepIsForced(s, o, p, r, owner, repo, git, slash, m);
    assert !Sooner(expected, m);
  }

  // ----- the expression, spelled out

  // Letters, digits, hyphen, full stop and underscore, by their ASCII codes.
  ghost predicate InAlphabet(c: char) {
    var n := c as int;
    48 <= n <= 57 || 65 <= n <= 90 || 97 <= n <= 122 || n == 45 || n == 46 || n == 95
  }

  lemma AllowedIff()
    ensures forall c :: Allowed(c) <==> InAlphabet(c)
  {
  }

  // A suffix of `s` reads owner, slash, repo, and then nothing, `.git`, a slash or both.
  ghost predicate Reads(s: string, pre: string, owner: string, repo: string, tail: string) {
    && s == pre + owner + "/" + repo + tail
    && owner != "" && (forall i | 0 <= i < |owner| :: InAlphabet(owner[i]))
    && repo != "" && (forall i | 0 <= i < |repo| :: InAlphabet(repo[i]))
    && (tail == "" || tail == ".git" || tail == "/" || tail == ".git/")
  }

  /** A reference is accepted exactly when some suffix of the stripped text reads as owner
      and repo; what is returned is such a reading, and a refusal is a validation error. */
  lemma AcceptsIff(repoRef: string)
    ensures ParseOwnerRepo(repoRef).Ok? <==>
            exists pre, owner, repo, tail :: Reads(Strip(repoRef), pre, owner, repo, tail)
    ensures match ParseOwnerRepo(repoRef)
            case Ok((owner, repo)) => exists pre, tail :: Reads(Strip(repoRef), pre, owner, repo, tail)
            case Err(e) => e.Validation?
  {
    var s := Strip(repoRef);
    hide Strip;
    match Search(s, 0)
    case Some(m) =>
      hide Search;
      ReadOf(s, m);
      assert ParseOwnerRepo(repoRef) == Ok((s[m.owner..m.sep], s[m.sep + 1..m.end]));
    case None =>
      forall pre, owner, repo, tail ensures !Reads(s, pre, owner, repo, tail) {
        if Reads(s, pre, owner, repo, tail) { MatchOf(s, pre, owner, repo, tail); }
      }
  }

  lemma ReadOf(s: string, m: Match)
    requires Matches(s, m)
    ensures Reads(s, s[..m.owner], s[m.owner..m.sep], s[m.sep + 1..m.end], s[m.end..])
  {
    AllowedIff();
    hide HostAt, Allowed, InAlphabet;
    var owner, repo := s[m.owner..m.sep], s[m.sep + 1..m.end];
    assert forall i | 0 <= i < |owner| :: owner[i] == s[m.owner + i];
    assert forall i | 0 <= i < |repo| :: repo[i] == s[m.sep + 1 + i];
    assert s == s[..m.owner] + owner + "/" + repo + s[m.end..];
  }

  lemma MatchOf(s: string, pre: string, owner: string, repo: string, tail: string)
    requires Reads(s, pre, owner, repo, tail)
    ensures Matches(s, Match(|pre|, |pre|, |pre| + |owner|, |pre| + |owner| + 1 + |repo|))
  {
    AllowedIff();
    hide Allowed, InAlphabet;
    var p := |pre| + |owner|;
    assert s[p] == '/' && s[p + 1 + |repo|..] == tail;
    assert forall k | |pre| <= k < p :: s[k] == owner[k - |pre|];
    assert forall k | p < k < p + 1 + |repo| :: s[k] == repo[k - p - 1];
  }
}
