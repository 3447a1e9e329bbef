/** The Linear poller's cursor protocol (src/channel/linear.rs): what each poll dispatches, and
    how often a comment reaches the agent over a run of polls. */
module Poller {
  import opened Options
  import opened Text
  import opened Calendar
  import opened Iso8601

  datatype User = User(id: string, name: string, email: string)

  datatype Comment = Comment(id: string, body: string, createdAt: string, user: Option<User>)

  datatype Issue = Issue(
    id: string,
    identifier: string,
    title: string,
    description: Option<string>,
    labels: seq<string>,
    comments: seq<Comment>)

  datatype TurnKind = Execution | Plan

  /** The plan a comment's dispatch carries: its text, or only its id when the fetch missed it. */
  datatype PlanNote = Included(id: string, body: string) | Referenced(id: string)

  /** What a formatted message is made from. */
  datatype Message =
    | Announcement(issue: Issue, repo: string)
    | Remark(issue: Issue, repo: string, comment: Comment, plan: Option<PlanNote>)

  datatype Dispatch = Dispatch(issueId: string, identifier: string, repo: string, message: Message, kind: TurnKind)

  datatype PollState = PollState(lastPoll: string, announced: set<string>, plans: map<string, string>)

  datatype Policy = Policy(viewer: string, trusted: seq<string>, planLabel: string)

  // The pure parts.

  /** Shaped like `owner/repo`: exactly one slash. */
  predicate NamesRepo(name: string) {
    multiset(name)['/'] == 1
  }

  function RepoLabels(labels: seq<string>): seq<string> {
    if labels == [] then []
    else RepoLabels(labels[..|labels| - 1]) + (if NamesRepo(labels[|labels| - 1]) then [labels[|labels| - 1]] else [])
  }

  /** The one label that names a repository, if there is one only. */
  function RepoLabel(issue: Issue): Option<string> {
    var repos := RepoLabels(issue.labels);
    if |repos| == 1 then Some(repos[0]) else None
  }

  /** `name` is the only label that names a repository, and stands only at `k`. */
  predicate OnlyRepoAt(labels: seq<string>, name: string, k: nat) {
    && k < |labels| && labels[k] == name && NamesRepo(name)
    && forall j | 0 <= j < |labels| && j != k :: !NamesRepo(labels[j])
  }

  lemma {:induction false} RepoLabelsNone(labels: seq<string>)
    ensures RepoLabels(labels) == [] <==> forall j | 0 <= j < |labels| :: !NamesRepo(labels[j])
  {
    hide NamesRepo;
    if labels != [] {
      var rest, last := labels[..|labels| - 1], labels[|labels| - 1];
      RepoLabelsNone(rest);
      assert RepoLabels(labels) == [] <==> RepoLabels(rest) == [] && !NamesRepo(last);
      hide RepoLabels;
      assert forall j | 0 <= j < |rest| :: rest[j] == labels[j];
    }
  }

  lemma {:induction false} RepoLabelsOne(labels: seq<string>, name: string)
    ensures RepoLabels(labels) == [name] <==> exists k: nat :: OnlyRepoAt(labels, name, k)
  {
    hide NamesRepo;
    if labels != [] {
      var rest, last := labels[..|labels| - 1], labels[|labels| - 1];
      RepoLabelsNone(rest);
      RepoLabelsOne(rest, name);
      if NamesRepo(last) {
        assert RepoLabels(labels) == RepoLabels(rest) + [last];
        if RepoLabels(labels) == [name] {
          assert RepoLabels(labels)[|RepoLabels(rest)|] == last;
          assert RepoLabels(rest) == [] && OnlyRepoAt(labels, name, |rest|);
        }
        if k: nat :| OnlyRepoAt(labels, name, k) { assert k == |rest|; }
      } else {
        if k: nat :| OnlyRepoAt(rest, name, k) { assert OnlyRepoAt(labels, name, k); }
        if k: nat :| OnlyRepoAt(labels, name, k) { assert OnlyRepoAt(rest, name, k); }
      }
    }
  }

  /** An issue has a repository exactly when one label alone names one, and then it is that label. */
  lemma RepoLabelIsTheOnlyOne(issue: Issue, name: string)
    ensures RepoLabel(issue) == Some(name) <==> exists k: nat :: OnlyRepoAt(issue.labels, name, k)
  {
    RepoLabelsOne(issue.labels, name);
  }

  predicate HasLabel(issue: Issue, name: string) {
    exists k | 0 <= k < |issue.labels| :: ToLowerAscii(issue.labels[k]) == ToLowerAscii(name)
  }

  predicate Trusted(p: Policy, email: string) {
    exists k | 0 <= k < |p.trusted| :: ToLowerAscii(p.trusted[k]) == ToLowerAscii(email)
  }

  /** A comment that may drive the agent: an author, not the bot, and trusted. */
  predicate Speaks(p: Policy, c: Comment) {
    c.user.Some? && c.user.value.id != p.viewer && Trusted(p, c.user.value.email)
  }

  predicate Drives(p: Policy, s: PollState, c: Comment) {
    !AtMost(c.createdAt, s.lastPoll) && Speaks(p, c)
  }

  function BodyOf(comments: seq<Comment>, id: string): Option<string> {
    if comments == [] then None else if comments[0].id == id then Some(comments[0].body) else BodyOf(comments[1..], id)
  }

  function PlanFor(s: PollState, issue: Issue): Option<PlanNote> {
    if issue.identifier !in s.plans then None
    else
      var id := s.plans[issue.identifier];
      match BodyOf(issue.comments, id)
      case Some(body) => Some(Included(id, body))
      case None => Some(Referenced(id))
  }

  // One poll.

  function Announce(p: Policy, issue: Issue, repo: string): Dispatch {
    Dispatch(issue.id, issue.identifier, repo, Announcement(issue, repo),
             if HasLabel(issue, p.planLabel) then Plan else Execution)
  }

  function Relay(s: PollState, issue: Issue, repo: string, c: Comment): Dispatch {
    Dispatch(issue.id, issue.identifier, repo, Remark(issue, repo, c, PlanFor(s, issue)), Execution)
  }

  /** The dispatches of the first `n` comments. */
  function Relayed(p: Policy, s: PollState, issue: Issue, repo: string, n: nat): seq<Dispatch>
    requires n <= |issue.comments|
  {
    if n == 0 then []
    else Relayed(p, s, issue, repo, n - 1)
         + (if Drives(p, s, issue.comments[n - 1]) then [Relay(s, issue, repo, issue.comments[n - 1])] else [])
  }

  function OfIssue(p: Policy, s: PollState, issue: Issue): seq<Dispatch> {
    match RepoLabel(issue)
    case None => []
    case Some(repo) =>
      if issue.identifier !in s.announced then [Announce(p, issue, repo)]
      else Relayed(p, s, issue, repo, |issue.comments|)
  }

  function Events(p: Policy, s: PollState, issues: seq<Issue>): seq<Dispatch> {
    if issues == [] then []
    else Events(p, s, issues[..|issues| - 1]) + OfIssue(p, s, issues[|issues| - 1])
  }

  function Routed(issues: seq<Issue>): set<string> {
    set k | 0 <= k < |issues| && RepoLabel(issues[k]).Some? :: issues[k].identifier
  }

  lemma RoutedGrows(a: seq<Issue>, b: seq<Issue>)
    ensures Routed([]) == {}
    ensures |b| == 1 ==> Routed(a + b) == Routed(a) + if RepoLabel(b[0]).Some? then {b[0].identifier} else {}
  {
    hide RepoLabel;
    assert forall k | 0 <= k < |a| :: (a + b)[k] == a[k];
    assert forall k | 0 <= k < |b| :: (a + b)[|a| + k] == b[k];
  }

  function Decided(s: PollState, issues: seq<Issue>, now: string): PollState {
    PollState(now, Routed(issues), map x | x in s.plans && x in Routed(issues) :: s.plans[x])
  }

  method DecideEvents(p: Policy, s: PollState, issues: seq<Issue>, now: string)
    returns (dispatches: seq<Dispatch>, next: PollState)
    ensures dispatches == Events(p, s, issues)
    ensures next == Decided(s, issues, now)
  {
    hide RepoLabel, HasLabel, Trusted, AtMost, Announce, Relay, Routed;
    dispatches := [];
    var announced := {};
    RoutedGrows(issues[..0], []);
    for i := 0 to |issues|
      invariant dispatches == Events(p, s, issues[..i])
      invariant announced == Routed(issues[..i])
    {
      var issue := issues[i];
      assert issues[..i + 1] == issues[..i] + [issue] && issues[..i + 1][..i] == issues[..i];
      RoutedGrows(issues[..i], [issue]);
      var repo := RepoLabel(issue);
      if repo.None? { continue; }
      announced := announced + {issue.identifier};
      if issue.identifier !in s.announced {
        dispatches := dispatches + [Announce(p, issue, repo.value)];
        continue;
      }
      ghost var before := dispatches;
      for k := 0 to |issue.comments|
        invariant dispatches == before + Relayed(p, s, issue, repo.value, k)
      {
        var comment := issue.comments[k];
        if AtMost(comment.createdAt, s.lastPoll) { continue; }
        if comment.user.None? { continue; }
        if comment.user.value.id == p.viewer { continue; }
        if !Trusted(p, comment.user.value.email) { continue; }
        dispatches := dispatches + [Relay(s, issue, repo.value, comment)];
      }
    }
    assert issues[..|issues|] == issues;
    next := PollState(now, announced, map x | x in s.plans && x in announced :: s.plans[x]);
  }

  /** One successful fetch: the issues, the clock read after it, and the id each dispatch's posted
      reply got. With `dies` set the process stops after that many dispatches, before the save. */
  datatype Poll = Poll(issues: seq<Issue>, now: string, posted: nat -> Option<string>, dies: Option<nat>)

  /** The plan ids after the first `n` dispatches: a posted reply to a plan announcement is the plan. */
  function Noted(plans: map<string, string>, ds: seq<Dispatch>, posted: nat -> Option<string>, n: nat): map<string, string>
    requires n <= |ds|
  {
    if n == 0 then plans
    else
      var known := Noted(plans, ds, posted, n - 1);
      if ds[n - 1].kind.Plan? && posted(n - 1).Some? then known[ds[n - 1].identifier := posted(n - 1).value] else known
  }

  function Saved(p: Policy, s: PollState, poll: Poll): PollState {
    if poll.dies.Some? then s
    else
      var ds := Events(p, s, poll.issues);
      var next := Decided(s, poll.issues, poll.now);
      next.(plans := Noted(next.plans, ds, poll.posted, |ds|))
  }

  function Sent(p: Policy, s: PollState, poll: Poll): seq<Dispatch> {
    var ds := Events(p, s, poll.issues);
    if poll.dies.Some? && poll.dies.value < |ds| then ds[..poll.dies.value] else ds
  }

  /** What one attempt to post a comment answers. */
  datatype Attempt = Posted(id: string) | Network | Refused

  const POST_RETRIES: nat := 3

  /** Post with retries: the last answer counts, only network failures are retried, after 1, 2
      and 4 seconds, and no more than POST_RETRIES times. */
  method PostComment(answer: nat -> Attempt) returns (r: Attempt, waits: seq<nat>)
    ensures r == answer(|waits|) && |waits| <= POST_RETRIES
    ensures forall k | 0 <= k < |waits| :: answer(k).Network? && waits[k] == [1, 2, 4][k]
    ensures r.Network? ==> |waits| == POST_RETRIES
  {
    var attempts, delay := 0, 1;
    r, waits := answer(0), [];
    while attempts < POST_RETRIES && r.Network?
      invariant attempts <= POST_RETRIES && |waits| == attempts && r == answer(attempts)
      invariant attempts < POST_RETRIES ==> delay == [1, 2, 4][attempts]
      invariant forall k | 0 <= k < attempts :: answer(k).Network? && waits[k] == [1, 2, 4][k]
    {
      waits := waits + [delay];
      attempts, delay := attempts + 1, 2 * delay;
      r := answer(attempts);
    }
  }

  /** The poll loop's state: what it holds, and what a restart would load. */
  class Loop {
    const policy: Policy
    var state: PollState

    constructor (policy: Policy, loaded: PollState)
      ensures this.policy == policy && state == loaded
    {
      this.policy, state := policy, loaded;
    }

    /** One tick that lives to save its cursor. */
    method Tick(issues: seq<Issue>, now: string, posted: nat -> Option<string>) returns (ds: seq<Dispatch>)
      modifies this
      ensures ds == Sent(policy, old(state), Poll(issues, now, posted, None))
      ensures state == Saved(policy, old(state), Poll(issues, now, posted, None))
    {
      var next;
      ds, next := DecideEvents(policy, state, issues, now);
      var plans := next.plans;
      for i := 0 to |ds|
        invariant plans == Noted(next.plans, ds, posted, i)
      {
        if ds[i].kind.Plan? && posted(i).Some? { plans := plans[ds[i].identifier := posted(i).value]; }
      }
      state := next.(plans := plans);
    }
  }

  // How often a comment reaches the agent.

  /** How many times a dispatch shows the agent comment `c` of issue `x`. */
  function Copies(d: Dispatch, x: string, c: Comment): nat {
    if d.identifier != x then 0
    else match d.message
      case Announcement(issue, _) => multiset(issue.comments)[c]
      case Remark(_, _, comment, _) => if comment == c then 1 else 0
  }

  function Delivered(ds: seq<Dispatch>, x: string, c: Comment): nat {
    if ds == [] then 0 else Delivered(ds[..|ds| - 1], x, c) + Copies(ds[|ds| - 1], x, c)
  }

  function Announcements(ds: seq<Dispatch>, x: string): nat {
    if ds == [] then 0
    else Announcements(ds[..|ds| - 1], x)
         + if ds[|ds| - 1].identifier == x && ds[|ds| - 1].message.Announcement? then 1 else 0
  }

  /** Over a run: every poll's dispatches, from the state the polls before it saved. */
  function Total(p: Policy, s: PollState, polls: seq<Poll>, x: string, c: Comment): nat
    decreases |polls|
  {
    if polls == [] then 0
    else Delivered(Sent(p, s, polls[0]), x, c) + Total(p, Saved(p, s, polls[0]), polls[1..], x, c)
  }

  function TotalAnnouncements(p: Policy, s: PollState, polls: seq<Poll>, x: string): nat
    decreases |polls|
  {
    if polls == [] then 0
    else Announcements(Sent(p, s, polls[0]), x) + TotalAnnouncements(p, Saved(p, s, polls[0]), polls[1..], x)
  }

  lemma {:induction false} CountsOfConcat(a: seq<Dispatch>, b: seq<Dispatch>, x: string, c: Comment)
    ensures Delivered(a + b, x, c) == Delivered(a, x, c) + Delivered(b, x, c)
    ensures Announcements(a + b, x) == Announcements(a, x) + Announcements(b, x)
  {
    if b == [] {
      assert a + b == a;
    } else {
      assert (a + b)[..|a + b| - 1] == a + b[..|b| - 1];
      CountsOfConcat(a, b[..|b| - 1], x, c);
    }
  }

  /** The fetch holds exactly one issue named `x`, at `i`, and it names its repository. */
  predicate Fetches(issues: seq<Issue>, x: string, i: nat) {
    && i < |issues| && issues[i].identifier == x && RepoLabel(issues[i]).Some?
    && forall j | 0 <= j < |issues| && j != i :: issues[j].identifier != x
  }

  /** What one poll shows of a comment. */
  function Shown(p: Policy, s: PollState, issue: Issue, c: Comment): nat {
    if issue.identifier !in s.announced || Drives(p, s, c) then multiset(issue.comments)[c] else 0
  }

  lemma {:induction false} RelayedCounts(p: Policy, s: PollState, issue: Issue, repo: string, n: nat, c: Comment)
    requires n <= |issue.comments|
    ensures Delivered(Relayed(p, s, issue, repo, n), issue.identifier, c)
            == if Drives(p, s, c) then multiset(issue.comments[..n])[c] else 0
    ensures Announcements(Relayed(p, s, issue, repo, n), issue.identifier) == 0
  {
    if n == 0 {
      assert Relayed(p, s, issue, repo, n) == [] && issue.comments[..n] == [];
    } else {
      RelayedCounts(p, s, issue, repo, n - 1, c);
      OneMore(issue.comments, n, c);
      OneMoreRelayed(p, s, issue, repo, n, c);
      hide Drives, Delivered, Announcements, Relayed;
    }
  }

  lemma OneMoreRelayed(p: Policy, s: PollState, issue: Issue, repo: string, n: nat, c: Comment)
    requires 0 < n <= |issue.comments|
    ensures var before, now, x := Relayed(p, s, issue, repo, n - 1), Relayed(p, s, issue, repo, n), issue.identifier;
            var last := issue.comments[n - 1];
            && Delivered(now, x, c) == Delivered(before, x, c) + (if Drives(p, s, last) && last == c then 1 else 0)
            && Announcements(now, x) == Announcements(before, x)
  {
    var sofar, last := Relayed(p, s, issue, repo, n - 1), issue.comments[n - 1];
    RelayedStep(p, s, issue, repo, n);
    OneRelay(s, issue, repo, last, c);
    hide Drives, Relay, Delivered, Announcements, Relayed;
    CountsOfConcat(sofar, [Relay(s, issue, repo, last)], issue.identifier, c);
  }

  lemma RelayedStep(p: Policy, s: PollState, issue: Issue, repo: string, n: nat)
    requires 0 < n <= |issue.comments|
    ensures var sofar, last := Relayed(p, s, issue, repo, n - 1), issue.comments[n - 1];
            Relayed(p, s, issue, repo, n) == if Drives(p, s, last) then sofar + [Relay(s, issue, repo, last)] else sofar
  {
  }

  lemma OneMore(cs: seq<Comment>, n: nat, c: Comment)
    requires 0 < n <= |cs|
    ensures multiset(cs[..n])[c] == multiset(cs[..n - 1])[c] + if cs[n - 1] == c then 1 else 0
  {
    assert cs[..n] == cs[..n - 1] + [cs[n - 1]];
  }

  lemma OneRelay(s: PollState, issue: Issue, repo: string, last: Comment, c: Comment)
    ensures Delivered([Relay(s, issue, repo, last)], issue.identifier, c) == if last == c then 1 else 0
    ensures Announcements([Relay(s, issue, repo, last)], issue.identifier) == 0
  {
    OneDispatch(Relay(s, issue, repo, last), issue.identifier, c);
  }

  lemma OneDispatch(d: Dispatch, x: string, c: Comment)
    ensures Delivered([d], x, c) == Copies(d, x, c)
    ensures Announcements([d], x) == if d.identifier == x && d.message.Announcement? then 1 else 0
  {
    var ds := [d];
    assert ds[..|ds| - 1] == [];
  }

  lemma OwnIssueCounts(p: Policy, s: PollState, issue: Issue, c: Comment)
    requires RepoLabel(issue).Some?
    ensures Delivered(OfIssue(p, s, issue), issue.identifier, c) == Shown(p, s, issue, c)
    ensures Announcements(OfIssue(p, s, issue), issue.identifier) == if issue.identifier in s.announced then 0 else 1
  {
    var repo := RepoLabel(issue).value;
    if issue.identifier !in s.announced {
      OneDispatch(Announce(p, issue, repo), issue.identifier, c);
    } else {
      RelayedCounts(p, s, issue, repo, |issue.comments|, c);
      assert issue.comments[..|issue.comments|] == issue.comments;
    }
  }

  predicate AllFor(ds: seq<Dispatch>, x: string) {
    forall k | 0 <= k < |ds| :: ds[k].identifier == x
  }

  lemma {:induction false} OtherIssuesDoNotCount(ds: seq<Dispatch>, y: string, x: string, c: Comment)
    requires AllFor(ds, y) && x != y
    ensures Delivered(ds, x, c) == 0 && Announcements(ds, x) == 0
  {
    if ds != [] { OtherIssuesDoNotCount(ds[..|ds| - 1], y, x, c); }
  }

  lemma {:induction false} RelayedAreForTheIssue(p: Policy, s: PollState, issue: Issue, repo: string, n: nat)
    requires n <= |issue.comments|
    ensures AllFor(Relayed(p, s, issue, repo, n), issue.identifier)
  {
    if n > 0 { RelayedAreForTheIssue(p, s, issue, repo, n - 1); }
  }

  lemma OfIssueIsForTheIssue(p: Policy, s: PollState, issue: Issue)
    ensures AllFor(OfIssue(p, s, issue), issue.identifier)
  {
    if RepoLabel(issue).Some? { RelayedAreForTheIssue(p, s, issue, RepoLabel(issue).value, |issue.comments|); }
  }

  lemma {:induction false} AbsentIssueCounts(p: Policy, s: PollState, issues: seq<Issue>, x: string, c: Comment)
    requires forall j | 0 <= j < |issues| :: issues[j].identifier != x
    ensures Delivered(Events(p, s, issues), x, c) == 0 && Announcements(Events(p, s, issues), x) == 0
  {
    if issues != [] {
      var rest, last := issues[..|issues| - 1], issues[|issues| - 1];
      AbsentIssueCounts(p, s, rest, x, c);
      OfIssueIsForTheIssue(p, s, last);
      OtherIssuesDoNotCount(OfIssue(p, s, last), last.identifier, x, c);
      CountsOfConcat(Events(p, s, rest), OfIssue(p, s, last), x, c);
    }
  }

  /** A poll shows a comment exactly as its own issue does. */
  lemma {:induction false} PollCounts(p: Policy, s: PollState, issues: seq<Issue>, x: string, i: nat, c: Comment)
    requires Fetches(issues, x, i)
    ensures Delivered(Events(p, s, issues), x, c) == Shown(p, s, issues[i], c)
    ensures Announcements(Events(p, s, issues), x) == if x in s.announced then 0 else 1
  {
    var rest, last := issues[..|issues| - 1], issues[|issues| - 1];
    CountsOfConcat(Events(p, s, rest), OfIssue(p, s, last), x, c);
    if i == |issues| - 1 {
      AbsentIssueCounts(p, s, rest, x, c);
      OwnIssueCounts(p, s, last, c);
    } else {
      PollCounts(p, s, rest, x, i, c);
      OfIssueIsForTheIssue(p, s, last);
      OtherIssuesDoNotCount(OfIssue(p, s, last), last.identifier, x, c);
    }
  }

  // Runs.

  /** Issue `x` stays fetched with exactly one repository label: in poll `k` at `at(k)`. */
  predicate Steady(polls: seq<Poll>, x: string, at: seq<nat>) {
    |at| == |polls| && forall k | 0 <= k < |polls| :: Fetches(polls[k].issues, x, at[k])
  }

  /** How many copies of the comment poll `k` fetched. */
  function Fetched(polls: seq<Poll>, x: string, at: seq<nat>, k: nat, c: Comment): nat
    requires Steady(polls, x, at) && k < |polls|
  {
    multiset(polls[k].issues[at[k]].comments)[c]
  }

  predicate Survives(polls: seq<Poll>) {
    forall k | 0 <= k < |polls| :: polls[k].dies.None?
  }

  predicate ClockMoves(last: string, polls: seq<Poll>)
    decreases |polls|
  {
    polls != [] ==> AtMost(last, polls[0].now) && ClockMoves(polls[0].now, polls[1..])
  }

  lemma {:induction false} HandledStaysHandled(p: Policy, s: PollState, polls: seq<Poll>, x: string, at: seq<nat>, c: Comment)
    requires Steady(polls, x, at) && Survives(polls) && ClockMoves(s.lastPoll, polls)
    requires x in s.announced && AtMost(c.createdAt, s.lastPoll)
    ensures Total(p, s, polls, x, c) == 0
    decreases |polls|
  {
    if polls != [] {
      PollCounts(p, s, polls[0].issues, x, at[0], c);
      LaterIsAfter(c.createdAt, s.lastPoll, polls[0].now);
      HandledStaysHandled(p, Saved(p, s, polls[0]), polls[1..], x, at[1..], c);
    }
  }

  lemma LaterIsAfter(a: string, b: string, c: string)
    requires AtMost(a, b) && AtMost(b, c)
    ensures AtMost(a, c)
  {
    if Before(a, b) && Before(b, c) { BeforeTransitive(a, b, c); }
  }

  /** Comment `c` is fetched from poll `f` on, once in each. */
  predicate AppearsAt(polls: seq<Poll>, x: string, at: seq<nat>, c: Comment, f: nat)
    requires Steady(polls, x, at)
  {
    forall k | 0 <= k < |polls| :: Fetched(polls, x, at, k, c) == if k < f then 0 else 1
  }

  function Cursor(s: PollState, polls: seq<Poll>, f: nat): string
    requires f <= |polls|
  {
    if f == 0 then s.lastPoll else polls[f - 1].now
  }

  /** Poll `f` reaches the comment: the poll before read an earlier time than its creation, or the
      issue is new and the comment rides its announcement. */
  predicate InTime(s: PollState, polls: seq<Poll>, x: string, c: Comment, f: nat)
    requires f < |polls|
  {
    (f == 0 && x !in s.announced) || Before(Cursor(s, polls, f), c.createdAt)
  }

  /** Poll `f` is not the last and reads an earlier time than the comment's creation. */
  predicate TooSoon(polls: seq<Poll>, c: Comment, f: nat)
    requires f < |polls|
  {
    f < |polls| - 1 && Before(polls[f].now, c.createdAt)
  }

  /** Exactly once, exactly when the first fetch that holds the comment belongs to the poll whose
      clock window holds its creation time. A comment that shows up later than that is never
      delivered, one that shows up sooner is delivered again. */
  lemma {:induction false} DeliveredOnceIff(
    p: Policy, s: PollState, polls: seq<Poll>, x: string, at: seq<nat>, c: Comment, f: nat)
    requires Steady(polls, x, at) && Survives(polls) && ClockMoves(s.lastPoll, polls)
    requires Speaks(p, c) && f < |polls| && AppearsAt(polls, x, at, c, f)
    ensures Total(p, s, polls, x, c) == 0 <==> !InTime(s, polls, x, c, f)
    ensures Total(p, s, polls, x, c) >= 2 <==> InTime(s, polls, x, c, f) && TooSoon(polls, c, f)
    ensures Total(p, s, polls, x, c) == 1 <==>
            && ((f == 0 && x !in s.announced) || Before(Cursor(s, polls, f), c.createdAt))
            && (f == |polls| - 1 || AtMost(c.createdAt, polls[f].now))
    decreases |polls|
  {
    hide Saved, Sent, Drives, Fetches;
    var next, rest := Saved(p, s, polls[0]), polls[1..];
    FirstPoll(p, s, polls, x, at, c);
    assert Fetched(polls, x, at, 0, c) == if 0 < f then 0 else 1;
    assert forall k | 0 <= k < |rest| :: Fetched(rest, x, at[1..], k, c) == Fetched(polls, x, at, k + 1, c);
    BeforeTotal(s.lastPoll, c.createdAt);
    BeforeTotal(polls[f].now, c.createdAt);
    if f > 0 {
      DeliveredOnceIff(p, next, rest, x, at[1..], c, f - 1);
    } else if AtMost(c.createdAt, s.lastPoll) {
      LaterIsAfter(c.createdAt, s.lastPoll, polls[0].now);
      HandledStaysHandled(p, next, rest, x, at[1..], c);
    } else if AtMost(c.createdAt, polls[0].now) {
      HandledStaysHandled(p, next, rest, x, at[1..], c);
    } else if rest != [] {
      FirstPoll(p, next, rest, x, at[1..], c);
      assert Fetched(rest, x, at[1..], 0, c) == 1;
    }
  }

  /** A run's count, one poll unfolded. */
  lemma FirstPoll(p: Policy, s: PollState, polls: seq<Poll>, x: string, at: seq<nat>, c: Comment)
    requires polls != [] && Steady(polls, x, at) && Survives(polls) && Speaks(p, c)
    ensures var next := Saved(p, s, polls[0]);
            && next.lastPoll == polls[0].now && x in next.announced && Steady(polls[1..], x, at[1..])
            && Total(p, s, polls, x, c) == Total(p, next, polls[1..], x, c)
                 + if x !in s.announced || !AtMost(c.createdAt, s.lastPoll) then Fetched(polls, x, at, 0, c) else 0
  {
    PollCounts(p, s, polls[0].issues, x, at[0], c);
  }

  /** The same for a poll that may die: what it sent is at least nothing, and only a save moves the state. */
  lemma FirstPollOrDeath(p: Policy, s: PollState, polls: seq<Poll>, x: string, at: seq<nat>, c: Comment)
    requires polls != [] && Steady(polls, x, at) && Speaks(p, c)
    ensures var next := Saved(p, s, polls[0]);
            && Steady(polls[1..], x, at[1..])
            && Total(p, s, polls, x, c) >= Total(p, next, polls[1..], x, c)
            && (if polls[0].dies.Some? then next == s
                else
                  && next.lastPoll == polls[0].now && x in next.announced
                  && (x !in s.announced || !AtMost(c.createdAt, s.lastPoll) ==>
                        Total(p, s, polls, x, c) >= Fetched(polls, x, at, 0, c)))
  {
    PollCounts(p, s, polls[0].issues, x, at[0], c);
  }

  lemma {:induction false} UnseenIsUndelivered(p: Policy, s: PollState, polls: seq<Poll>, x: string, at: seq<nat>, c: Comment)
    requires Steady(polls, x, at) && Survives(polls)
    requires forall k | 0 <= k < |polls| :: Fetched(polls, x, at, k, c) == 0
    ensures Total(p, s, polls, x, c) == 0
    decreases |polls|
  {
    if polls != [] {
      PollCounts(p, s, polls[0].issues, x, at[0], c);
      assert Fetched(polls, x, at, 0, c) == 0;
      assert forall k | 0 <= k < |polls| - 1 :: Fetched(polls[1..], x, at[1..], k, c) == Fetched(polls, x, at, k + 1, c);
      UnseenIsUndelivered(p, Saved(p, s, polls[0]), polls[1..], x, at[1..], c);
    }
  }

  /** Each fetch is a snapshot as of the clock read after it. */
  predicate Snapshots(polls: seq<Poll>, x: string, at: seq<nat>, c: Comment)
    requires Steady(polls, x, at)
  {
    forall k | 0 <= k < |polls| :: Fetched(polls, x, at, k, c) == if AtMost(c.createdAt, polls[k].now) then 1 else 0
  }

  /** With snapshots, every trusted comment newer than the cursor is delivered exactly once, as
      soon as the clock has reached it. */
  lemma SnapshotsDeliverOnce(p: Policy, s: PollState, polls: seq<Poll>, x: string, at: seq<nat>, c: Comment)
    requires Steady(polls, x, at) && Survives(polls) && ClockMoves(s.lastPoll, polls) && Snapshots(polls, x, at, c)
    requires Speaks(p, c) && (x !in s.announced || Before(s.lastPoll, c.createdAt))
    ensures Total(p, s, polls, x, c) == if polls != [] && AtMost(c.createdAt, polls[|polls| - 1].now) then 1 else 0
  {
    hide Total, Fetches, Speaks;
    var f := 0;
    while f < |polls| && !AtMost(c.createdAt, polls[f].now)
      invariant f <= |polls|
      invariant forall k | 0 <= k < f :: !AtMost(c.createdAt, polls[k].now)
    {
      f := f + 1;
    }
    if f == |polls| {
      UnseenIsUndelivered(p, s, polls, x, at, c);
    } else {
      forall k | f <= k < |polls| ensures AtMost(c.createdAt, polls[k].now) { ClockNeverReturns(s.lastPoll, polls, c.createdAt, f, k); }
      if f > 0 { BeforeTotal(polls[f - 1].now, c.createdAt); }
      DeliveredOnceIff(p, s, polls, x, at, c, f);
    }
  }

  lemma {:induction false} ClockNeverReturns(last: string, polls: seq<Poll>, t: string, f: nat, k: nat)
    requires ClockMoves(last, polls) && f <= k < |polls| && AtMost(t, polls[f].now)
    ensures AtMost(t, polls[k].now)
    decreases |polls|
  {
    if f > 0 {
      ClockNeverReturns(polls[0].now, polls[1..], t, f - 1, k - 1);
    } else if k > 0 {
      LaterIsAfter(t, polls[0].now, polls[1].now);
      ClockNeverReturns(polls[0].now, polls[1..], t, 0, k - 1);
    }
  }

  /** A poll that dies before its save forgets nothing: with snapshots, a comment newer than the
      cursor is delivered by the time some poll that reached it lives to save. */
  lemma {:induction false} DeathLosesNothing(p: Policy, s: PollState, polls: seq<Poll>, x: string, at: seq<nat>, c: Comment, k: nat)
    requires Steady(polls, x, at) && Snapshots(polls, x, at, c)
    requires Speaks(p, c) && (x !in s.announced || Before(s.lastPoll, c.createdAt))
    requires k < |polls| && polls[k].dies.None? && AtMost(c.createdAt, polls[k].now)
    ensures Total(p, s, polls, x, c) >= 1
    decreases |polls|
  {
    FirstPollOrDeath(p, s, polls, x, at, c);
    hide Saved, Sent, Total, Fetches, Speaks;
    BeforeTotal(s.lastPoll, c.createdAt);
    BeforeTotal(polls[0].now, c.createdAt);
    assert Fetched(polls, x, at, 0, c) == if AtMost(c.createdAt, polls[0].now) then 1 else 0;
    if k > 0 && (polls[0].dies.Some? || !AtMost(c.createdAt, polls[0].now)) {
      assert forall j | 0 <= j < |polls| - 1 :: Fetched(polls[1..], x, at[1..], j, c) == Fetched(polls, x, at, j + 1, c);
      DeathLosesNothing(p, Saved(p, s, polls[0]), polls[1..], x, at[1..], c, k - 1);
    }
  }

  /** An issue that stays fetched is announced exactly once. */
  lemma {:induction false} AnnouncedOnce(p: Policy, s: PollState, polls: seq<Poll>, x: string, at: seq<nat>)
    requires Steady(polls, x, at) && Survives(polls)
    ensures TotalAnnouncements(p, s, polls, x) == if x in s.announced || polls == [] then 0 else 1
    decreases |polls|
  {
    if polls != [] {
      PollCounts(p, s, polls[0].issues, x, at[0], Comment("", "", "", None));
      AnnouncedOnce(p, Saved(p, s, polls[0]), polls[1..], x, at[1..]);
    }
  }

  // Plans.

  /** A dispatch is for a fetched issue, on the session of its one repository label; new issues are
      announced, as a plan exactly when labelled so; the others relay comments that drive. */
  predicate IsRouted(p: Policy, s: PollState, issues: seq<Issue>, d: Dispatch) {
    var issue := d.message.issue;
    && issue in issues && RepoLabel(issue) == Some(d.repo)
    && d.issueId == issue.id && d.identifier == issue.identifier && d.message.repo == d.repo
    && (match d.message
        case Announcement(_, _) => d.identifier !in s.announced && (d.kind.Plan? <==> HasLabel(issue, p.planLabel))
        case Remark(_, _, c, plan) =>
          d.identifier in s.announced && d.kind.Execution? && c in issue.comments && Drives(p, s, c) && plan == PlanFor(s, issue))
  }

  lemma {:induction false} EventsAreRouted(p: Policy, s: PollState, issues: seq<Issue>)
    ensures forall d | d in Events(p, s, issues) :: IsRouted(p, s, issues, d) && d.identifier in Routed(issues)
  {
    if issues != [] {
      var rest, last := issues[..|issues| - 1], issues[|issues| - 1];
      EventsAreRouted(p, s, rest);
      OfIssueIsRouted(p, s, last);
      assert issues == rest + [last];
      RoutedGrows(rest, [last]);
      forall d | d in Events(p, s, issues) ensures IsRouted(p, s, issues, d) && d.identifier in Routed(issues) {
        assert d in Events(p, s, rest) || d in OfIssue(p, s, last);
        assert d in OfIssue(p, s, last) ==> IsRouted(p, s, [last], d);
      }
    }
  }

  lemma OfIssueIsRouted(p: Policy, s: PollState, issue: Issue)
    ensures forall d | d in OfIssue(p, s, issue) :: IsRouted(p, s, [issue], d)
  {
    if RepoLabel(issue).Some? && issue.identifier in s.announced {
      RelayedAreRemarks(p, s, issue, RepoLabel(issue).value, |issue.comments|);
    }
  }

  lemma {:induction false} RelayedAreRemarks(p: Policy, s: PollState, issue: Issue, repo: string, n: nat)
    requires n <= |issue.comments| && RepoLabel(issue) == Some(repo) && issue.identifier in s.announced
    ensures forall d | d in Relayed(p, s, issue, repo, n) :: IsRouted(p, s, [issue], d)
  {
    if n > 0 {
      RelayedAreRemarks(p, s, issue, repo, n - 1);
      assert Drives(p, s, issue.comments[n - 1]) ==> IsRouted(p, s, [issue], Relay(s, issue, repo, issue.comments[n - 1]));
      hide IsRouted, Drives, Relay;
    }
  }

  lemma {:induction false} NotedKeys(plans: map<string, string>, ds: seq<Dispatch>, posted: nat -> Option<string>, n: nat)
    requires n <= |ds|
    ensures forall x | x in Noted(plans, ds, posted, n) ::
              x in plans || exists k | 0 <= k < n :: ds[k].identifier == x && ds[k].kind.Plan?
    ensures forall x | x in plans && (forall k | 0 <= k < n :: ds[k].identifier == x ==> !ds[k].kind.Plan?) ::
              x in Noted(plans, ds, posted, n) && Noted(plans, ds, posted, n)[x] == plans[x]
  {
    if n > 0 { NotedKeys(plans, ds, posted, n - 1); }
  }

  /** The plan ids never outlive their issues: their keys stay within the announced ones. */
  lemma PlansStayAnnounced(p: Policy, s: PollState, poll: Poll)
    requires s.plans.Keys <= s.announced
    ensures var next := Saved(p, s, poll); next.plans.Keys <= next.announced
  {
    if poll.dies.None? {
      var ds := Events(p, s, poll.issues);
      var next := Decided(s, poll.issues, poll.now);
      EventsAreRouted(p, s, poll.issues);
      NotedKeys(next.plans, ds, poll.posted, |ds|);
    }
  }

  function PlanOf(s: PollState, x: string): Option<string> {
    if x in s.plans then Some(s.plans[x]) else None
  }

  /** From its announcement on, an issue keeps its plan while it stays fetched, and every comment
      relayed for it carries that plan. */
  lemma {:induction false} PlanRidesAlong(p: Policy, s: PollState, polls: seq<Poll>, x: string, at: seq<nat>)
    requires Steady(polls, x, at) && Survives(polls) && x in s.announced
    ensures PlanOf(StateAfter(p, s, polls), x) == PlanOf(s, x)
    ensures forall d | d in AllSent(p, s, polls) && d.identifier == x ::
              d.message.Remark? && (d.message.plan.Some? <==> x in s.plans)
              && (x in s.plans ==> d.message.plan.value.id == s.plans[x])
    decreases |polls|
  {
    if polls != [] {
      var ds := Events(p, s, polls[0].issues);
      var decided := Decided(s, polls[0].issues, polls[0].now);
      KnownIssuesGetRemarks(p, s, polls[0].issues, x);
      NotedKeys(decided.plans, ds, polls[0].posted, |ds|);
      PollCounts(p, s, polls[0].issues, x, at[0], Comment("", "", "", None));
      assert x in Routed(polls[0].issues);
      PlanRidesAlong(p, Saved(p, s, polls[0]), polls[1..], x, at[1..]);
    }
  }

  lemma KnownIssuesGetRemarks(p: Policy, s: PollState, issues: seq<Issue>, x: string)
    requires x in s.announced
    ensures forall d | d in Events(p, s, issues) && d.identifier == x ::
              d.kind.Execution? && d.message.Remark? && (d.message.plan.Some? <==> x in s.plans)
              && (x in s.plans ==> d.message.plan.value.id == s.plans[x])
    ensures forall k | 0 <= k < |Events(p, s, issues)| && Events(p, s, issues)[k].identifier == x :: Events(p, s, issues)[k].kind.Execution?
  {
    EventsAreRouted(p, s, issues);
  }

  function StateAfter(p: Policy, s: PollState, polls: seq<Poll>): PollState
    decreases |polls|
  {
    if polls == [] then s else StateAfter(p, Saved(p, s, polls[0]), polls[1..])
  }

  function AllSent(p: Policy, s: PollState, polls: seq<Poll>): seq<Dispatch>
    decreases |polls|
  {
    if polls == [] then [] else Sent(p, s, polls[0]) + AllSent(p, Saved(p, s, polls[0]), polls[1..])
  }

  /** The positions at which two announcements of one issue stand are the same. */
  lemma {:induction false} AnnouncedTwice(ds: seq<Dispatch>, x: string, j: nat, k: nat)
    requires j < k < |ds| && ds[j].identifier == ds[k].identifier == x
    requires ds[j].message.Announcement? && ds[k].message.Announcement?
    ensures Announcements(ds, x) >= 2
  {
    if k < |ds| - 1 { AnnouncedTwice(ds[..|ds| - 1], x, j, k); } else { AnnouncedAt(ds[..|ds| - 1], x, j); }
  }

  lemma {:induction false} AnnouncedAt(ds: seq<Dispatch>, x: string, j: nat)
    requires j < |ds| && ds[j].identifier == x && ds[j].message.Announcement?
    ensures Announcements(ds, x) >= 1
  {
    if j < |ds| - 1 { AnnouncedAt(ds[..|ds| - 1], x, j); }
  }

  lemma {:induction false} FindAnnouncement(ds: seq<Dispatch>, x: string) returns (k: nat)
    requires Announcements(ds, x) >= 1
    ensures k < |ds| && ds[k].identifier == x && ds[k].message.Announcement?
  {
    var last := |ds| - 1;
    if ds[last].identifier == x && ds[last].message.Announcement? { k := last; } else { k := FindAnnouncement(ds[..last], x); }
  }

  lemma {:induction false} NotedOnce(plans: map<string, string>, ds: seq<Dispatch>, posted: nat -> Option<string>, n: nat, x: string, k: nat)
    requires k < n <= |ds| && ds[k].identifier == x && ds[k].kind.Plan? && posted(k).Some?
    requires forall j | 0 <= j < |ds| && j != k :: !(ds[j].identifier == x && ds[j].kind.Plan?)
    ensures x in Noted(plans, ds, posted, n) && Noted(plans, ds, posted, n)[x] == posted(k).value
  {
    if k < n - 1 { NotedOnce(plans, ds, posted, n - 1, x, k); }
  }

  lemma {:induction false} NotedNothing(plans: map<string, string>, ds: seq<Dispatch>, posted: nat -> Option<string>, n: nat, x: string)
    requires n <= |ds| && forall j | 0 <= j < n && ds[j].identifier == x && ds[j].kind.Plan? :: posted(j).None?
    ensures x in Noted(plans, ds, posted, n) <==> x in plans
    ensures x in plans ==> Noted(plans, ds, posted, n)[x] == plans[x]
  {
    if n > 0 { NotedNothing(plans, ds, posted, n - 1, x); }
  }

  /** A new issue with the plan label gets one plan announcement, and the id its posted reply got is the
      plan the poll saves, wherever the announcement stands among the dispatches. */
  lemma PostedPlanIsSaved(p: Policy, s: PollState, poll: Poll, x: string, i: nat) returns (k: nat)
    requires Fetches(poll.issues, x, i) && x !in s.announced && poll.dies.None?
    ensures var ds := Sent(p, s, poll);
            && k < |ds| && ds[k].identifier == x && ds[k].message.Announcement? && ds[k].message.issue == poll.issues[i]
            && (forall j | 0 <= j < |ds| && j != k :: ds[j].identifier != x)
            && (ds[k].kind.Plan? <==> HasLabel(poll.issues[i], p.planLabel))
            && (HasLabel(poll.issues[i], p.planLabel) && poll.posted(k).Some? ==> PlanOf(Saved(p, s, poll), x) == poll.posted(k))
            && (!HasLabel(poll.issues[i], p.planLabel) || poll.posted(k).None? ==> PlanOf(Saved(p, s, poll), x) == PlanOf(s, x))
  {
    var ds := Events(p, s, poll.issues);
    PollCounts(p, s, poll.issues, x, i, Comment("", "", "", None));
    k := FindAnnouncement(ds, x);
    EventsAreRouted(p, s, poll.issues);
    assert IsRouted(p, s, poll.issues, ds[k]);
    forall j | 0 <= j < |ds| && j != k ensures ds[j].identifier != x {
      assert IsRouted(p, s, poll.issues, ds[j]);
      if ds[j].identifier == x { AnnouncedTwice(ds, x, if j < k then j else k, if j < k then k else j); }
    }
    if ds[k].kind.Plan? && poll.posted(k).Some? {
      NotedOnce(Decided(s, poll.issues, poll.now).plans, ds, poll.posted, |ds|, x, k);
    } else {
      NotedNothing(Decided(s, poll.issues, poll.now).plans, ds, poll.posted, |ds|, x);
      assert x in Routed(poll.issues);
    }
  }

  /** From then on, while its issue stays fetched, every comment relayed for it carries that plan. */
  lemma PostedPlanRidesAlong(p: Policy, s: PollState, polls: seq<Poll>, x: string, at: seq<nat>) returns (k: nat)
    requires Steady(polls, x, at) && Survives(polls) && polls != [] && x !in s.announced
    requires HasLabel(polls[0].issues[at[0]], p.planLabel)
    ensures k < |Sent(p, s, polls[0])| && Sent(p, s, polls[0])[k].identifier == x && Sent(p, s, polls[0])[k].kind.Plan?
    ensures polls[0].posted(k).Some? ==>
              forall d | d in AllSent(p, Saved(p, s, polls[0]), polls[1..]) && d.identifier == x ::
                d.message.Remark? && d.message.plan.Some? && d.message.plan.value.id == polls[0].posted(k).value
  {
    k := PostedPlanIsSaved(p, s, polls[0], x, at[0]);
    var next := Saved(p, s, polls[0]);
    assert x in Routed(polls[0].issues);
    hide Saved, Sent, HasLabel, Fetches;
    PlanRidesAlong(p, next, polls[1..], x, at[1..]);
  }

  /** A plan goes with its text when the fetch holds the comment it was posted as, and by its id alone
      when it does not. */
  lemma PlanTextIsTheComment(s: PollState, issue: Issue)
    ensures PlanFor(s, issue).None? <==> issue.identifier !in s.plans
    ensures PlanFor(s, issue).Some? ==> PlanFor(s, issue).value.id == s.plans[issue.identifier]
    ensures PlanFor(s, issue).Some? && PlanFor(s, issue).value.Included? ==>
              exists k | 0 <= k < |issue.comments| ::
                issue.comments[k].id == s.plans[issue.identifier] && issue.comments[k].body == PlanFor(s, issue).value.body
    ensures PlanFor(s, issue).Some? && PlanFor(s, issue).value.Referenced? ==>
              forall k | 0 <= k < |issue.comments| :: issue.comments[k].id != s.plans[issue.identifier]
  {
    if issue.identifier in s.plans { BodyIsOfTheComment(issue.comments, s.plans[issue.identifier]); }
  }

  lemma {:induction false} BodyIsOfTheComment(comments: seq<Comment>, id: string)
    ensures BodyOf(comments, id).Some? ==> exists k | 0 <= k < |comments| :: comments[k].id == id && comments[k].body == BodyOf(comments, id).value
    ensures BodyOf(comments, id).None? ==> forall k | 0 <= k < |comments| :: comments[k].id != id
  {
    if comments != [] {
      BodyIsOfTheComment(comments[1..], id);
      if BodyOf(comments[1..], id).Some? {
        var k :| 0 <= k < |comments| - 1 && comments[1..][k].id == id && comments[1..][k].body == BodyOf(comments[1..], id).value;
        assert comments[k + 1] == comments[1..][k];
      }
      if BodyOf(comments[1..], id).None? {
        assert forall k | 0 < k < |comments| :: comments[k] == comments[1..][k - 1];
      }
    }
  }

  /** What a poll saves: the clock reading as the cursor, as announced exactly the fetched issues with one
      repository label, and plans of those only. A poll that dies saves nothing, and sent what it came to. */
  lemma SavedState(p: Policy, s: PollState, poll: Poll)
    ensures var ds, all := Sent(p, s, poll), Events(p, s, poll.issues);
            ds <= all && |ds| == if poll.dies.Some? && poll.dies.value <= |all| then poll.dies.value else |all|
    ensures var next := Saved(p, s, poll);
            if poll.dies.Some? then next == s
            else
              && next.lastPoll == poll.now
              && (forall x :: x in next.announced <==>
                    exists k | 0 <= k < |poll.issues| :: poll.issues[k].identifier == x && RepoLabel(poll.issues[k]).Some?)
              && forall x | x in next.plans :: x in next.announced
  {
    if poll.dies.None? {
      EventsAreRouted(p, s, poll.issues);
      NotedKeys(Decided(s, poll.issues, poll.now).plans, Events(p, s, poll.issues), poll.posted, |Events(p, s, poll.issues)|);
    }
  }

  // Who is heard, and in which order.

  /** The agent hears remarks of trusted people only, never its own: the author's address stands in the
      list, up to the case of its letters. */
  lemma OnlyTrustedPeopleAreHeard(p: Policy, s: PollState, issues: seq<Issue>, d: Dispatch)
    requires d in Events(p, s, issues) && d.message.Remark?
    ensures var c := d.message.comment;
            && c.user.Some? && c.user.value.id != p.viewer
            && exists k | 0 <= k < |p.trusted| ::
                 && |p.trusted[k]| == |c.user.value.email|
                 && forall i | 0 <= i < |p.trusted[k]| :: SameLetter(p.trusted[k][i], c.user.value.email[i])
  {
    EventsAreRouted(p, s, issues);
    assert IsRouted(p, s, issues, d);
    var email := d.message.comment.user.value.email;
    var k :| 0 <= k < |p.trusted| && ToLowerAscii(p.trusted[k]) == ToLowerAscii(email);
    LowerDecidesLetters(p.trusted[k], email);
  }

  /** An issue is labelled so when one of its labels has the name, up to the case of its letters. */
  lemma LabelsIgnoreCase(issue: Issue, name: string)
    ensures HasLabel(issue, name) <==>
            exists k | 0 <= k < |issue.labels| ::
              |issue.labels[k]| == |name| && forall i | 0 <= i < |name| :: SameLetter(issue.labels[k][i], name[i])
  {
    forall k | 0 <= k < |issue.labels|
      ensures ToLowerAscii(issue.labels[k]) == ToLowerAscii(name) <==>
              |issue.labels[k]| == |name| && forall i | 0 <= i < |name| :: SameLetter(issue.labels[k][i], name[i])
    {
      LowerDecidesLetters(issue.labels[k], name);
    }
  }

  /** Dispatches come in the order of the fetch. */
  lemma {:induction false} EventsInOrder(p: Policy, s: PollState, a: seq<Issue>, b: seq<Issue>)
    ensures Events(p, s, a + b) == Events(p, s, a) + Events(p, s, b)
  {
    hide OfIssue;
    if b == [] {
      assert a + b == a;
    } else {
      assert (a + b)[..|a + b| - 1] == a + b[..|b| - 1];
      EventsInOrder(p, s, a, b[..|b| - 1]);
    }
  }

  /** A known issue's remarks are its comments that drive the agent, each once and in their order: `at` says
      which comment each remark is of. */
  lemma {:induction false} RemarksInOrder(p: Policy, s: PollState, issue: Issue, repo: string, n: nat) returns (at: seq<nat>)
    requires n <= |issue.comments|
    ensures var ds := Relayed(p, s, issue, repo, n);
            && |at| == |ds|
            && (forall k | 0 <= k < |at| :: at[k] < n && ds[k].message == Remark(issue, repo, issue.comments[at[k]], PlanFor(s, issue)))
            && (forall j, k | 0 <= j < k < |at| :: at[j] < at[k])
            && (forall j | 0 <= j < n :: Drives(p, s, issue.comments[j]) <==> j in at)
  {
    at := [];
    if n > 0 {
      at := RemarksInOrder(p, s, issue, repo, n - 1);
      hide Drives;
      assert forall j | j in at :: j < n - 1;
      if Drives(p, s, issue.comments[n - 1]) { at := at + [n - 1]; }
    }
  }

  /** A run is its polls, one after the other from what the one before saved. */
  lemma {:induction false} RunsCompose(p: Policy, s: PollState, a: seq<Poll>, poll: Poll)
    ensures StateAfter(p, s, a + [poll]) == Saved(p, StateAfter(p, s, a), poll)
    ensures AllSent(p, s, a + [poll]) == AllSent(p, s, a) + Sent(p, StateAfter(p, s, a), poll)
    decreases |a|
  {
    hide Saved, Sent;
    if a == [] {
      assert (a + [poll])[1..] == [];
      assert AllSent(p, s, [poll]) == Sent(p, s, poll) + AllSent(p, Saved(p, s, poll), []);
      assert [] + Sent(p, s, poll) == Sent(p, s, poll);
    } else {
      assert (a + [poll])[1..] == a[1..] + [poll] && (a + [poll])[0] == a[0];
      RunsCompose(p, Saved(p, s, a[0]), a[1..], poll);
      assert Sent(p, s, a[0]) + (AllSent(p, Saved(p, s, a[0]), a[1..]) + Sent(p, StateAfter(p, s, a), poll))
             == AllSent(p, s, a) + Sent(p, StateAfter(p, s, a), poll);
    }
  }

  /** What a run delivers is counted over all it sent. */
  lemma {:induction false} TotalIsOfAllSent(p: Policy, s: PollState, polls: seq<Poll>, x: string, c: Comment)
    ensures Total(p, s, polls, x, c) == Delivered(AllSent(p, s, polls), x, c)
    decreases |polls|
  {
    hide Saved, Sent;
    if polls != [] {
      TotalIsOfAllSent(p, Saved(p, s, polls[0]), polls[1..], x, c);
      CountsOfConcat(Sent(p, s, polls[0]), AllSent(p, Saved(p, s, polls[0]), polls[1..]), x, c);
    }
  }

  // Real clocks: the cursor has whole seconds, the tracker's stamps have milliseconds.

  /** `2026-07-05T12:00:00.123Z` */
  function Stamp(t: nat, ms: nat): string
    requires t < YEAR_10000
  {
    Shape(t);
    FormatIso8601(t)[..19] + Fraction(ms)
  }

  function Fraction(ms: nat): (s: string)
    ensures |s| > 1 && s[0] == '.'
  {
    "." + Padded(ms, 3) + "Z"
  }

  lemma Shape(t: nat)
    requires t < YEAR_10000
    ensures |FormatIso8601(t)| == 20 && FormatIso8601(t) == FormatIso8601(t)[..19] + "Z"
  {
    hide CivilFromDays, ClockOf, Padded, Decimal;
    var d, c := CivilFromDays(t / DAY), ClockOf(t % DAY);
    CivilIsTheDate(t / DAY);
    EpochYears(t / DAY);
    var z := Field(c.s, 'Z', "");
    assert |z| == 3 && z[2] == 'Z';
    assert |c.Show()| == 9 && c.Show()[8] == 'Z';
    assert |DateTail(d, c.Show())| == 15 && DateTail(d, c.Show())[14] == 'Z';
    assert |Render(d, c)| == 20 && Render(d, c)[19] == 'Z';
  }

  /** A stamp with milliseconds compares with a whole-second time as its own second would: the
      fraction sorts before the `Z`, so a comment of the cursor's second counts as handled. */
  lemma StampOrder(t: nat, ms: nat, u: nat)
    requires t < YEAR_10000 && u < YEAR_10000
    ensures AtMost(Stamp(t, ms), FormatIso8601(u)) <==> t <= u
    ensures Before(FormatIso8601(u), Stamp(t, ms)) <==> u < t
  {
    Shape(t);
    Shape(u);
    hide FormatIso8601, Fraction, Before;
    var a, b := FormatIso8601(t)[..19], FormatIso8601(u)[..19];
    OrderWithinFourDigitYears(t, u);
    OrderWithinFourDigitYears(u, t);
    FractionSortsFirst(a, b, Fraction(ms));
  }

  /** Between equally long prefixes a fraction decides nothing, and after equal ones it comes before the `Z`. */
  lemma FractionSortsFirst(a: string, b: string, tail: string)
    requires |a| == |b| && |tail| > 1 && tail[0] == '.'
    ensures AtMost(a + tail, b + "Z") <==> Before(a + "Z", b + "Z") || a == b
    ensures Before(b + "Z", a + tail) <==> Before(b + "Z", a + "Z")
    ensures a != b ==> Before(a + "Z", b + "Z") || Before(b + "Z", a + "Z")
    ensures a == b ==> !Before(a + "Z", b + "Z")
  {
    assert |a + tail| != |b + "Z"|;
    BeforeTotal("Z", "Z");
    BeforeTotal(a, b);
    assert Before(tail, "Z") && !Before("Z", tail);
    SplitOrder(a, b, tail, "Z");
    SplitOrder(b, a, "Z", tail);
    SplitOrder(a, b, "Z", "Z");
    SplitOrder(b, a, "Z", "Z");
  }

  /** The polls' clock readings, from the one the loaded cursor holds. */
  predicate ReadAt(start: nat, polls: seq<Poll>, nows: seq<nat>)
    decreases |polls|
  {
    && |nows| == |polls| && start < YEAR_10000
    && (polls != [] ==> start <= nows[0] && nows[0] < YEAR_10000 && polls[0].now == FormatIso8601(nows[0])
                        && ReadAt(nows[0], polls[1..], nows[1..]))
  }

  lemma {:induction false} ReadAtMoves(start: nat, polls: seq<Poll>, nows: seq<nat>)
    requires ReadAt(start, polls, nows)
    ensures ClockMoves(FormatIso8601(start), polls)
    ensures forall k | 0 <= k < |polls| :: nows[k] < YEAR_10000 && polls[k].now == FormatIso8601(nows[k])
    decreases |polls|
  {
    hide FormatIso8601;
    if polls != [] {
      OrderWithinFourDigitYears(start, nows[0]);
      OrderWithinFourDigitYears(nows[0], start);
      BeforeTotal(FormatIso8601(start), FormatIso8601(nows[0]));
      ReadAtMoves(nows[0], polls[1..], nows[1..]);
    }
  }

  /** In seconds: a comment made in second `t` and first fetched by poll `f` is delivered exactly
      once if and only if the poll before read an earlier second and poll `f`, unless it is the
      last, read `t` or later. A comment made in the second of the previous reading, after the previous
      fetch, is never delivered, and one stamped ahead of the daemon's clock is delivered again. */
  lemma DeliveredOnceIffInSeconds(p: Policy, s: PollState, polls: seq<Poll>, x: string, at: seq<nat>,
                                  c: Comment, f: nat, start: nat, nows: seq<nat>, t: nat, ms: nat)
    requires Steady(polls, x, at) && Survives(polls) && Speaks(p, c) && f < |polls| && AppearsAt(polls, x, at, c, f)
    requires s.lastPoll == FormatIso8601(start) && ReadAt(start, polls, nows)
    requires t < YEAR_10000 && c.createdAt == Stamp(t, ms)
    ensures Total(p, s, polls, x, c) == 0 <==> !((f == 0 && x !in s.announced) || (if f == 0 then start else nows[f - 1]) < t)
    ensures Total(p, s, polls, x, c) >= 2 <==>
            && ((f == 0 && x !in s.announced) || (if f == 0 then start else nows[f - 1]) < t)
            && f < |polls| - 1 && nows[f] < t
    ensures Total(p, s, polls, x, c) == 1 <==>
            && ((f == 0 && x !in s.announced) || (if f == 0 then start else nows[f - 1]) < t)
            && (f == |polls| - 1 || t <= nows[f])
  {
    hide FormatIso8601;
    hide Stamp;
    ReadAtMoves(start, polls, nows);
    DeliveredOnceIff(p, s, polls, x, at, c, f);
    StampOrder(t, ms, if f == 0 then start else nows[f - 1]);
    StampOrder(t, ms, nows[f]);
  }

  // Runs that lose and repeat a comment.

  const TRUSTED := Policy("bot", ["me"], "plan")

  /** An issue in repository `/`, and a remark of the trusted user made in second `t`. */
  function Told(comments: seq<Comment>): Issue {
    Issue("1", "X", "t", None, ["/"], comments)
  }

  function RemarkOf(t: nat, ms: nat): Comment
    requires t < YEAR_10000
  {
    Comment("2", "please", Stamp(t, ms), Some(User("3", "Me", "me")))
  }

  /** A cursor read at `start`, with the issue announced. */
  function ReadOnce(start: nat): PollState {
    PollState(FormatIso8601(start), {"X"}, map[])
  }

  function PollOf(comments: seq<Comment>, now: nat): Poll {
    Poll([Told(comments)], FormatIso8601(now), n => None, None)
  }

  lemma RemarkIsTrusted(c: Comment)
    requires c.user == Some(User("3", "Me", "me"))
    ensures Speaks(TRUSTED, c) && RepoLabel(Told([])).Some? && RepoLabel(Told([c])).Some?
  {
    var slash := "/";
    assert slash == ['/'] && multiset(slash)['/'] == 1;
    var labels := [slash];
    assert labels[..|labels| - 1] == [] && RepoLabels([]) == [];
    assert RepoLabels(labels) == [] + [slash];
    assert Told([]).labels == labels && Told([c]).labels == labels;
    assert ToLowerAscii(TRUSTED.trusted[0]) == ToLowerAscii(c.user.value.email);
  }

  /** Two polls at `n0` and `n1`, the first holding the remark or not, the second holding it. */
  lemma TwoPolls(polls: seq<Poll>, first: seq<Comment>, c: Comment, start: nat, n0: nat, n1: nat)
    requires c.user == Some(User("3", "Me", "me")) && (first == [] || first == [c])
    requires start <= n0 <= n1 < YEAR_10000 && polls == [PollOf(first, n0), PollOf([c], n1)]
    ensures Steady(polls, "X", [0, 0]) && Survives(polls) && ReadAt(start, polls, [n0, n1]) && Speaks(TRUSTED, c)
    ensures AppearsAt(polls, "X", [0, 0], c, if first == [] then 1 else 0)
  {
    RemarkIsTrusted(c);
    hide FormatIso8601, RepoLabel, Speaks;
    assert Fetches(polls[0].issues, "X", 0) && Fetches(polls[1].issues, "X", 0);
    var nows := [n0, n1];
    assert polls[1..][1..] == [] && nows[1..][1..] == [];
    assert ReadAt(n1, polls[1..][1..], nows[1..][1..]);
    assert nows[1..][0] == n1 && polls[1..][0] == polls[1];
    assert ReadAt(n0, polls[1..], nows[1..]);
    assert multiset([c])[c] == 1;
  }

  /** Made after the first fetch but no later than the reading that follows it, and fetched by the
      second poll: whatever the times, the run is one the clock can give, and the comment never
      reaches the agent. */
  lemma LateCommentIsLost(start: nat, t: nat, ms: nat, n0: nat, n1: nat) returns (polls: seq<Poll>, at: seq<nat>, c: Comment)
    requires start < t <= n0 <= n1 < YEAR_10000
    ensures Steady(polls, "X", at) && Survives(polls) && ReadAt(start, polls, [n0, n1])
    ensures Speaks(TRUSTED, c) && c.createdAt == Stamp(t, ms) && AppearsAt(polls, "X", at, c, 1)
    ensures Total(TRUSTED, ReadOnce(start), polls, "X", c) == 0
  {
    c := RemarkOf(t, ms);
    polls, at := [PollOf([], n0), PollOf([c], n1)], [0, 0];
    TwoPolls(polls, [], c, start, n0, n1);
    hide FormatIso8601, Stamp, Speaks, Steady, ReadAt, AppearsAt, Total;
    DeliveredOnceIffInSeconds(TRUSTED, ReadOnce(start), polls, "X", at, c, 1, start, [n0, n1], t, ms);
  }

  /** Stamped ahead of the reading of the poll that first fetches it: delivered by that poll and again
      by the next. */
  lemma EarlyCommentIsRepeated(start: nat, t: nat, ms: nat, n0: nat, n1: nat) returns (polls: seq<Poll>, at: seq<nat>, c: Comment)
    requires start <= n0 < t < YEAR_10000 && n0 <= n1 < YEAR_10000
    ensures Steady(polls, "X", at) && Survives(polls) && ReadAt(start, polls, [n0, n1])
    ensures Speaks(TRUSTED, c) && c.createdAt == Stamp(t, ms) && AppearsAt(polls, "X", at, c, 0)
    ensures Total(TRUSTED, ReadOnce(start), polls, "X", c) >= 2
  {
    c := RemarkOf(t, ms);
    polls, at := [PollOf([c], n0), PollOf([c], n1)], [0, 0];
    TwoPolls(polls, [c], c, start, n0, n1);
    hide FormatIso8601, Stamp, Speaks, Steady, ReadAt, AppearsAt, Total;
    DeliveredOnceIffInSeconds(TRUSTED, ReadOnce(start), polls, "X", at, c, 0, start, [n0, n1], t, ms);
  }
}
