/** Preserve, then reset: preparing a checkout for an execution turn
    (src/channel/execution_checkout.rs), over a small git. */
module Checkout {
  import opened Options

  type Path = seq<string>
  type Tree = map<Path, string>

  /** Commits are numbered as they are created, parents before children. */
  datatype Commit = Commit(parents: seq<nat>, tree: Tree)

  datatype Head = Attached(branch: string) | Detached(commit: nat)

  /** A repository with its index, working tree and the remote's default branch as last fetched. */
  datatype Repo = Repo(
    commits: seq<Commit>,
    heads: map<string, nat>,
    head: Head,
    origin: nat,
    index: Tree,
    work: Tree)
  {
    ghost predicate Valid() {
      && (forall i, k | 0 <= i < |commits| && 0 <= k < |commits[i].parents| :: commits[i].parents[k] < i)
      && (forall b | b in heads :: heads[b] < |commits|)
      && origin < |commits|
      && (match head case Attached(b) => b in heads case Detached(c) => c < |commits|)
    }

    function HeadCommit(): nat
      requires head.Attached? ==> head.branch in heads
    {
      match head case Attached(b) => heads[b] case Detached(c) => c
    }

    function HeadTree(): Tree
      requires Valid()
    {
      commits[HeadCommit()].tree
    }
  }

  function At(t: Tree, p: Path): Option<string> {
    if p in t then Some(t[p]) else None
  }

  /** Whether `to` is `from` or one of its ancestors. */
  predicate Reaches(commits: seq<Commit>, from: nat, to: nat)
    decreases from
  {
    from == to
    || (from < |commits|
        && exists k | 0 <= k < |commits[from].parents| && commits[from].parents[k] < from ::
             Reaches(commits, commits[from].parents[k], to))
  }

  lemma {:induction false} ReachesGrows(commits: seq<Commit>, more: seq<Commit>, from: nat, to: nat)
    requires Reaches(commits, from, to)
    ensures Reaches(commits + more, from, to)
    decreases from
  {
    if from != to {
      var all := commits + more;
      var k :| 0 <= k < |commits[from].parents| && commits[from].parents[k] < from
               && Reaches(commits, commits[from].parents[k], to);
      ReachesGrows(commits, more, commits[from].parents[k], to);
      assert all[from] == commits[from];
    }
  }

  /** Directories kept between turns, at the root of the checkout. */
  const KEPT_CACHES: seq<string> := [".direnv", ".gcroots", "node_modules", ".venv"]

  /** What `git status`, `git reset` and the parked commit leave out: a cache at the root. */
  predicate RootCache(p: Path) {
    p != [] && p[0] in KEPT_CACHES
  }

  /** What `git clean -e` leaves alone: a cache name at any depth. */
  predicate AnyCache(p: Path) {
    exists k | 0 <= k < |p| :: p[k] in KEPT_CACHES
  }

  // The commands.

  /** `git status --porcelain` outside the root caches reports something. */
  ghost predicate Dirty(r: Repo, ignored: Path -> bool)
    requires r.Valid()
  {
    exists p: Path :: !RootCache(p) && Reported(r, ignored, p)
  }

  /** Staged, edited or deleted since staging, or new and not ignored. */
  predicate Reported(r: Repo, ignored: Path -> bool, p: Path)
    requires r.Valid()
  {
    || At(r.index, p) != At(r.HeadTree(), p)
    || (p in r.index && At(r.work, p) != At(r.index, p))
    || (p in r.work && p !in r.index && !ignored(p))
  }

  /** A detached HEAD that the remote's default branch does not contain. */
  predicate Stranded(r: Repo)
    requires r.Valid()
  {
    r.head.Detached? && !Reaches(r.commits, r.origin, r.HeadCommit())
  }

  /** `git checkout -b name`: a new branch at HEAD; refused when it exists. */
  function NewBranch(r: Repo, name: string): Repo
    requires r.Valid()
  {
    r.(heads := r.heads[name := r.HeadCommit()], head := Attached(name))
  }

  /** `git add -A`: the index follows the working tree, ignored new files aside. */
  function AddAll(r: Repo, ignored: Path -> bool): Repo {
    r.(index := map p | p in r.work && (p in r.index || !ignored(p)) :: r.work[p])
  }

  /** `git reset -- caches`: the root caches' entries go back to HEAD's. */
  function ResetCaches(r: Repo): Repo
    requires r.Valid()
  {
    r.(index := map p | p in r.index.Keys + r.HeadTree().Keys && p in (if RootCache(p) then r.HeadTree() else r.index)
                :: if RootCache(p) then r.HeadTree()[p] else r.index[p])
  }

  /** `git commit`: the index becomes a commit on the current branch. */
  function CommitIndex(r: Repo): Repo
    requires r.Valid() && r.head.Attached?
  {
    r.(commits := r.commits + [Commit([r.HeadCommit()], r.index)],
       heads := r.heads[r.head.branch := |r.commits|])
  }

  /** `git fetch origin`: new commits arrive and the remote's default branch moves, anywhere. */
  ghost predicate Fetched(r: Repo, t: Repo) {
    && |r.commits| <= |t.commits| && t.commits[..|r.commits|] == r.commits
    && t == r.(commits := t.commits, origin := t.origin)
  }

  /** `git checkout --force --detach origin/HEAD`: tracked files become the target's; files the
      index did not know stay unless the target has them. */
  function DetachAtOrigin(r: Repo): Repo
    requires r.Valid()
  {
    var target := r.commits[r.origin].tree;
    r.(head := Detached(r.origin), index := target,
       work := map p | p in r.work.Keys + target.Keys && (p in target || p !in r.index)
               :: if p in target then target[p] else r.work[p])
  }

  /** `git clean -fdx -e caches`: untracked files go, ignored or not, except under a cache name. */
  function Clean(r: Repo): Repo {
    r.(work := map p | p in r.work && (p in r.index || AnyCache(p)) :: r.work[p])
  }

  // What must survive.

  /** Work a predecessor left uncommitted: tracked or not ignored, outside the root caches,
      and different from HEAD. */
  predicate Leftover(r: Repo, ignored: Path -> bool, p: Path)
    requires r.Valid()
  {
    !RootCache(p) && (p in r.index || !ignored(p)) && At(r.work, p) != At(r.HeadTree(), p)
  }

  ghost predicate NothingLeft(r: Repo, ignored: Path -> bool)
    requires r.Valid()
  {
    forall p: Path :: !Leftover(r, ignored, p)
  }

  /** The status is clean exactly when nothing but caches is staged and staging everything would stage
      nothing but caches. */
  lemma CleanIffNothingToStage(r: Repo, ignored: Path -> bool)
    requires r.Valid()
    ensures !Dirty(r, ignored) <==>
            && (forall p: Path | !RootCache(p) :: At(r.index, p) == At(r.HeadTree(), p))
            && (forall p: Path | !RootCache(p) :: At(AddAll(r, ignored).index, p) == At(r.index, p))
  {
    forall p: Path
      ensures Reported(r, ignored, p) <==>
              At(r.index, p) != At(r.HeadTree(), p) || At(AddAll(r, ignored).index, p) != At(r.index, p)
    {
    }
  }

  /** A tree that holds all of the predecessor's files, deletions included. */
  ghost predicate Holds(t: Tree, r: Repo, ignored: Path -> bool) {
    forall p: Path | !RootCache(p) && (p in r.index || !ignored(p)) :: At(t, p) == At(r.work, p)
  }

  /** A tree of exactly the predecessor's files, outside the root caches. */
  ghost predicate Snapshot(t: Tree, r: Repo, ignored: Path -> bool) {
    forall p: Path | !RootCache(p) :: At(t, p) == if p in r.index || !ignored(p) then At(r.work, p) else None
  }

  /** What was staged for a path is in the snapshot exactly when the file was not changed again since
      (or was removed from the index and is ignored): `add` replaces staged content by the file's. */
  lemma StagedContentSurvivesIff(t: Tree, r: Repo, ignored: Path -> bool, p: Path)
    requires Snapshot(t, r, ignored) && !RootCache(p)
    ensures At(t, p) == At(r.index, p) <==> At(r.work, p) == At(r.index, p) || (p !in r.index && ignored(p))
  {
  }

  /** History only grows and no existing local branch moves. */
  predicate Grown(was: Repo, now: Repo) {
    && was.commits <= now.commits
    && forall b | b in was.heads :: b in now.heads && now.heads[b] == was.heads[b]
  }

  /** A local branch reaches a commit whose tree holds the predecessor's files. */
  ghost predicate Parked(was: Repo, now: Repo, ignored: Path -> bool) {
    exists b, c: nat :: b in now.heads && c < |now.commits| && Reaches(now.commits, now.heads[b], c)
                        && Holds(now.commits[c].tree, was, ignored)
  }

  /** The old HEAD keeps a name: a local branch, or the default branch it was already part of. */
  ghost predicate Named(was: Repo, now: Repo)
    requires was.Valid()
  {
    || Reaches(now.commits, was.origin, was.HeadCommit())
    || exists b | b in now.heads :: Reaches(now.commits, now.heads[b], was.HeadCommit())
  }

  /** Nothing of `was` is lost in `now`. */
  ghost predicate Preserved(was: Repo, now: Repo, ignored: Path -> bool)
    requires was.Valid() && now.Valid()
  {
    && Grown(was, now)
    && (now.HeadCommit() == was.HeadCommit() || Named(was, now))
    && ((exists p: Path :: Leftover(was, ignored, p)) ==> Holds(now.work, was, ignored) || Parked(was, now, ignored))
  }

  /** Anything left over is reported, so a clean status means nothing can be lost. */
  lemma LeftoversAreReported(r: Repo, ignored: Path -> bool, p: Path)
    requires r.Valid() && Leftover(r, ignored, p)
    ensures Dirty(r, ignored)
  {
    assert Reported(r, ignored, p);
  }

  /** The index after `add` and `reset` holds the leftovers, and HEAD's version of the caches. */
  lemma StagedTree(r: Repo, ignored: Path -> bool)
    requires r.Valid()
    ensures var staged := ResetCaches(AddAll(r, ignored)).index;
            && Snapshot(staged, r, ignored) && Holds(staged, r, ignored) && IndexTracks(r, true, ignored, staged)
            && forall p: Path | RootCache(p) :: At(staged, p) == At(r.HeadTree(), p)
  {
  }

  /** A repository whose work the parking took care of. */
  ghost predicate SafeToReset(was: Repo, now: Repo, ignored: Path -> bool)
    requires was.Valid()
  {
    && now.Valid() && Grown(was, now) && Named(was, now)
    && ((exists p: Path :: Leftover(was, ignored, p)) ==> Parked(was, now, ignored))
  }

  /** A name stays while branches stay and history only grows. */
  lemma NamesLast(was: Repo, now: Repo, later: Repo)
    requires was.Valid() && Named(was, now) && now.commits <= later.commits && later.heads == now.heads
    ensures Named(was, later)
  {
    var more := later.commits[|now.commits|..];
    assert later.commits == now.commits + more;
    if Reaches(now.commits, was.origin, was.HeadCommit()) {
      ReachesGrows(now.commits, more, was.origin, was.HeadCommit());
    } else {
      var b :| b in now.heads && Reaches(now.commits, now.heads[b], was.HeadCommit());
      ReachesGrows(now.commits, more, now.heads[b], was.HeadCommit());
    }
  }

  /** What a command that fails or is killed may leave: nothing done, all of it or a part. Commits are
      only added, a branch is written at once, and only the reset commands touch the working tree; the
      index and the remote's default branch may be anything. */
  ghost predicate Interrupted(before: Repo, done: Repo, left: Repo, sparesWork: bool) {
    && left.Valid() && before.commits <= left.commits
    && (left.heads == before.heads || (left.heads == done.heads && done.commits <= left.commits))
    && (left.head == before.head || left.head == done.head)
    && (sparesWork ==> left.work == before.work)
  }

  /** A parking command cut off anywhere loses nothing. */
  lemma CutParkingIsSafe(was: Repo, before: Repo, done: Repo, left: Repo, ignored: Path -> bool)
    requires was.Valid() && before.Valid() && done.Valid() && Interrupted(before, done, left, true)
    requires Grown(was, before) && Grown(was, done) && before.work == was.work && Named(was, done)
    requires before.HeadCommit() == was.HeadCommit() && (before == was || (Named(was, before) && done.head == before.head))
    requires before == was ==> done.head.Attached? && done.head.branch !in was.heads
    ensures Preserved(was, left, ignored)
  {
    if left.heads == done.heads && done.commits <= left.commits {
      NamesLast(was, done, left);
    } else if before != was {
      NamesLast(was, before, left);
    }
    UntouchedIsPreserved(was, left, ignored);
  }

  /** Once the leftovers are safe, nothing the later commands do can lose them. */
  lemma SafetyLasts(was: Repo, now: Repo, later: Repo, ignored: Path -> bool)
    requires was.Valid() && later.Valid() && SafeToReset(was, now, ignored)
    requires now.commits <= later.commits && later.heads == now.heads
    ensures SafeToReset(was, later, ignored) && Preserved(was, later, ignored)
  {
    var more := later.commits[|now.commits|..];
    assert later.commits == now.commits + more;
    NamesLast(was, now, later);
    if exists p: Path :: Leftover(was, ignored, p) {
      var b, c: nat :| b in now.heads && c < |now.commits| && Reaches(now.commits, now.heads[b], c)
                       && Holds(now.commits[c].tree, was, ignored);
      ReachesGrows(now.commits, more, now.heads[b], c);
      assert later.commits[c] == now.commits[c];
    }
  }

  /** While the working tree and HEAD's commit stand, nothing is lost. */
  lemma UntouchedIsPreserved(was: Repo, now: Repo, ignored: Path -> bool)
    requires was.Valid() && now.Valid() && Grown(was, now) && now.work == was.work
    requires now.HeadCommit() == was.HeadCommit() || Named(was, now)
    ensures Preserved(was, now, ignored)
  {
  }

  lemma CommitParks(was: Repo, r: Repo, ignored: Path -> bool)
    requires was.Valid() && r.Valid() && Grown(was, r) && r.head.Attached? && r.head.branch !in was.heads
    requires r.HeadCommit() == was.HeadCommit() && r.work == was.work && Holds(r.index, was, ignored)
    ensures var done := CommitIndex(r); SafeToReset(was, done, ignored) && done.work == was.work && done.origin == r.origin
  {
    var done := CommitIndex(r);
    var c := |r.commits|;
    assert done.commits[c] == Commit([was.HeadCommit()], r.index);
    assert forall i | 0 <= i < c :: done.commits[i] == r.commits[i];
    assert Reaches(done.commits, done.commits[c].parents[0], was.HeadCommit());
    assert Reaches(done.commits, done.heads[r.head.branch], was.HeadCommit());
    assert Reaches(done.commits, done.heads[r.head.branch], c) && Holds(done.commits[c].tree, was, ignored);
  }

  /** What the index tracks of the predecessor's files when the reset starts: after parking a dirty
      checkout leftovers were staged and root caches went back to HEAD's view. */
  predicate Tracked(was: Repo, dirty: bool, ignored: Path -> bool, p: Path)
    requires was.Valid()
  {
    if !dirty then p in was.index
    else if RootCache(p) then p in was.HeadTree()
    else p in was.index || !ignored(p)
  }

  ghost predicate IndexTracks(was: Repo, dirty: bool, ignored: Path -> bool, index: Tree)
    requires was.Valid()
  {
    forall p | p in was.work :: p in index <==> Tracked(was, dirty, ignored, p)
  }

  /** The state a successful preparation leaves. */
  ghost predicate FreshBase(was: Repo, dirty: bool, ignored: Path -> bool, now: Repo)
    requires was.Valid() && now.Valid()
  {
    var base := now.commits[now.origin].tree;
    && now.head == Detached(now.origin) && now.index == base
    && (forall p | p in base :: At(now.work, p) == At(base, p))
    && (forall p: Path | !AnyCache(p) :: At(now.work, p) == At(base, p))
    // A cache file the base does not track stays exactly when the index did not track it.
    && (forall p | p in was.work && AnyCache(p) && p !in base ::
          At(now.work, p) == if Tracked(was, dirty, ignored, p) then None else Some(was.work[p]))
  }

  lemma ResetGivesFreshBase(was: Repo, dirty: bool, ignored: Path -> bool, r: Repo)
    requires was.Valid() && r.Valid() && r.work == was.work && IndexTracks(was, dirty, ignored, r.index)
    ensures var now := Clean(DetachAtOrigin(r)); now.Valid() && FreshBase(was, dirty, ignored, now)
  {
  }

  lemma CleanHasNoLeftovers(was: Repo, ignored: Path -> bool)
    requires was.Valid() && !Dirty(was, ignored)
    ensures NothingLeft(was, ignored)
    ensures forall p | p in was.work && !RootCache(p) :: p in was.index <==> p in was.index || !ignored(p)
  {
    forall p: Path ensures !Leftover(was, ignored, p) {
      if Leftover(was, ignored, p) { LeftoversAreReported(was, ignored, p); }
    }
    forall p | p in was.work && !RootCache(p) ensures p in was.index <==> p in was.index || !ignored(p) {
      assert !Reported(was, ignored, p);
    }
  }

  lemma AttachedIsNamed(was: Repo)
    requires was.Valid() && !Stranded(was)
    ensures Named(was, was)
  {
    if was.head.Attached? { assert Reaches(was.commits, was.heads[was.head.branch], was.HeadCommit()); }
  }

  lemma BranchNames(was: Repo, name: string)
    requires was.Valid() && name !in was.heads
    ensures var now := NewBranch(was, name); now.Valid() && Grown(was, now) && Named(was, now)
  {
    var now := NewBranch(was, name);
    assert Reaches(now.commits, now.heads[name], was.HeadCommit());
  }

  /** Naming, staging and committing lose nothing on the way to a parked commit, wherever they are cut off. */
  lemma ParkingIsSafe(was: Repo, name: string, ignored: Path -> bool)
    requires was.Valid() && name !in was.heads
    ensures ParkingStep(was, was, NewBranch(was, name), ignored)
    ensures ParkingStep(was, NewBranch(was, name), AddAll(NewBranch(was, name), ignored), ignored)
    ensures var added := AddAll(NewBranch(was, name), ignored);
            added.Valid() && ParkingStep(was, added, ResetCaches(added), ignored)
    ensures var staged := ResetCaches(AddAll(NewBranch(was, name), ignored));
            staged.Valid() && staged.head.Attached? && ParkingStep(was, staged, CommitIndex(staged), ignored)
    ensures var done := CommitIndex(ResetCaches(AddAll(NewBranch(was, name), ignored)));
            && done.Valid() && SafeToReset(was, done, ignored)
            && done.head == Attached(name) && done.work == was.work && done.origin == was.origin
            && IndexTracks(was, true, ignored, done.index)
            && Snapshot(done.commits[done.HeadCommit()].tree, was, ignored)
            && forall p: Path | RootCache(p) :: At(done.commits[done.HeadCommit()].tree, p) == At(was.HeadTree(), p)
  {
    BranchNames(was, name);
    var named := NewBranch(was, name);
    var added := AddAll(named, ignored);
    var staged := ResetCaches(added);
    StagedTree(was, ignored);
    assert staged.index == ResetCaches(AddAll(was, ignored)).index;
    CommitParks(was, staged, ignored);
    ParkingStepIsSafe(was, was, named, ignored);
    ParkingStepIsSafe(was, named, added, ignored);
    ParkingStepIsSafe(was, added, staged, ignored);
    ParkingStepIsSafe(was, staged, CommitIndex(staged), ignored);
  }

  /** A parking command preserves the predecessor's work, done or cut off. */
  ghost predicate ParkingStep(was: Repo, before: Repo, done: Repo, ignored: Path -> bool)
    requires was.Valid() && before.Valid()
  {
    && done.Valid() && Preserved(was, done, ignored)
    && forall left: Repo :: Interrupted(before, done, left, true) ==> Preserved(was, left, ignored)
  }

  lemma ParkingStepIsSafe(was: Repo, before: Repo, done: Repo, ignored: Path -> bool)
    requires was.Valid() && before.Valid() && done.Valid() && done.work == was.work && before.work == was.work
    requires Grown(was, before) && Grown(was, done) && Named(was, done)
    requires before.HeadCommit() == was.HeadCommit() && (before == was || (Named(was, before) && done.head == before.head))
    requires before == was ==> done.head.Attached? && done.head.branch !in was.heads
    ensures ParkingStep(was, before, done, ignored)
  {
    UntouchedIsPreserved(was, done, ignored);
    forall left: Repo | Interrupted(before, done, left, true) ensures Preserved(was, left, ignored) {
      CutParkingIsSafe(was, before, done, left, ignored);
    }
  }

  /** Once the leftovers are safe, fetching, detaching and cleaning lose nothing on the way to a fresh base. */
  lemma ResetIsSafe(was: Repo, dirty: bool, ignored: Path -> bool, safe: Repo, fetched: Repo)
    requires was.Valid() && fetched.Valid() && Fetched(safe, fetched)
    requires SafeToReset(was, safe, ignored) && safe.work == was.work
    requires IndexTracks(was, dirty, ignored, safe.index)
    ensures Preserved(was, fetched, ignored)
    ensures forall left: Repo :: Interrupted(safe, fetched, left, true) ==> Preserved(was, left, ignored)
    ensures forall left: Repo :: Interrupted(fetched, DetachAtOrigin(fetched), left, false) ==> Preserved(was, left, ignored)
    ensures forall left: Repo :: Interrupted(DetachAtOrigin(fetched), Clean(DetachAtOrigin(fetched)), left, false) ==>
                                   Preserved(was, left, ignored)
    ensures var detached := DetachAtOrigin(fetched); detached.Valid() && Preserved(was, detached, ignored)
    ensures var now := Clean(DetachAtOrigin(fetched));
            && now.Valid() && Preserved(was, now, ignored) && SafeToReset(was, now, ignored)
            && FreshBase(was, dirty, ignored, now)
            && now.commits == fetched.commits && now.origin == fetched.origin && now.heads == safe.heads
  {
    SafetyLasts(was, safe, fetched, ignored);
    SafetyLasts(was, safe, DetachAtOrigin(fetched), ignored);
    ResetGivesFreshBase(was, dirty, ignored, fetched);
    SafetyLasts(was, safe, Clean(DetachAtOrigin(fetched)), ignored);
    forall left: Repo | left.Valid() && safe.commits <= left.commits && left.heads == safe.heads
      ensures Preserved(was, left, ignored)
    {
      SafetyLasts(was, safe, left, ignored);
    }
  }

  // Probing: what git answers, and what a silent answer costs.

  /** A git command run for its answer: its exit code, a signal counting as -1, and whether it printed
      anything; or no answer at all, when it could not be started or ran out of time. */
  datatype Answer = Exited(code: int, output: bool) | Unanswered {
    predicate Fine() { Exited? && code == 0 }
  }

  /** What git vouches for: answers with exit code zero. */
  ghost predicate Truthful(r: Repo, ignored: Path -> bool, status: Answer, symbolic: Answer, mergeBase: Answer)
    requires r.Valid()
  {
    && (status.Exited? && status.code == 0 ==> (status.output <==> Dirty(r, ignored)))
    && (symbolic.Exited? && symbolic.code == 0 ==> r.head.Attached?)
    && (mergeBase.Exited? && mergeBase.code == 0 ==> Reaches(r.commits, r.origin, r.HeadCommit()))
  }

  /** A `git status` that fails and prints nothing, which the program takes for a clean checkout. */
  predicate FailsSilently(status: Answer) {
    status.Exited? && status.code != 0 && !status.output
  }

  /** The work survives even a status that fails silently: there is none, or a branch holds it already. */
  ghost predicate Covered(was: Repo, ignored: Path -> bool)
    requires was.Valid()
  {
    NothingLeft(was, ignored) || Parked(was, was, ignored)
  }

  lemma {:induction false} ReachesOnlyOld(commits: seq<Commit>, more: seq<Commit>, from: nat, to: nat)
    requires from < |commits| && Reaches(commits + more, from, to)
    ensures to <= from && Reaches(commits, from, to)
    decreases from
  {
    if from != to {
      var all := commits + more;
      assert all[from] == commits[from];
      var k :| 0 <= k < |all[from].parents| && all[from].parents[k] < from && Reaches(all, all[from].parents[k], to);
      ReachesOnlyOld(commits, more, all[from].parents[k], to);
    }
  }

  /** New commits that no branch reaches park nothing. */
  lemma FetchParksNothing(was: Repo, safe: Repo, later: Repo, ignored: Path -> bool)
    requires safe.Valid() && safe.commits <= later.commits && later.heads == safe.heads && Parked(was, later, ignored)
    ensures Parked(was, safe, ignored)
  {
    var more := later.commits[|safe.commits|..];
    assert later.commits == safe.commits + more;
    var b, c: nat :| b in later.heads && c < |later.commits| && Reaches(later.commits, later.heads[b], c)
                     && Holds(later.commits[c].tree, was, ignored);
    ReachesOnlyOld(safe.commits, more, safe.heads[b], c);
    assert later.commits[c] == safe.commits[c];
  }

  /** A default branch whose one file differs from the leftover at `p`. */
  function FetchedOver(safe: Repo, was: Repo, p: Path): Repo {
    var text := if p in was.work then was.work[p] + "!" else "";
    safe.(commits := safe.commits + [Commit([], map[p := text])], origin := |safe.commits|)
  }

  lemma FetchOverLeftover(was: Repo, safe: Repo, ignored: Path -> bool, p: Path)
    requires was.Valid() && safe.Valid() && Leftover(was, ignored, p) && !Parked(was, safe, ignored)
    ensures var f := FetchedOver(safe, was, p);
            && f.Valid() && Fetched(safe, f) && Clean(DetachAtOrigin(f)).Valid()
            && !Preserved(was, Clean(DetachAtOrigin(f)), ignored)
  {
    var f := FetchedOver(safe, was, p);
    var now := Clean(DetachAtOrigin(f));
    assert f.commits[..|safe.commits|] == safe.commits;
    assert f.commits[f.origin].tree == map[p := f.commits[f.origin].tree[p]];
    assert At(now.work, p) == Some(f.commits[f.origin].tree[p]) != At(was.work, p) by {
      if p in was.work { assert |f.commits[f.origin].tree[p]| == |was.work[p]| + 1; }
    }
    assert !Holds(now.work, was, ignored);
    if Parked(was, now, ignored) { FetchParksNothing(was, safe, now, ignored); }
  }

  /** When the parking commits nothing, the reset preserves the predecessor's work whatever was fetched
      if and only if there was none, or a branch held it already. */
  lemma UnparkedSurvivesIff(was: Repo, safe: Repo, ignored: Path -> bool)
    requires was.Valid() && safe.Valid() && Grown(was, safe) && Named(was, safe)
    ensures (forall f: Repo | f.Valid() && Fetched(safe, f) ::
               Clean(DetachAtOrigin(f)).Valid() && Preserved(was, Clean(DetachAtOrigin(f)), ignored))
            <==> NothingLeft(was, ignored) || Parked(was, safe, ignored)
  {
    if NothingLeft(was, ignored) || Parked(was, safe, ignored) {
      forall f: Repo | f.Valid() && Fetched(safe, f)
        ensures Clean(DetachAtOrigin(f)).Valid() && Preserved(was, Clean(DetachAtOrigin(f)), ignored)
      {
        SafetyLasts(was, safe, Clean(DetachAtOrigin(f)), ignored);
      }
    } else {
      var p: Path :| Leftover(was, ignored, p);
      FetchOverLeftover(was, safe, ignored, p);
    }
  }

  /** Naming HEAD parks nothing that was not parked. */
  lemma NamingParksNothing(was: Repo, name: string, ignored: Path -> bool)
    requires was.Valid() && name !in was.heads
    ensures Parked(was, was, ignored) ==> Parked(was, NewBranch(was, name), ignored)
  {
    var now := NewBranch(was, name);
    if Parked(was, was, ignored) {
      var b, c: nat :| b in was.heads && c < |was.commits| && Reaches(was.commits, was.heads[b], c)
                       && Holds(was.commits[c].tree, was, ignored);
      assert now.heads[b] == was.heads[b] && Reaches(now.commits, now.heads[b], c);
    }
  }

  /** One new file on an attached, otherwise clean checkout: a status that fails silently loses it. */
  lemma SilentStatusLosesAFile(file: Path, text: string) returns (was: Repo)
    requires file != [] && !AnyCache(file)
    ensures var none := (p: Path) => false;
            && was.Valid() && was.head.Attached? && Dirty(was, none) && !Stranded(was) && Fetched(was, was)
            && Clean(DetachAtOrigin(was)).Valid() && !Preserved(was, Clean(DetachAtOrigin(was)), none)
  {
    var none := (p: Path) => false;
    was := Repo([Commit([], map[])], map["m" := 0], Attached("m"), 0, map[], map[file := text]);
    var now := Clean(DetachAtOrigin(was));
    assert !RootCache(file);
    assert Reported(was, none, file) && Leftover(was, none, file);
    assert At(now.work, file) == None && At(was.work, file) == Some(text);
    assert forall c: nat | c < |was.commits| :: At(was.commits[c].tree, file) == None;
  }

  /** A new clone, at its best: the remote has every commit the old checkout had. It has the default
      branch only, and no work. */
  ghost predicate ClonedFrom(was: Repo, main: string, clone: Repo) {
    && clone.Valid() && was.commits <= clone.commits
    && clone.heads == map[main := clone.origin] && clone.head == Attached(main)
    && clone.index == clone.work == clone.commits[clone.origin].tree
  }

  /** The clone of a remote whose default branch is a new commit with one file. */
  function ClonedOver(was: Repo, main: string, p: Path): Repo {
    var f := FetchedOver(was, was, p);
    f.(heads := map[main := f.origin], head := Attached(main), index := f.commits[f.origin].tree, work := f.commits[f.origin].tree)
  }

  lemma OnlyItself(was: Repo, main: string, p: Path, c: nat)
    requires was.Valid()
    ensures var clone := ClonedOver(was, main, p);
            ClonedFrom(was, main, clone) && (Reaches(clone.commits, clone.origin, c) ==> c == clone.origin == |was.commits|)
  {
    var clone := ClonedOver(was, main, p);
    assert clone.commits[clone.origin].parents == [];
    assert clone.commits[..|was.commits|] == was.commits;
  }

  lemma CloneOverWork(was: Repo, main: string, p: Path, ignored: Path -> bool)
    requires was.Valid() && Preserved(was, ClonedOver(was, main, p), ignored)
    ensures was.heads == map[] && Reaches(was.commits, was.origin, was.HeadCommit()) && !Leftover(was, ignored, p)
  {
    var clone := ClonedOver(was, main, p);
    var n := |was.commits|;
    forall c: nat ensures Reaches(clone.commits, n, c) ==> c == n { OnlyItself(was, main, p, c); }
    assert was.heads == map[];
    assert clone.commits == was.commits + clone.commits[n..];
    assert Reaches(clone.commits, was.origin, was.HeadCommit());
    ReachesOnlyOld(was.commits, clone.commits[n..], was.origin, was.HeadCommit());
    var tree := clone.commits[n].tree;
    assert p in was.work ==> |tree[p]| == |was.work[p]| + 1;
    assert At(tree, p) != At(was.work, p);
  }

  /** A checkout that is removed and cloned anew keeps the predecessor's work for certain if and only if
      it had no branch, no work, and a HEAD the default branch contains. */
  lemma RemovalSurvivesIff(was: Repo, main: string, ignored: Path -> bool)
    requires was.Valid()
    ensures (forall clone: Repo | ClonedFrom(was, main, clone) :: Preserved(was, clone, ignored))
            <==> was.heads == map[] && Reaches(was.commits, was.origin, was.HeadCommit()) && NothingLeft(was, ignored)
  {
    if was.heads == map[] && Reaches(was.commits, was.origin, was.HeadCommit()) && NothingLeft(was, ignored) {
      forall clone: Repo | ClonedFrom(was, main, clone) ensures Preserved(was, clone, ignored) {
        assert clone.commits == was.commits + clone.commits[|was.commits|..];
        ReachesGrows(was.commits, clone.commits[|was.commits|..], was.origin, was.HeadCommit());
      }
    }
    if forall clone: Repo | ClonedFrom(was, main, clone) :: Preserved(was, clone, ignored) {
      forall p: Path
        ensures was.heads == map[] && Reaches(was.commits, was.origin, was.HeadCommit()) && !Leftover(was, ignored, p)
      {
        OnlyItself(was, main, p, 0);
        CloneOverWork(was, main, p, ignored);
      }
      OnlyItself(was, main, [], 0);
      CloneOverWork(was, main, [], ignored);
    }
  }

  lemma ResetIsValid(fetched: Repo)
    requires fetched.Valid()
    ensures DetachAtOrigin(fetched).Valid() && Clean(DetachAtOrigin(fetched)).Valid()
    ensures var now := Clean(DetachAtOrigin(fetched));
            now.commits == fetched.commits && now.origin == fetched.origin && now.heads == fetched.heads
  {
  }

  /** The branches are those of `was`, but for `name`. */
  predicate NamesOnly(was: Repo, now: Repo, name: string) {
    now.heads.Keys == was.heads.Keys + {name} && forall b | b in was.heads && b != name :: now.heads[b] == was.heads[b]
  }

  /** What is parked under `name`: all leftovers as one commit on the old HEAD, or the stranded HEAD itself. */
  ghost predicate ParkedUnder(was: Repo, now: Repo, ignored: Path -> bool, name: string, dirty: bool)
    requires was.Valid() && now.Valid()
  {
    && name in now.heads && name !in was.heads && NamesOnly(was, now, name)
    && var c := now.heads[name];
       if dirty then
         && now.commits[c].parents == [was.HeadCommit()] && Snapshot(now.commits[c].tree, was, ignored)
         && forall p: Path | RootCache(p) :: At(now.commits[c].tree, p) == At(was.HeadTree(), p)
       else c == was.HeadCommit()
  }

  lemma StaysParked(was: Repo, now: Repo, later: Repo, ignored: Path -> bool, name: string, dirty: bool)
    requires was.Valid() && now.Valid() && later.Valid() && ParkedUnder(was, now, ignored, name, dirty)
    requires now.commits <= later.commits && later.heads == now.heads
    ensures ParkedUnder(was, later, ignored, name, dirty)
  {
    assert later.commits[now.heads[name]] == now.commits[now.heads[name]];
    hide Snapshot;
  }

  /** Whether the answers let the parking go its way, and what it needs then. */
  predicate Parks(status: Answer, symbolic: Answer, mergeBase: Answer) {
    status.Exited? && (status.output || IsStranded(symbolic, mergeBase))
  }

  predicate Answered(status: Answer, symbolic: Answer, mergeBase: Answer) {
    status.Exited? && symbolic.Exited? && (symbolic.code != 0 ==> mergeBase.Exited?)
  }

  /** The parking succeeds: the probes answered and, when there is something to park, the name is free and
      the commands work. */
  predicate ParkingWorks(works: nat -> bool, was: Repo, name: string, status: Answer, symbolic: Answer, mergeBase: Answer) {
    && Answered(status, symbolic, mergeBase)
    && (Parks(status, symbolic, mergeBase) ==> name !in was.heads && works(0))
    && (status.output ==> works(1) && works(2) && works(3))
  }

  predicate ResetWorks(works: nat -> bool) {
    works(4) && works(5) && works(6)
  }

  /** The checkout on disk, changed one git command at a time. Any command may fail or be killed, which
      leaves what the commands before it did and any part of its own work. */
  class Worktree {
    var repo: Repo
    /** Whether the directory still holds a checkout. */
    var intact: bool
    const ignored: Path -> bool
    const works: nat -> bool
    const cut: (nat, Repo, Repo) -> Repo
    const fetch: Repo -> Repo

    constructor (repo: Repo, ignored: Path -> bool, works: nat -> bool, cut: (nat, Repo, Repo) -> Repo, fetch: Repo -> Repo)
      ensures intact && this.repo == repo && this.ignored == ignored && this.works == works && this.cut == cut && this.fetch == fetch
    {
      intact, this.repo, this.ignored, this.works, this.cut, this.fetch := true, repo, ignored, works, cut, fetch;
    }

    /** What git may do when it is cut off; only the detach and the clean write to the working tree. */
    ghost predicate CutsFairly() {
      forall n: nat, before: Repo, done: Repo | before.Valid() && done.Valid() ::
        Interrupted(before, done, cut(n, before, done), n <= 4)
    }

    /** `now` is the reset, over this fetch, of a repository with the files of `was` and a name for its HEAD. */
    ghost predicate IsResetOf(was: Repo, now: Repo)
      requires was.Valid()
    {
      exists r: Repo :: r.Valid() && r.work == was.work && Named(was, r) && fetch(r).Valid()
                        && now == Clean(DetachAtOrigin(fetch(r))) && now.heads == r.heads
    }

    /** Run command `n`, which would lead to `done`. */
    method Do(n: nat, done: Repo) returns (ok: bool)
      modifies this`repo
      ensures ok == works(n) && repo == if ok then done else cut(n, old(repo), done)
    {
      ok := works(n);
      repo := if ok then done else cut(n, repo, done);
    }

    /** Stage everything but the caches and commit it on the current, new branch. */
    method CommitLeftovers(ghost was: Repo) returns (ok: bool)
      requires was.Valid() && repo.Valid() && repo.head.Attached? && repo.head.branch !in was.heads
      requires repo == NewBranch(was, repo.head.branch) && CutsFairly()
      modifies this`repo
      ensures repo.Valid() && Preserved(was, repo, ignored)
      ensures ok <==> works(1) && works(2) && works(3)
      ensures ok ==> repo.head == old(repo).head && NamesOnly(old(repo), repo, repo.head.branch)
      ensures ok ==> repo.commits[repo.HeadCommit()].parents == [was.HeadCommit()]
      ensures ok ==> SafeToReset(was, repo, ignored) && repo.work == was.work && repo.origin == was.origin
      ensures ok ==> IndexTracks(was, true, ignored, repo.index)
      ensures ok ==> Snapshot(repo.commits[repo.HeadCommit()].tree, was, ignored)
      ensures ok ==> forall p: Path | RootCache(p) :: At(repo.commits[repo.HeadCommit()].tree, p) == At(was.HeadTree(), p)
    {
      ParkingIsSafe(was, repo.head.branch, ignored);
      hide AddAll, ResetCaches, CommitIndex, NewBranch, Preserved, SafeToReset, IndexTracks, Snapshot, Interrupted;
      ok := Do(1, AddAll(repo, ignored));
      if !ok { return; }
      ok := Do(2, ResetCaches(repo));
      if !ok { return; }
      ok := Do(3, CommitIndex(repo));
    }

    /** Give HEAD a branch and, when the checkout is dirty, commit what is left over there. */
    method Park(name: string, dirty: bool) returns (ok: bool)
      requires repo.Valid() && CutsFairly()
      modifies this`repo
      ensures repo.Valid() && Preserved(old(repo), repo, ignored)
      ensures ok <==> name !in old(repo).heads && works(0) && (dirty ==> works(1) && works(2) && works(3))
      ensures ok ==> Grown(old(repo), repo) && Named(old(repo), repo) && ParkedUnder(old(repo), repo, ignored, name, dirty)
      ensures ok ==> repo.work == old(repo).work && repo.origin == old(repo).origin
      ensures ok && (dirty || Covered(old(repo), ignored)) ==> SafeToReset(old(repo), repo, ignored)
      ensures ok ==> IndexTracks(old(repo), dirty, ignored, repo.index)
    {
      ghost var was := repo;
      UntouchedIsPreserved(was, was, ignored);
      if name in repo.heads { return false; }
      ParkingIsSafe(was, name, ignored);
      BranchNames(was, name);
      NamingParksNothing(was, name, ignored);
      hide Preserved, Snapshot, Named;
      ok := Do(0, NewBranch(repo, name));
      if ok && dirty { ok := CommitLeftovers(was); }
    }

    /** Park a predecessor's leftovers, as `status`, `symbolic-ref` and `merge-base` answer. Only the
        first's output and the others' exit codes are looked at. */
    method ParkLeftovers(name: string, status: Answer, symbolic: Answer, mergeBase: Answer)
      returns (ok: bool, parked: Option<string>)
      requires repo.Valid() && Truthful(repo, ignored, status, symbolic, mergeBase) && CutsFairly()
      modifies this`repo
      ensures repo.Valid() && Preserved(old(repo), repo, ignored)
      ensures ok <==> ParkingWorks(works, old(repo), name, status, symbolic, mergeBase)
      ensures ok ==> Grown(old(repo), repo) && Named(old(repo), repo)
      ensures ok ==> repo.work == old(repo).work && repo.origin == old(repo).origin
      ensures ok && (FailsSilently(status) ==> Covered(old(repo), ignored)) ==> SafeToReset(old(repo), repo, ignored)
      ensures ok ==> status.Exited? && IndexTracks(old(repo), status.output, ignored, repo.index)
      ensures ok ==> parked == if status.output || IsStranded(symbolic, mergeBase) then Some(name) else None
      ensures ok && parked.Some? ==> ParkedUnder(old(repo), repo, ignored, name, status.output)
      ensures ok && parked.None? ==> repo == old(repo)
    {
      ghost var was := repo;
      UntouchedIsPreserved(was, was, ignored);
      if status.Unanswered? { return false, None; }
      var dirty := status.output;
      if symbolic.Unanswered? { return false, None; }
      var stranded := false;
      if symbolic.code != 0 {
        if mergeBase.Unanswered? { return false, None; }
        stranded := mergeBase.code != 0;
      }
      if !dirty && status.Exited? && status.code == 0 { CleanHasNoLeftovers(was, ignored); }
      if !dirty && !stranded {
        AttachedIsNamed(was);
        return true, None;
      }
      hide Preserved, SafeToReset, Named, ParkedUnder, Covered, Dirty, Stranded, Grown;
      parked := Some(name);
      ok := Park(name, dirty);
    }

    /** Fetch, detach at the remote's default branch, clean; `covered` when the parking took care of `was`. */
    method FetchAndReset(ghost was: Repo, ghost dirty: bool, ghost covered: bool) returns (ok: bool)
      requires was.Valid() && repo.Valid() && repo.work == was.work && IndexTracks(was, dirty, ignored, repo.index)
      requires covered ==> SafeToReset(was, repo, ignored)
      requires CutsFairly() && forall r: Repo | r.Valid() :: fetch(r).Valid() && Fetched(r, fetch(r))
      modifies this`repo
      ensures repo.Valid() && (covered ==> Preserved(was, repo, ignored))
      ensures ok <==> ResetWorks(works)
      ensures ok ==> old(repo).commits <= repo.commits
      ensures ok ==> FreshBase(was, dirty, ignored, repo) && (covered ==> SafeToReset(was, repo, ignored))
      ensures ok ==> repo == Clean(DetachAtOrigin(fetch(old(repo)))) && repo.heads == old(repo).heads
    {
      ghost var safe := repo;
      ghost var fetched := fetch(safe);
      if covered { ResetIsSafe(was, dirty, ignored, safe, fetched); }
      ResetGivesFreshBase(was, dirty, ignored, fetched);
      ResetIsValid(fetched);
      hide DetachAtOrigin, Clean, FreshBase, IndexTracks, Preserved, SafeToReset;
      InterruptedIsValid(safe, fetched, cut(4, safe, fetched), true);
      InterruptedIsValid(fetched, DetachAtOrigin(fetched), cut(5, fetched, DetachAtOrigin(fetched)), false);
      InterruptedIsValid(DetachAtOrigin(fetched), Clean(DetachAtOrigin(fetched)),
                         cut(6, DetachAtOrigin(fetched), Clean(DetachAtOrigin(fetched))), false);
      hide Interrupted;
      ok := Do(4, fetch(repo));
      if !ok { return; }
      ok := Do(5, DetachAtOrigin(repo));
      if !ok { return; }
      ok := Do(6, Clean(repo));
    }

    /** The way of a checkout that is there: park, then fetch and reset. */
    method PrepareExisting(name: string, status: Answer, symbolic: Answer, mergeBase: Answer)
      returns (ok: bool, parked: Option<string>)
      requires repo.Valid() && Truthful(repo, ignored, status, symbolic, mergeBase)
      requires CutsFairly() && forall r: Repo | r.Valid() :: fetch(r).Valid() && Fetched(r, fetch(r))
      modifies this`repo
      ensures repo.Valid()
      ensures ok <==> ParkingWorks(works, old(repo), name, status, symbolic, mergeBase) && ResetWorks(works)
      ensures (FailsSilently(status) ==> Covered(old(repo), ignored)) ==> Preserved(old(repo), repo, ignored)
      ensures ok && (FailsSilently(status) ==> Covered(old(repo), ignored)) ==> SafeToReset(old(repo), repo, ignored)
      ensures ok ==> status.Exited? && FreshBase(old(repo), status.output, ignored, repo)
      ensures ok ==> IsResetOf(old(repo), repo)
      ensures ok ==> parked == if status.output || IsStranded(symbolic, mergeBase) then Some(name) else None
      ensures ok && parked.Some? ==> ParkedUnder(old(repo), repo, ignored, name, status.output)
      ensures ok && parked.None? ==> repo.heads == old(repo).heads
    {
      hide Covered, Truthful, Named, Dirty, Stranded, DetachAtOrigin, Clean, FreshBase, Preserved, SafeToReset, Interrupted;
      hide NewBranch, Snapshot, Grown, IndexTracks, ParkedUnder, ParkingWorks;
      ghost var was := repo;
      ok, parked := ParkLeftovers(name, status, symbolic, mergeBase);
      if !ok { return; }
      ghost var safe := repo;
      assert safe.Valid() && safe.work == was.work && Named(was, safe);
      ok := FetchAndReset(was, status.output, FailsSilently(status) ==> Covered(was, ignored));
      if ok && parked.Some? { StaysParked(was, safe, repo, ignored, name, status.output); }
    }

    /** The way of a checkout that is taken for broken: it is removed and cloned anew. */
    method PrepareClone(removed: bool, clone: Option<Repo>) returns (ok: bool)
      requires clone.Some? ==> clone.value.Valid()
      requires CutsFairly() && forall r: Repo | r.Valid() :: fetch(r).Valid() && Fetched(r, fetch(r))
      modifies this
      ensures intact ==> repo.Valid()
      ensures ok <==> removed && clone.Some? && ResetWorks(works)
      ensures ok ==> intact && clone.Some? && FreshBase(clone.value, false, ignored, repo)
      ensures ok ==> repo == Clean(DetachAtOrigin(fetch(clone.value))) && repo.heads == clone.value.heads
    {
      hide DetachAtOrigin, Clean, FreshBase, Preserved, SafeToReset, Interrupted;
      intact := false;
      if !removed || clone.None? { return false; }
      repo, intact := clone.value, true;
      ok := FetchAndReset(clone.value, false, false);
    }

    /** Prepare the checkout. A `rev-parse` that does not exit with zero has the directory removed and
        cloned anew: `removed` says whether the removal worked, `clone` what the new clone is, if that worked. */
    method PrepareAt(name: string, probe: Answer, removed: bool, clone: Option<Repo>,
                     status: Answer, symbolic: Answer, mergeBase: Answer)
      returns (ok: bool, parked: Option<string>)
      requires intact && repo.Valid() && Truthful(repo, ignored, status, symbolic, mergeBase)
      requires CutsFairly() && forall r: Repo | r.Valid() :: fetch(r).Valid() && Fetched(r, fetch(r))
      requires clone.Some? ==> clone.value.Valid()
      modifies this
      ensures (intact ==> repo.Valid()) && (probe.Fine() || ok ==> intact)
      // It succeeds exactly when everything it needs does.
      ensures ok <==> ResetWorks(works) && if probe.Fine() then ParkingWorks(works, old(repo), name, status, symbolic, mergeBase)
                                           else removed && clone.Some?
      // Wherever a command is cut off, unless the status failed silently over uncovered work.
      ensures probe.Fine() && (FailsSilently(status) ==> Covered(old(repo), ignored)) ==>
                Preserved(old(repo), repo, ignored) && (ok ==> SafeToReset(old(repo), repo, ignored))
      ensures ok && probe.Fine() ==>
                && status.Exited? && FreshBase(old(repo), status.output, ignored, repo)
                && parked == (if status.output || IsStranded(symbolic, mergeBase) then Some(name) else None)
                && (if parked.Some? then ParkedUnder(old(repo), repo, ignored, name, status.output)
                    else repo.heads == old(repo).heads)
                && IsResetOf(old(repo), repo)
      ensures ok && !probe.Fine() ==>
                && clone.Some? && parked == None && FreshBase(clone.value, false, ignored, repo)
                && repo == Clean(DetachAtOrigin(fetch(clone.value))) && repo.heads == clone.value.heads
    {
      hide Covered, Truthful, Named, DetachAtOrigin, Clean, FreshBase, Preserved, SafeToReset, Interrupted, ParkedUnder, ParkingWorks;
      hide IsResetOf, CutsFairly, FailsSilently, ResetWorks, IsStranded, Fetched, Repo.Valid;
      parked := None;
      if probe.Exited? && probe.code == 0 {
        ok, parked := PrepareExisting(name, status, symbolic, mergeBase);
      } else {
        ok := PrepareClone(removed, clone);
      }
    }
  }

  lemma InterruptedIsValid(before: Repo, done: Repo, left: Repo, sparesWork: bool)
    requires Interrupted(before, done, left, sparesWork)
    ensures left.Valid()
  {
  }

  /** What the two probes after `status` say together. */
  predicate IsStranded(symbolic: Answer, mergeBase: Answer) {
    symbolic.Exited? && symbolic.code != 0 && mergeBase.Exited? && mergeBase.code != 0
  }
}
