/** What a poll of several recipes reports, and what it would report from one atomic look at all of them. */
module Polling {
  import opened ComposeApi
  import opened Operations

  type Statuses = map<Id, string>

  /** The state of one recipe. A recipe Compose has not registered yet is still to come. */
  function StateOf(statuses: Statuses, id: Id): State {
    if id in statuses then LookupState(statuses[id]) else InProgress
  }

  predicate Complete(statuses: Statuses, id: Id) {
    id in statuses && statuses[id] == "complete"
  }

  /** Position of the first recipe that has not succeeded. */
  function Frontier(statuses: Statuses, ids: seq<Id>): (k: nat)
    ensures k <= |ids|
    ensures forall j :: 0 <= j < k ==> StateOf(statuses, ids[j]) == Succeeded
    ensures k < |ids| ==> StateOf(statuses, ids[k]) != Succeeded
  {
    if ids == [] || StateOf(statuses, ids[0]) != Succeeded then 0 else 1 + Frontier(statuses, ids[1..])
  }

  /** The verdict of an atomic snapshot. */
  function Verdict(statuses: Statuses, ids: seq<Id>): State {
    var k := Frontier(statuses, ids);
    if k == |ids| then Succeeded else StateOf(statuses, ids[k])
  }

  function InProgressCount(statuses: Statuses, ids: seq<Id>): nat {
    if ids == [] then 0
    else (if StateOf(statuses, ids[0]) == InProgress then 1 else 0) + InProgressCount(statuses, ids[1..])
  }

  /** A recipe that has succeeded stays succeeded. */
  ghost predicate SuccessSticks(s: Statuses, s': Statuses) {
    forall id :: id in s ==> id in s' && (LookupState(s[id]) == Succeeded ==> LookupState(s'[id]) == Succeeded)
  }

  /** A recipe that has failed stays failed. */
  ghost predicate FailureSticks(s: Statuses, s': Statuses) {
    forall id :: id in s ==> id in s' && (LookupState(s[id]) == Failed ==> LookupState(s'[id]) == Failed)
  }

  lemma FrontierIs(statuses: Statuses, ids: seq<Id>, k: nat)
    requires k <= |ids|
    requires forall j :: 0 <= j < k ==> StateOf(statuses, ids[j]) == Succeeded
    requires k < |ids| ==> StateOf(statuses, ids[k]) != Succeeded
    ensures Frontier(statuses, ids) == k
  {
    var f := Frontier(statuses, ids);
    if f < k {
      assert false;
    }
  }

  /** Reading the recipe after k succeeded ones settles the verdict, unless it has succeeded and others follow. */
  lemma ReadSettles(statuses: Statuses, ids: seq<Id>, k: nat)
    requires k < |ids| && forall j :: 0 <= j < k ==> StateOf(statuses, ids[j]) == Succeeded
    requires StateOf(statuses, ids[k]) != Succeeded || k + 1 == |ids|
    ensures Verdict(statuses, ids) == StateOf(statuses, ids[k])
  {
    FrontierIs(statuses, ids, if StateOf(statuses, ids[k]) == Succeeded then |ids| else k);
  }

  lemma SuccessTransitively(s0: Statuses, s1: Statuses, s2: Statuses)
    requires SuccessSticks(s0, s1) && SuccessSticks(s1, s2)
    ensures SuccessSticks(s0, s2)
  {
  }

  lemma {:induction false} VerdictSkips(statuses: Statuses, ids: seq<Id>, k: nat)
    requires k <= |ids| && forall j :: 0 <= j < k ==> StateOf(statuses, ids[j]) == Succeeded
    ensures Verdict(statuses, ids) == Verdict(statuses, ids[k..])
  {
    if k > 0 {
      VerdictSkips(statuses, ids[1..], k - 1);
      assert ids[1..][k - 1..] == ids[k..];
    } else {
      assert ids[0..] == ids;
    }
  }

  /** What a later verdict comes down to: the state of what was the first unfinished recipe, and of those after it. */
  function VerdictFrom(statuses: Statuses, ids: seq<Id>, k: nat): State
    requires k <= |ids|
  {
    if k < |ids| && StateOf(statuses, ids[k]) != Succeeded then StateOf(statuses, ids[k])
    else Verdict(statuses, if k < |ids| then ids[k + 1..] else [])
  }

  /** Where success sticks, the frontier never moves back and it alone decides whether an earlier verdict changes. */
  lemma {:induction false} FrontierAdvances(s: Statuses, s': Statuses, ids: seq<Id>)
    requires SuccessSticks(s, s')
    ensures Frontier(s, ids) <= Frontier(s', ids)
    ensures Verdict(s', ids) == VerdictFrom(s', ids, Frontier(s, ids))
  {
    var k := Frontier(s, ids);
    assert forall j :: 0 <= j < k ==> StateOf(s', ids[j]) == Succeeded;
    VerdictSkips(s', ids, k);
    if k < |ids| && StateOf(s', ids[k]) == Succeeded {
      VerdictSkips(s', ids, k + 1);
    }
  }

  /** If failure sticks as well, no final verdict is ever retracted. */
  lemma {:induction false} VerdictStable(s: Statuses, s': Statuses, ids: seq<Id>)
    requires SuccessSticks(s, s') && FailureSticks(s, s')
    ensures Stable(s, s', ids, Verdict(s, ids), Verdict(s', ids))
  {
    FrontierAdvances(s, s', ids);
    InProgressCountFalls(s, s', ids);
  }

  /** The number of unfinished recipes never rises, and falls as soon as one of them finishes. */
  lemma {:induction false} InProgressCountFalls(s: Statuses, s': Statuses, ids: seq<Id>)
    requires SuccessSticks(s, s') && FailureSticks(s, s')
    ensures InProgressCount(s', ids) <= InProgressCount(s, ids)
    ensures (exists id :: id in ids && StateOf(s, id) == InProgress && StateOf(s', id) != InProgress) ==>
              InProgressCount(s', ids) < InProgressCount(s, ids)
  {
    if ids != [] {
      InProgressCountFalls(s, s', ids[1..]);
      assert forall id :: id in ids ==> id == ids[0] || id in ids[1..];
    }
  }

  lemma {:induction false} NoneInProgress(statuses: Statuses, ids: seq<Id>)
    ensures InProgressCount(statuses, ids) == 0 <==>
            forall id :: id in ids ==> StateOf(statuses, id) != InProgress
  {
    if ids != [] {
      NoneInProgress(statuses, ids[1..]);
      assert forall id :: id in ids <==> id == ids[0] || id in ids[1..];
    }
  }

  /** Once nothing is in progress the order of the recipes no longer matters: all succeeded, or failed. */
  lemma {:induction false} FinalVerdict(statuses: Statuses, ids: seq<Id>)
    requires InProgressCount(statuses, ids) == 0
    ensures Verdict(statuses, ids)
            == if forall id :: id in ids ==> StateOf(statuses, id) == Succeeded then Succeeded else Failed
  {
    NoneInProgress(statuses, ids);
    var k := Frontier(statuses, ids);
    if k < |ids| {
      assert ids[k] in ids;
    }
  }

  /** What two polls of the same recipes owe each other: `first` from the earlier statuses, `second` from the later. */
  ghost predicate Consistent(before: Statuses, after: Statuses, ids: seq<Id>, first: State, second: State) {
    && Frontier(before, ids) <= Frontier(after, ids)
    && (first == Succeeded ==> second == Succeeded)
    && second == VerdictFrom(after, ids, Frontier(before, ids))
    && (InProgressCount(after, ids) == 0 ==>
          second == if forall id :: id in ids ==> StateOf(after, id) == Succeeded then Succeeded else Failed)
  }

  lemma SnapshotsConsistent(before: Statuses, after: Statuses, ids: seq<Id>)
    requires SuccessSticks(before, after)
    ensures Consistent(before, after, ids, Verdict(before, ids), Verdict(after, ids))
  {
    FrontierAdvances(before, after, ids);
    if InProgressCount(after, ids) == 0 {
      FinalVerdict(after, ids);
    }
  }

  /** What they owe each other where failures are final too. */
  ghost predicate Stable(before: Statuses, after: Statuses, ids: seq<Id>, first: State, second: State) {
    && (first != InProgress ==> second == first)
    && InProgressCount(after, ids) <= InProgressCount(before, ids)
  }

  // ---------- in terms of Compose's own words ----------

  /** The k-th recipe is the first one that is not complete. */
  predicate FirstIncomplete(statuses: Statuses, ids: seq<Id>, k: nat) {
    k < |ids| && !Complete(statuses, ids[k]) && forall j :: 0 <= j < k ==> Complete(statuses, ids[j])
  }

  /** The first recipe that is not complete is there, and its status is one of these, or is none of these. */
  ghost predicate StuckAt(statuses: Statuses, ids: seq<Id>, underway: bool) {
    exists k: nat | FirstIncomplete(statuses, ids, k) ::
      ids[k] in statuses && (underway <==> statuses[ids[k]] == "running" || statuses[ids[k]] == "waiting")
  }

  /** What the statuses, as Compose words them, come to. */
  ghost predicate Told(statuses: Statuses, ids: seq<Id>, state: State) {
    && (state == Succeeded <==> forall k :: 0 <= k < |ids| ==> Complete(statuses, ids[k]))
    && (state == InProgress <==> StuckAt(statuses, ids, true))
    && (state == Failed <==> StuckAt(statuses, ids, false))
  }

  /** All recipes before the k-th are complete, and the state is read off the k-th, complete only if it is the last. */
  lemma ToldByOne(statuses: Statuses, ids: seq<Id>, k: nat, state: State)
    requires k < |ids| && ids[k] in statuses && forall j :: 0 <= j < k ==> Complete(statuses, ids[j])
    requires statuses[ids[k]] == "complete" ==> k + 1 == |ids| && state == Succeeded
    requires statuses[ids[k]] == "running" || statuses[ids[k]] == "waiting" ==> state == InProgress
    requires statuses[ids[k]] !in {"complete", "running", "waiting"} ==> state == Failed
    ensures Told(statuses, ids, state)
  {
    if statuses[ids[k]] != "complete" {
      assert FirstIncomplete(statuses, ids, k);
      forall k': nat | FirstIncomplete(statuses, ids, k')
        ensures k' == k
      {
      }
    }
  }
}
