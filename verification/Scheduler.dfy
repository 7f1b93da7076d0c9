/**
 Layering of a batch of tool calls into execution stages by resource conflict:
 the staging loop against its own placement rule, and that rule against the
 longest chain of conflicting calls.
 */
module Scheduler {
  import opened Wrappers
  import opened Paths

  datatype Effect = Read | Create | Update | Delete | Execute | ExternalNetwork | CredentialUse | Delegate

  /** The part of an invocation's claim that scheduling reads. */
  datatype Claim = Claim(effects: set<Effect>, path: Option<string>)

  datatype DecisionKind = Allow | AllowWithConstraints | RequireApproval | Deny

  datatype Call = Call(id: string, claim: Claim, kind: DecisionKind)

  datatype Batch = Batch(calls: seq<Call>, approved: seq<string>)

  predicate Writes(claim: Claim) {
    || Create in claim.effects || Update in claim.effects || Delete in claim.effects
    || Execute in claim.effects || Delegate in claim.effects
  }

  predicate Conflict(left: Claim, right: Claim) {
    && (Writes(left) || Writes(right))
    && (left.path.Some? && right.path.Some? ==> PathsMeet(left.path.value, right.path.value))
  }

  /** Claims conflict, in either order, when one writes and neither path is known to lie apart. */
  lemma ConflictIsNesting(left: Claim, right: Claim)
    ensures Conflict(left, right) == Conflict(right, left)
    ensures Conflict(left, right) <==>
              && (Writes(left) || Writes(right))
              && (left.path.None? || right.path.None?
                  || Components(left.path.value) <= Components(right.path.value)
                  || Components(right.path.value) <= Components(left.path.value))
  {
    if left.path.Some? && right.path.Some? {
      MeetIsNesting(left.path.value, right.path.value);
    }
  }

  /** The effects that write: all but reading, the network and the use of credentials. */
  const READING := {Read, ExternalNetwork, CredentialUse}

  lemma WritesExactlyWhen(claim: Claim)
    ensures Writes(claim) <==> !(claim.effects <= READING)
  {
    if !Writes(claim) {
      forall e | e in claim.effects ensures e in READING { assert e.Read? || e.ExternalNetwork? || e.CredentialUse?; }
    }
  }

  /** Two claims on one path, or on none, conflict exactly when one of them has an effect that writes. */
  lemma SamePathConflicts(left: Claim, right: Claim)
    requires left.path == right.path
    ensures Conflict(left, right) <==> !(left.effects <= READING && right.effects <= READING)
  {
    ConflictIsNesting(left, right);
    WritesExactlyWhen(left);
    WritesExactlyWhen(right);
  }

  /** What a decision permits. */
  predicate MayRun(call: Call, approved: seq<string>) {
    match call.kind
    case Allow => true
    case AllowWithConstraints => true
    case RequireApproval => call.id in approved
    case Deny => false
  }

  /** The call may run: it is allowed, or needs approval and its id was approved. */
  predicate Runs(b: Batch, i: int) {
    && 0 <= i < |b.calls|
    && (b.calls[i].kind.Allow? || b.calls[i].kind.AllowWithConstraints?
        || (b.calls[i].kind.RequireApproval? && b.calls[i].id in b.approved))
  }

  /** Call `i` must wait for call `k`. */
  predicate Waits(b: Batch, k: int, i: int) {
    k < i && Runs(b, k) && Runs(b, i) && Conflict(b.calls[k].claim, b.calls[i].claim)
  }

  function Max(a: nat, b: nat): nat { if a < b then b else a }

  // ------------------------------------------------------- the placement rule

  /** The stage the loop puts call `i` in. */
  function Place(b: Batch, i: nat): nat
    requires i < |b.calls|
    decreases i, 2, 0
  {
    PlaceUpTo(b, i, i)
  }

  /** That stage after the first `n` earlier calls: one past the first stage with each awaited call's id. */
  function PlaceUpTo(b: Batch, i: nat, n: nat): nat
    requires n <= i < |b.calls|
    decreases i, 1, n
  {
    if n == 0 then 0
    else
      var earlier := PlaceUpTo(b, i, n - 1);
      if !Waits(b, n - 1, i) then earlier
      else
        var found := FirstStage(b, b.calls[n - 1].id, i);
        if found.Some? then Max(earlier, found.value + 1) else earlier
  }

  /** The first stage that holds this id once the first `n` calls are placed. */
  function FirstStage(b: Batch, id: string, n: nat): Option<nat>
    requires n <= |b.calls|
    decreases n, 0, 0
  {
    if n == 0 then None
    else
      var earlier := FirstStage(b, id, n - 1);
      if !Runs(b, n - 1) || b.calls[n - 1].id != id then earlier
      else if earlier.Some? && earlier.value <= Place(b, n - 1) then earlier
      else Some(Place(b, n - 1))
  }

  /** The ids placed in stage `s` by the first `n` calls, in input order. */
  function StageUpTo(b: Batch, s: nat, n: nat): seq<string>
    requires n <= |b.calls|
  {
    if n == 0 then []
    else if Runs(b, n - 1) && Place(b, n - 1) == s then StageUpTo(b, s, n - 1) + [b.calls[n - 1].id]
    else StageUpTo(b, s, n - 1)
  }

  function StageCount(b: Batch, n: nat): nat
    requires n <= |b.calls|
  {
    if n == 0 then 0
    else if Runs(b, n - 1) then Max(StageCount(b, n - 1), Place(b, n - 1) + 1)
    else StageCount(b, n - 1)
  }

  ghost predicate IsPlan(b: Batch, stages: seq<seq<string>>, n: nat)
    requires n <= |b.calls|
  {
    |stages| == StageCount(b, n) && forall s :: 0 <= s < |stages| ==> stages[s] == StageUpTo(b, s, n)
  }

  // -------------------------------------------------------------------- the loop

  /** The first of the first `n` stages that contains the id. */
  function PositionUpTo(stages: seq<seq<string>>, id: string, n: nat): Option<nat>
    requires n <= |stages|
  {
    if n == 0 then None
    else
      var earlier := PositionUpTo(stages, id, n - 1);
      if earlier.Some? then earlier else if id in stages[n - 1] then Some(n - 1) else None
  }

  lemma {:induction false} PositionIsLeast(stages: seq<seq<string>>, id: string, n: nat)
    requires n <= |stages|
    ensures var r := PositionUpTo(stages, id, n);
            && (r.None? ==> forall s :: 0 <= s < n ==> id !in stages[s])
            && (r.Some? ==> r.value < n && id in stages[r.value] && forall s :: 0 <= s < r.value ==> id !in stages[s])
  {
    if n > 0 { PositionIsLeast(stages, id, n - 1); }
  }

  /** Some call below `n` placed this id in stage `s`. */
  ghost predicate PlacedIn(b: Batch, id: string, s: nat, n: nat)
    requires n <= |b.calls|
  {
    exists m :: 0 <= m < n && Runs(b, m) && b.calls[m].id == id && Place(b, m) == s
  }

  lemma {:induction false} StageHolds(b: Batch, id: string, s: nat, n: nat)
    requires n <= |b.calls|
    ensures id in StageUpTo(b, s, n) <==> PlacedIn(b, id, s, n)
  {
    if n > 0 {
      StageHolds(b, id, s, n - 1);
      if PlacedIn(b, id, s, n - 1) {
        var m :| 0 <= m < n - 1 && Runs(b, m) && b.calls[m].id == id && Place(b, m) == s;
        assert PlacedIn(b, id, s, n);
      }
      if Runs(b, n - 1) && Place(b, n - 1) == s && b.calls[n - 1].id == id {
        assert PlacedIn(b, id, s, n);
      }
    }
  }

  lemma {:induction false} FirstStageIsLeast(b: Batch, id: string, n: nat)
    requires n <= |b.calls|
    ensures var r := FirstStage(b, id, n);
            && (r.None? ==> forall m :: 0 <= m < n && Runs(b, m) ==> b.calls[m].id != id)
            && (r.Some? ==> PlacedIn(b, id, r.value, n)
                            && forall m :: 0 <= m < n && Runs(b, m) && b.calls[m].id == id ==> r.value <= Place(b, m))
  {
    if n > 0 {
      FirstStageIsLeast(b, id, n - 1);
      var earlier, r := FirstStage(b, id, n - 1), FirstStage(b, id, n);
      if earlier.Some? && r == earlier {
        var m :| 0 <= m < n - 1 && Runs(b, m) && b.calls[m].id == id && Place(b, m) == r.value;
        assert PlacedIn(b, id, r.value, n);
      }
    }
  }

  lemma {:induction false} PlacedIsCounted(b: Batch, m: nat, n: nat)
    requires m < n <= |b.calls| && Runs(b, m)
    ensures Place(b, m) < StageCount(b, n)
  {
    if m < n - 1 { PlacedIsCounted(b, m, n - 1); }
  }

  /** Searching the stages for an id finds the first stage it was placed in. */
  lemma PositionIsFirstStage(b: Batch, stages: seq<seq<string>>, id: string, n: nat)
    requires n <= |b.calls| && IsPlan(b, stages, n)
    ensures PositionUpTo(stages, id, |stages|) == FirstStage(b, id, n)
  {
    var p, f := PositionUpTo(stages, id, |stages|), FirstStage(b, id, n);
    PositionIsLeast(stages, id, |stages|);
    FirstStageIsLeast(b, id, n);
    if f.Some? {
      var m :| 0 <= m < n && Runs(b, m) && b.calls[m].id == id && Place(b, m) == f.value;
      PlacedIsCounted(b, m, n);
      StageHolds(b, id, f.value, n);
    }
    if p.Some? {
      StageHolds(b, id, p.value, n);
      var m :| 0 <= m < n && Runs(b, m) && b.calls[m].id == id && Place(b, m) == p.value;
    }
  }

  lemma {:induction false} StageBeyondIsEmpty(b: Batch, s: nat, n: nat)
    requires n <= |b.calls| && StageCount(b, n) <= s
    ensures StageUpTo(b, s, n) == []
  {
    if n > 0 { StageBeyondIsEmpty(b, s, n - 1); }
  }

  lemma RunsExactlyWhen(b: Batch, i: int)
    ensures Runs(b, i) <==> 0 <= i < |b.calls| && MayRun(b.calls[i], b.approved)
  {
  }

  /** The id is in this stage, or in some stage. */
  predicate IsIn(stages: seq<seq<string>>, s: int, id: string) {
    0 <= s < |stages| && id in stages[s]
  }

  ghost predicate IsStaged(stages: seq<seq<string>>, id: string) {
    exists s :: IsIn(stages, s, id)
  }

  /** Some call of this id may run. */
  ghost predicate MayRunSomewhere(b: Batch, id: string) {
    exists i :: 0 <= i < |b.calls| && b.calls[i].id == id && MayRun(b.calls[i], b.approved)
  }

  /** The staged ids are those of the calls that may run. */
  lemma StagedExactlyWhen(b: Batch, stages: seq<seq<string>>, id: string)
    requires IsPlan(b, stages, |b.calls|)
    ensures IsStaged(stages, id) <==> MayRunSomewhere(b, id)
  {
    if s :| IsIn(stages, s, id) {
      StageHolds(b, id, s, |b.calls|);
      var m :| 0 <= m < |b.calls| && Runs(b, m) && b.calls[m].id == id && Place(b, m) == s;
      RunsExactlyWhen(b, m);
    }
    if i :| 0 <= i < |b.calls| && b.calls[i].id == id && MayRun(b.calls[i], b.approved) {
      RunsExactlyWhen(b, i);
      PlacedIsStaged(b, stages, i);
    }
  }

  lemma PlacedIsStaged(b: Batch, stages: seq<seq<string>>, i: nat)
    requires IsPlan(b, stages, |b.calls|) && Runs(b, i)
    ensures IsIn(stages, Place(b, i), b.calls[i].id)
  {
    PlacedIsCounted(b, i, |b.calls|);
    assert PlacedIn(b, b.calls[i].id, Place(b, i), |b.calls|);
    StageHolds(b, b.calls[i].id, Place(b, i), |b.calls|);
  }

  method ExecutionStages(b: Batch) returns (stages: seq<seq<string>>)
    ensures IsPlan(b, stages, |b.calls|)
    ensures forall id :: IsStaged(stages, id) <==> MayRunSomewhere(b, id)
  {
    stages := Stages(b);
    forall id ensures IsStaged(stages, id) <==> MayRunSomewhere(b, id) { StagedExactlyWhen(b, stages, id); }
  }

  /** The staging loop. */
  method Stages(b: Batch) returns (stages: seq<seq<string>>)
    ensures IsPlan(b, stages, |b.calls|)
  {
    stages := [];
    for i := 0 to |b.calls|
      invariant IsPlan(b, stages, i)
    {
      if Runs(b, i) {
        var stageIndex := 0;
        for k := 0 to i
          invariant stageIndex == PlaceUpTo(b, i, k)
        {
          if Waits(b, k, i) {
            PositionIsFirstStage(b, stages, b.calls[k].id, i);
            var found := PositionUpTo(stages, b.calls[k].id, |stages|);
            if found.Some? {
              stageIndex := Max(stageIndex, found.value + 1);
            }
          }
        }
        ghost var before := stages;
        while |stages| <= stageIndex
          invariant before <= stages && |stages| <= Max(|before|, stageIndex + 1)
          invariant forall s :: |before| <= s < |stages| ==> stages[s] == []
        {
          stages := stages + [[]];
        }
        forall s: nat | |before| <= s < |stages| ensures stages[s] == StageUpTo(b, s, i) {
          StageBeyondIsEmpty(b, s, i);
        }
        stages := stages[stageIndex := stages[stageIndex] + [b.calls[i].id]];
      }
    }
  }

  // ----------------------------------------------------- each call exactly once

  function RunningIds(b: Batch, n: nat): multiset<string>
    requires n <= |b.calls|
  {
    if n == 0 then multiset{}
    else if Runs(b, n - 1) then RunningIds(b, n - 1) + multiset{b.calls[n - 1].id}
    else RunningIds(b, n - 1)
  }

  /** Everything in the first `n` stages. */
  function Pooled(stages: seq<seq<string>>, n: nat): multiset<string>
    requires n <= |stages|
  {
    if n == 0 then multiset{} else Pooled(stages, n - 1) + multiset(stages[n - 1])
  }

  function PooledUpTo(b: Batch, c: nat, n: nat): multiset<string>
    requires n <= |b.calls|
  {
    if c == 0 then multiset{} else PooledUpTo(b, c - 1, n) + multiset(StageUpTo(b, c - 1, n))
  }

  lemma {:induction false} NothingPooled(b: Batch, c: nat)
    ensures PooledUpTo(b, c, 0) == multiset{}
  {
    if c > 0 { NothingPooled(b, c - 1); }
  }

  /** What call `n - 1` adds to the first `c` stages. */
  function Gain(b: Batch, c: nat, n: nat): multiset<string>
    requires 0 < n <= |b.calls|
  {
    if Runs(b, n - 1) && Place(b, n - 1) < c then multiset{b.calls[n - 1].id} else multiset{}
  }

  lemma StageGains(b: Batch, s: nat, n: nat)
    requires 0 < n <= |b.calls|
    ensures multiset(StageUpTo(b, s, n))
            == multiset(StageUpTo(b, s, n - 1)) + if Runs(b, n - 1) && Place(b, n - 1) == s then multiset{b.calls[n - 1].id} else multiset{}
  {
  }

  lemma {:induction false} PooledGains(b: Batch, c: nat, n: nat)
    requires 0 < n <= |b.calls|
    ensures PooledUpTo(b, c, n) == PooledUpTo(b, c, n - 1) + Gain(b, c, n)
  {
    if c > 0 {
      PooledGains(b, c - 1, n);
      StageGains(b, c - 1, n);
    }
  }

  lemma {:induction false} PooledIsRunning(b: Batch, c: nat, n: nat)
    requires n <= |b.calls| && StageCount(b, n) <= c
    ensures PooledUpTo(b, c, n) == RunningIds(b, n)
  {
    if n == 0 {
      NothingPooled(b, c);
    } else {
      PooledIsRunning(b, c, n - 1);
      PooledGains(b, c, n);
    }
  }

  lemma {:induction false} PooledOfPlan(b: Batch, stages: seq<seq<string>>, c: nat)
    requires IsPlan(b, stages, |b.calls|) && c <= |stages|
    ensures Pooled(stages, c) == PooledUpTo(b, c, |b.calls|)
  {
    if c > 0 { PooledOfPlan(b, stages, c - 1); }
  }

  /** The stages hold exactly the executable calls, each as often as it occurs. */
  lemma PlanIsComplete(b: Batch, stages: seq<seq<string>>)
    requires IsPlan(b, stages, |b.calls|)
    ensures Pooled(stages, |stages|) == RunningIds(b, |b.calls|)
  {
    PooledOfPlan(b, stages, |stages|);
    PooledIsRunning(b, |stages|, |b.calls|);
  }

  // ------------------------------------------------------------- no empty stage

  /** Some call was placed one stage below any that is not in the first. */
  lemma {:induction false} PlacedBelow(b: Batch, i: nat, n: nat) returns (m: nat)
    requires n <= i < |b.calls| && PlaceUpTo(b, i, n) > 0
    ensures m < i && Runs(b, m) && Place(b, m) == PlaceUpTo(b, i, n) - 1
  {
    if PlaceUpTo(b, i, n) == PlaceUpTo(b, i, n - 1) {
      m := PlacedBelow(b, i, n - 1);
    } else {
      var id := b.calls[n - 1].id;
      FirstStageIsLeast(b, id, i);
      m :| 0 <= m < i && Runs(b, m) && b.calls[m].id == id && Place(b, m) == FirstStage(b, id, i).value;
    }
  }

  lemma {:induction false} Occupant(b: Batch, i: nat, s: nat) returns (m: nat)
    requires i < |b.calls| && Runs(b, i) && s <= Place(b, i)
    ensures m <= i && Runs(b, m) && Place(b, m) == s
  {
    if s == Place(b, i) {
      m := i;
    } else {
      var k := PlacedBelow(b, i, i);
      m := Occupant(b, k, s);
    }
  }

  lemma {:induction false} LastOccupant(b: Batch, n: nat) returns (i: nat)
    requires n <= |b.calls| && StageCount(b, n) > 0
    ensures i < n && Runs(b, i) && Place(b, i) == StageCount(b, n) - 1
  {
    if Runs(b, n - 1) && Place(b, n - 1) + 1 == StageCount(b, n) {
      i := n - 1;
    } else {
      i := LastOccupant(b, n - 1);
    }
  }

  lemma NoStageIsEmpty(b: Batch, stages: seq<seq<string>>, s: nat)
    requires IsPlan(b, stages, |b.calls|) && s < |stages|
    ensures stages[s] != []
  {
    var i := LastOccupant(b, |b.calls|);
    var m := Occupant(b, i, s);
    assert PlacedIn(b, b.calls[m].id, s, |b.calls|);
    StageHolds(b, b.calls[m].id, s, |b.calls|);
  }

  // -------------------------------------------------------------- longest chains

  /** The length of the longest chain of waiting calls that ends in call `i`, less one. */
  function Depth(b: Batch, i: nat): nat
    requires i < |b.calls|
    decreases i, 1, 0
  {
    DepthUpTo(b, i, i)
  }

  function DepthUpTo(b: Batch, i: nat, n: nat): nat
    requires n <= i < |b.calls|
    decreases i, 0, n
  {
    if n == 0 then 0
    else if Waits(b, n - 1, i) then Max(DepthUpTo(b, i, n - 1), Depth(b, n - 1) + 1)
    else DepthUpTo(b, i, n - 1)
  }

  lemma {:induction false} DepthCovers(b: Batch, i: nat, n: nat, k: nat)
    requires k < n <= i < |b.calls| && Waits(b, k, i)
    ensures Depth(b, k) < DepthUpTo(b, i, n)
  {
    if k < n - 1 { DepthCovers(b, i, n - 1, k); }
  }

  lemma {:induction false} DepthIsReached(b: Batch, i: nat, n: nat) returns (k: nat)
    requires n <= i < |b.calls| && DepthUpTo(b, i, n) > 0
    ensures k < n && Waits(b, k, i) && Depth(b, k) + 1 == DepthUpTo(b, i, n)
  {
    if DepthUpTo(b, i, n) == DepthUpTo(b, i, n - 1) {
      k := DepthIsReached(b, i, n - 1);
    } else {
      k := n - 1;
    }
  }

  ghost predicate IsChain(b: Batch, chain: seq<nat>) {
    && |chain| > 0
    && (forall j :: 0 <= j < |chain| ==> Runs(b, chain[j]))
    && (forall j :: 0 < j < |chain| ==> Waits(b, chain[j - 1], chain[j]))
  }

  /** The depth of a call is the length of a chain that ends in it, and of no longer one. */
  lemma {:induction false} ChainIsBounded(b: Batch, chain: seq<nat>)
    requires IsChain(b, chain)
    ensures |chain| <= Depth(b, chain[|chain| - 1]) + 1
  {
    if |chain| > 1 {
      ChainIsBounded(b, chain[..|chain| - 1]);
      var last := chain[|chain| - 1];
      DepthCovers(b, last, last, chain[|chain| - 2]);
    }
  }

  lemma {:induction false} LongestChain(b: Batch, i: nat) returns (chain: seq<nat>)
    requires Runs(b, i)
    ensures IsChain(b, chain) && chain[|chain| - 1] == i && |chain| == Depth(b, i) + 1
  {
    if Depth(b, i) == 0 {
      chain := [i];
    } else {
      var k := DepthIsReached(b, i, i);
      var earlier := LongestChain(b, k);
      chain := earlier + [i];
    }
  }

  /** No assignment of stages that separates waiting calls can put one below its depth. */
  ghost predicate Separates(b: Batch, stageOf: seq<nat>) {
    |stageOf| == |b.calls| && forall k, i :: Waits(b, k, i) ==> stageOf[k] < stageOf[i]
  }

  lemma {:induction false} DepthIsMinimal(b: Batch, stageOf: seq<nat>, i: nat)
    requires Separates(b, stageOf) && Runs(b, i)
    ensures Depth(b, i) <= stageOf[i]
  {
    if Depth(b, i) > 0 {
      var k := DepthIsReached(b, i, i);
      DepthIsMinimal(b, stageOf, k);
    }
  }

  // ------------------------------------------------- when placement meets depth

  /** Two executable calls with one id are followed by no further executable call. */
  ghost predicate Addressable(b: Batch) {
    forall k, m, i :: k < m < i && Runs(b, k) && Runs(b, m) && Runs(b, i) ==> b.calls[k].id != b.calls[m].id
  }

  ghost predicate UniqueIds(calls: seq<Call>) {
    forall k, m :: 0 <= k < m < |calls| ==> calls[k].id != calls[m].id
  }

  ghost predicate Ordered(b: Batch) {
    forall k, i :: Waits(b, k, i) ==> Place(b, k) < Place(b, i)
  }

  lemma FirstStageIsPlace(b: Batch, k: nat, i: nat)
    requires Addressable(b) && k < i && Runs(b, k) && Runs(b, i)
    ensures FirstStage(b, b.calls[k].id, i) == Some(Place(b, k))
  {
    FirstStageIsLeast(b, b.calls[k].id, i);
    var s := FirstStage(b, b.calls[k].id, i).value;
    var m :| 0 <= m < i && Runs(b, m) && b.calls[m].id == b.calls[k].id && Place(b, m) == s;
    assert m == k;
  }

  lemma {:induction false} PlaceIsDepthUpTo(b: Batch, i: nat, n: nat)
    requires Addressable(b) && Runs(b, i) && n <= i
    ensures PlaceUpTo(b, i, n) == DepthUpTo(b, i, n)
    decreases i, n
  {
    if n > 0 {
      PlaceIsDepthUpTo(b, i, n - 1);
      if Waits(b, n - 1, i) {
        FirstStageIsPlace(b, n - 1, i);
        PlaceIsDepthUpTo(b, n - 1, n - 1);
      }
    }
  }

  /** Then every call goes to the stage of its longest chain, and conflicting calls keep their order. */
  lemma PlaceIsDepth(b: Batch)
    requires Addressable(b)
    ensures forall i :: Runs(b, i) ==> Place(b, i) == Depth(b, i)
    ensures Ordered(b)
  {
    forall i | Runs(b, i) ensures Place(b, i) == Depth(b, i) { PlaceIsDepthUpTo(b, i, i); }
    forall k, i | Waits(b, k, i) ensures Place(b, k) < Place(b, i) { DepthCovers(b, i, i, k); }
  }

  /** The claims touch: neither path is known, or one path's components begin the other's. */
  predicate Touch(left: Claim, right: Claim) {
    || left.path.None? || right.path.None?
    || Components(left.path.value) <= Components(right.path.value)
    || Components(right.path.value) <= Components(left.path.value)
  }

  /** Calls `k` and `i` may both run and must not run together. */
  predicate MustSeparate(b: Batch, k: int, i: int) {
    && 0 <= k < i < |b.calls| && MayRun(b.calls[k], b.approved) && MayRun(b.calls[i], b.approved)
    && !(b.calls[k].claim.effects <= READING && b.calls[i].claim.effects <= READING)
    && Touch(b.calls[k].claim, b.calls[i].claim)
  }

  lemma WaitsExactlyWhen(b: Batch, k: int, i: int)
    requires 0 <= k
    ensures Waits(b, k, i) <==> MustSeparate(b, k, i)
  {
    RunsExactlyWhen(b, k);
    RunsExactlyWhen(b, i);
    if 0 <= k < i < |b.calls| {
      ConflictIsNesting(b.calls[k].claim, b.calls[i].claim);
      WritesExactlyWhen(b.calls[k].claim);
      WritesExactlyWhen(b.calls[i].claim);
    }
  }

  /** With unique ids every staged id is in one stage. */
  lemma StagedOnce(b: Batch, stages: seq<seq<string>>, id: string, s: int, t: int)
    requires IsPlan(b, stages, |b.calls|) && UniqueIds(b.calls) && IsIn(stages, s, id) && IsIn(stages, t, id)
    ensures s == t
  {
    StageHolds(b, id, s, |b.calls|);
    StageHolds(b, id, t, |b.calls|);
    var m :| 0 <= m < |b.calls| && Runs(b, m) && b.calls[m].id == id && Place(b, m) == s;
    var n :| 0 <= n < |b.calls| && Runs(b, n) && b.calls[n].id == id && Place(b, n) == t;
  }

  lemma {:induction false} RunningOnce(b: Batch, n: nat, id: string)
    requires n <= |b.calls| && UniqueIds(b.calls)
    ensures RunningIds(b, n)[id] <= 1
    ensures RunningIds(b, n)[id] == 1 ==> exists i :: 0 <= i < n && b.calls[i].id == id
  {
    if n > 0 { RunningOnce(b, n - 1, id); }
  }

  /** With unique ids no call is staged twice, and of two calls that must not run together the later one is staged later. */
  lemma PlanSeparates(b: Batch, stages: seq<seq<string>>)
    requires IsPlan(b, stages, |b.calls|) && UniqueIds(b.calls)
    ensures forall id :: Pooled(stages, |stages|)[id] <= 1
    ensures forall k, i, s, t :: MustSeparate(b, k, i) && IsIn(stages, s, b.calls[k].id) && IsIn(stages, t, b.calls[i].id) ==> s < t
  {
    PlanIsComplete(b, stages);
    forall id ensures Pooled(stages, |stages|)[id] <= 1 { RunningOnce(b, |b.calls|, id); }
    UniqueIsAddressable(b);
    PlaceIsDepth(b);
    forall k, i, s, t | MustSeparate(b, k, i) && IsIn(stages, s, b.calls[k].id) && IsIn(stages, t, b.calls[i].id) ensures s < t {
      WaitsExactlyWhen(b, k, i);
      PlacedIsStaged(b, stages, k);
      PlacedIsStaged(b, stages, i);
      StagedOnce(b, stages, b.calls[k].id, s, Place(b, k));
      StagedOnce(b, stages, b.calls[i].id, t, Place(b, i));
    }
  }

  /** No way of separating the waiting calls uses fewer stages. */
  lemma StageCountIsMinimal(b: Batch, stages: seq<seq<string>>, stageOf: seq<nat>) returns (i: nat)
    requires Addressable(b) && IsPlan(b, stages, |b.calls|) && stages != [] && Separates(b, stageOf)
    ensures Runs(b, i) && |stages| <= stageOf[i] + 1
  {
    i := LastOccupant(b, |b.calls|);
    PlaceIsDepth(b);
    DepthIsMinimal(b, stageOf, i);
  }

  // ------------------------------------------------- exactly when it is ordered

  /** The same calls with other claims. */
  function WithClaims(b: Batch, claims: seq<Claim>): Batch
    requires |claims| == |b.calls|
  {
    Batch(seq(|b.calls|, i requires 0 <= i < |b.calls| => Call(b.calls[i].id, claims[i], b.calls[i].kind)), b.approved)
  }

  ghost predicate OrderedWhateverClaimed(b: Batch) {
    forall claims: seq<Claim> :: |claims| == |b.calls| ==> Ordered(WithClaims(b, claims))
  }

  lemma RunsWhateverClaimed(b: Batch, claims: seq<Claim>)
    requires |claims| == |b.calls|
    ensures forall i :: Runs(WithClaims(b, claims), i) == Runs(b, i)
  {
  }

  lemma {:induction false} FreeIsFirst(b: Batch, i: nat, n: nat)
    requires n <= i < |b.calls| && forall k :: 0 <= k < n ==> !Waits(b, k, i)
    ensures PlaceUpTo(b, i, n) == 0
  {
    if n > 0 { FreeIsFirst(b, i, n - 1); }
  }

  lemma {:induction false} OneAwaited(b: Batch, i: nat, n: nat, k: nat)
    requires k < n <= i < |b.calls| && Waits(b, k, i)
    requires forall j :: 0 <= j < n && j != k ==> !Waits(b, j, i)
    requires FirstStage(b, b.calls[k].id, i) == Some(0)
    ensures PlaceUpTo(b, i, n) == 1
  {
    if k == n - 1 { FreeIsFirst(b, i, n - 1); } else { OneAwaited(b, i, n - 1, k); }
  }

  const ABOVE := Claim({Update}, Some("a"))
  const LEFT := Claim({Update}, Some("a/b"))
  const RIGHT := Claim({Update}, Some("a/c"))
  const APART := Claim({Read}, Some("d"))

  lemma FirstCharactersDiffer(left: string, right: string)
    requires left != "" && right != "" && left[0] != right[0]
    ensures !PathsMeet(left, right)
  {
  }

  lemma SampleConflicts()
    ensures Conflict(LEFT, ABOVE) && Conflict(ABOVE, RIGHT) && !Conflict(LEFT, RIGHT) && !Conflict(APART, APART)
    ensures forall c :: c == ABOVE || c == LEFT || c == RIGHT ==> !Conflict(APART, c) && !Conflict(c, APART)
  {
    forall c | c == ABOVE || c == LEFT || c == RIGHT ensures !Conflict(APART, c) && !Conflict(c, APART) {
      FirstCharactersDiffer("d", c.path.value);
      FirstCharactersDiffer(c.path.value, "d");
    }
  }

  /** The claims that send three calls, the first two with one id, astray. */
  function Sample(size: nat, k: nat, m: nat, i: nat): seq<Claim> {
    seq(size, j requires 0 <= j < size => if j == k then LEFT else if j == m then ABOVE else if j == i then RIGHT else APART)
  }

  lemma SampleWaits(b: Batch, k: nat, m: nat, i: nat)
    requires k < m < i && Runs(b, k) && Runs(b, m) && Runs(b, i)
    ensures var c := WithClaims(b, Sample(|b.calls|, k, m, i));
            forall x, y :: Waits(c, x, y) <==> (x == k && y == m) || (x == m && y == i)
  {
    SampleConflicts();
    RunsWhateverClaimed(b, Sample(|b.calls|, k, m, i));
  }

  lemma SharedIdIsFirst(c: Batch, k: nat, i: nat)
    requires k < i < |c.calls| && Runs(c, k) && Place(c, k) == 0
    ensures FirstStage(c, c.calls[k].id, i) == Some(0)
  {
    FirstStageIsLeast(c, c.calls[k].id, i);
  }

  /** The second and third call, which conflict, share a stage. */
  lemma SampleMisplaces(b: Batch, k: nat, m: nat, i: nat)
    requires k < m < i && Runs(b, k) && Runs(b, m) && Runs(b, i) && b.calls[k].id == b.calls[m].id
    ensures var c := WithClaims(b, Sample(|b.calls|, k, m, i));
            Waits(c, m, i) && Place(c, m) == Place(c, i) == 1
  {
    var c := WithClaims(b, Sample(|b.calls|, k, m, i));
    SampleWaits(b, k, m, i);
    FreeIsFirst(c, k, k);
    SharedIdIsFirst(c, k, m);
    OneAwaited(c, m, m, k);
    SharedIdIsFirst(c, k, i);
    OneAwaited(c, i, i, m);
  }

  /**
   Conflicting calls end up in strictly increasing stages, whatever the calls
   claim, exactly when no two executable calls with one id precede a third.
   */
  lemma OrderedExactlyWhenAddressable(b: Batch)
    ensures Addressable(b) <==> OrderedWhateverClaimed(b)
  {
    if Addressable(b) {
      forall claims: seq<Claim> | |claims| == |b.calls| ensures Ordered(WithClaims(b, claims)) {
        RunsWhateverClaimed(b, claims);
        PlaceIsDepth(WithClaims(b, claims));
      }
    }
    if OrderedWhateverClaimed(b) {
      forall k, m, i | k < m < i && Runs(b, k) && Runs(b, m) && Runs(b, i) ensures b.calls[k].id != b.calls[m].id {
        if b.calls[k].id == b.calls[m].id {
          SampleMisplaces(b, k, m, i);
        }
      }
    }
  }

  // ------------------------------------------------- approving more calls

  /** The same calls with more of them approved. */
  predicate ApprovesMore(b: Batch, more: Batch) {
    more.calls == b.calls && forall id :: id in b.approved ==> id in more.approved
  }

  /** Call `k` would run under some further approval, which would also approve its id for later lookups. */
  predicate Approvable(b: Batch, k: int) {
    0 <= k < |b.calls| && !Runs(b, k) && b.calls[k].kind.RequireApproval?
  }

  /**
   Call `k`, once approved, can stand in for the running call `m` of the same id in the
   placement of call `i`, and come earlier: `p` runs before every running call of that id.
   */
  ghost predicate Eclipses(b: Batch, p: nat, m: nat, i: nat, k: nat) {
    && p < m < i && k < i && Runs(b, p) && Runs(b, m) && Runs(b, i)
    && Approvable(b, k) && b.calls[k].id == b.calls[m].id
    && forall j :: Runs(b, j) && b.calls[j].id == b.calls[m].id ==> p < j
  }

  ghost predicate ApprovalSafe(b: Batch) {
    forall p: nat, m: nat, i: nat, k: nat :: !Eclipses(b, p, m, i, k)
  }

  lemma MoreRun(b: Batch, more: Batch)
    requires ApprovesMore(b, more)
    ensures forall i :: Runs(b, i) ==> Runs(more, i)
    ensures forall i :: Runs(more, i) && !Runs(b, i) ==> Approvable(b, i)
    ensures forall k, i :: Waits(b, k, i) ==> Waits(more, k, i)
  {
  }

  /** The first running call of an id, at or before a given one. */
  lemma {:induction false} FirstRunner(b: Batch, k: nat) returns (m: nat)
    requires Runs(b, k)
    ensures m <= k && Runs(b, m) && b.calls[m].id == b.calls[k].id
    ensures forall j :: Runs(b, j) && b.calls[j].id == b.calls[k].id ==> m <= j
  {
    if j :| 0 <= j < k && Runs(b, j) && b.calls[j].id == b.calls[k].id {
      m := FirstRunner(b, j);
    } else {
      m := k;
    }
  }

  /** A lookup of an awaited id answers no earlier once more calls are approved. */
  lemma LookupNotEarlier(b: Batch, more: Batch, k: nat, i: nat)
    requires ApprovesMore(b, more) && ApprovalSafe(b) && k < i && Runs(b, k) && Runs(b, i)
    requires forall j :: 0 <= j < i && Runs(b, j) ==> Place(b, j) <= Place(more, j)
    ensures var old_, new_ := FirstStage(b, b.calls[k].id, i), FirstStage(more, b.calls[k].id, i);
            old_.Some? && new_.Some? && old_.value <= new_.value
  {
    var id := b.calls[k].id;
    MoreRun(b, more);
    FirstStageIsLeast(b, id, i);
    FirstStageIsLeast(more, id, i);
    var j :| 0 <= j < i && Runs(more, j) && more.calls[j].id == id && Place(more, j) == FirstStage(more, id, i).value;
    if !Runs(b, j) {
      var m := FirstRunner(b, k);
      forall p | 0 <= p < m ensures !Runs(b, p) {
        if Runs(b, p) { assert Eclipses(b, p, m, i, j); }
      }
      FreeIsFirst(b, m, m);
    }
  }

  lemma {:induction false} PlaceNotEarlierUpTo(b: Batch, more: Batch, i: nat, n: nat)
    requires ApprovesMore(b, more) && ApprovalSafe(b) && n <= i && Runs(b, i)
    requires forall j :: 0 <= j < i && Runs(b, j) ==> Place(b, j) <= Place(more, j)
    ensures PlaceUpTo(b, i, n) <= PlaceUpTo(more, i, n)
  {
    if n > 0 {
      PlaceNotEarlierUpTo(b, more, i, n - 1);
      MoreRun(b, more);
      if Waits(b, n - 1, i) { LookupNotEarlier(b, more, n - 1, i); }
    }
  }

  /** Then no call that ran already moves to an earlier stage. */
  lemma {:induction false} ApprovalNeverHastens(b: Batch, more: Batch, i: nat)
    requires ApprovesMore(b, more) && ApprovalSafe(b) && Runs(b, i)
    ensures Place(b, i) <= Place(more, i)
  {
    forall j | 0 <= j < i && Runs(b, j) ensures Place(b, j) <= Place(more, j) { ApprovalNeverHastens(b, more, j); }
    PlaceNotEarlierUpTo(b, more, i, i);
  }

  /** Unique ids are safe. */
  lemma UniqueIsSafe(b: Batch)
    requires UniqueIds(b.calls)
    ensures ApprovalSafe(b)
  {
    forall p: nat, m: nat, i: nat, k: nat ensures !Eclipses(b, p, m, i, k) {
    }
  }

  ghost predicate NeverHastens(b: Batch) {
    forall claims: seq<Claim>, approved: seq<string> ::
      |claims| == |b.calls| ==> NotHastened(WithClaims(b, claims), approved)
  }

  ghost predicate NotHastened(b: Batch, approved: seq<string>) {
    var more := Batch(b.calls, b.approved + approved);
    forall i :: Runs(b, i) ==> Place(b, i) <= Place(more, i)
  }

  lemma EclipsesWhateverClaimed(b: Batch, claims: seq<Claim>, p: nat, m: nat, i: nat, k: nat)
    requires |claims| == |b.calls|
    ensures Eclipses(WithClaims(b, claims), p, m, i, k) == Eclipses(b, p, m, i, k)
  {
    var c := WithClaims(b, claims);
    RunsWhateverClaimed(b, claims);
    assert |c.calls| == |b.calls|;
    assert forall j :: 0 <= j < |b.calls| ==> c.calls[j].id == b.calls[j].id && c.calls[j].kind == b.calls[j].kind;
  }

  /** Claims under which `k` comes first: `p` conflicts with the running calls of the id, and those with `i`. */
  function EclipsingClaim(b: Batch, p: nat, m: nat, i: nat, j: nat): Claim
    requires j < |b.calls| && m < |b.calls|
  {
    if j == p then LEFT
    else if j == i then RIGHT
    else if Runs(b, j) && b.calls[j].id == b.calls[m].id then ABOVE
    else APART
  }

  function EclipsingClaims(b: Batch, p: nat, m: nat, i: nat): seq<Claim>
    requires m < |b.calls|
  {
    seq(|b.calls|, j requires 0 <= j < |b.calls| => EclipsingClaim(b, p, m, i, j))
  }

  /** Before the approval the running calls of the id come after `p`, and `i` after them. */
  lemma EclipsedBefore(b: Batch, p: nat, m: nat, i: nat, k: nat)
    requires Eclipses(b, p, m, i, k)
    ensures Place(WithClaims(b, EclipsingClaims(b, p, m, i)), i) >= 2
  {
    var c := WithClaims(b, EclipsingClaims(b, p, m, i));
    var id := b.calls[m].id;
    RunsWhateverClaimed(b, EclipsingClaims(b, p, m, i));
    SampleConflicts();
    forall j | 0 <= j < i && Runs(c, j) && c.calls[j].id == id ensures Place(c, j) >= 1 {
      assert Waits(c, p, j);
      AwaitedIsPassed(c, j, j, p);
    }
    assert Waits(c, m, i);
    FirstStageIsLeast(c, id, i);
    AwaitedIsPassed(c, i, i, m);
  }

  /** A call is placed past the first stage of whatever it waits for. */
  lemma {:induction false} AwaitedIsPassed(b: Batch, i: nat, n: nat, k: nat)
    requires k < n <= i < |b.calls| && Waits(b, k, i)
    ensures FirstStage(b, b.calls[k].id, i).Some? && PlaceUpTo(b, i, n) >= FirstStage(b, b.calls[k].id, i).value + 1
  {
    if k == n - 1 { FirstStageIsLeast(b, b.calls[k].id, i); } else { AwaitedIsPassed(b, i, n - 1, k); }
  }

  /** After it `i` waits for nothing but that id, which is found in the first stage. */
  lemma EclipsedAfter(b: Batch, p: nat, m: nat, i: nat, k: nat)
    requires Eclipses(b, p, m, i, k)
    ensures var c := WithClaims(b, EclipsingClaims(b, p, m, i));
            Place(Batch(c.calls, c.approved + [b.calls[k].id]), i) == 1
  {
    var claims := EclipsingClaims(b, p, m, i);
    var c := WithClaims(b, claims);
    var more := Batch(c.calls, c.approved + [b.calls[k].id]);
    RunsWhateverClaimed(b, claims);
    SampleConflicts();
    assert Runs(more, k) && Runs(more, m) && Runs(more, i);
    assert c.calls[k].claim == APART;
    FreeIsFirst(more, k, k);
    SharedIdIsFirst(more, k, i);
    forall j | 0 <= j < i && Waits(more, j, i) ensures more.calls[j].id == b.calls[k].id {
      assert c.calls[j].claim == EclipsingClaim(b, p, m, i, j);
    }
    assert Waits(more, m, i);
    OneIdAwaited(more, i, i, m);
  }

  lemma {:induction false} OneIdAwaited(b: Batch, i: nat, n: nat, k: nat)
    requires n <= i < |b.calls| && k < i && FirstStage(b, b.calls[k].id, i) == Some(0)
    requires forall j :: 0 <= j < i && Waits(b, j, i) ==> b.calls[j].id == b.calls[k].id
    ensures PlaceUpTo(b, i, n) <= 1
    ensures k < n && Waits(b, k, i) ==> PlaceUpTo(b, i, n) == 1
  {
    if n > 0 { OneIdAwaited(b, i, n - 1, k); }
  }

  /**
   No approval moves a running call to an earlier stage, whatever the calls claim,
   exactly when no call that could be approved shares the id of a running call that
   some call runs before and some call runs after.
   */
  lemma HastensExactlyWhenEclipsed(b: Batch)
    ensures ApprovalSafe(b) <==> NeverHastens(b)
  {
    if ApprovalSafe(b) {
      forall claims: seq<Claim>, approved: seq<string> | |claims| == |b.calls| ensures NotHastened(WithClaims(b, claims), approved) {
        var c := WithClaims(b, claims);
        forall p: nat, m: nat, i: nat, k: nat ensures !Eclipses(c, p, m, i, k) { EclipsesWhateverClaimed(b, claims, p, m, i, k); }
        var more := Batch(c.calls, c.approved + approved);
        forall i | Runs(c, i) ensures Place(c, i) <= Place(more, i) { ApprovalNeverHastens(c, more, i); }
      }
    }
    if NeverHastens(b) {
      forall p: nat, m: nat, i: nat, k: nat ensures !Eclipses(b, p, m, i, k) {
        if Eclipses(b, p, m, i, k) {
          var claims := EclipsingClaims(b, p, m, i);
          assert NotHastened(WithClaims(b, claims), [b.calls[k].id]);
          RunsWhateverClaimed(b, claims);
          EclipsedBefore(b, p, m, i, k);
          EclipsedAfter(b, p, m, i, k);
        }
      }
    }
  }

  /** A batch whose last call moves from the third stage to the second when `x` is approved. */
  const HASTENED := Batch(
    [Call("x", APART, RequireApproval), Call("p", LEFT, Allow), Call("x", ABOVE, Allow), Call("q", RIGHT, Allow)], [])

  lemma ApprovalCanHasten()
    ensures Place(HASTENED, 3) == 2 && Place(Batch(HASTENED.calls, ["x"]), 3) == 1
  {
    var b := HASTENED;
    assert Eclipses(b, 1, 2, 3, 0);
    EclipsedBefore(b, 1, 2, 3, 0);
    EclipsedAfter(b, 1, 2, 3, 0);
    assert WithClaims(b, EclipsingClaims(b, 1, 2, 3)).calls == b.calls;
    assert b.approved + ["x"] == ["x"];
    HastenedIsThird();
  }

  lemma HastenedIsThird()
    ensures Place(HASTENED, 3) <= 2
  {
    SampleConflicts();
    assert Addressable(HASTENED);
    PlaceIsDepth(HASTENED);
    DepthIsMinimal(HASTENED, [0, 0, 1, 2], 3);
  }

  // ------------------------------------------------------------ batch admission

  /** A prepared call: its id, its claim and whether its preparation is intact. */
  datatype Prepared = Prepared(id: string, claim: Claim, intact: bool)

  datatype AdmissionError = Corrupted | DuplicateId

  datatype Plan = Plan(calls: seq<Call>, stages: seq<seq<string>>)

  ghost predicate Admissible(calls: seq<Prepared>, n: nat)
    requires n <= |calls|
  {
    && (forall i :: 0 <= i < n ==> calls[i].intact)
    && (forall k, i :: 0 <= k < i < n ==> calls[k].id != calls[i].id)
  }

  /**
   Admit a batch of prepared calls under the policy `decide`. A batch is refused
   exactly when a preparation is corrupted or an id repeats, with the first such
   problem; an admitted batch has unique ids and is planned without approvals.
   */
  method ResolvePreparedBatch(calls: seq<Prepared>, decide: Prepared -> DecisionKind)
    returns (r: Result<Plan, AdmissionError>)
    ensures r.Ok? <==> Admissible(calls, |calls|)
    ensures r.Err? ==> exists n ::
                && 0 <= n < |calls| && Admissible(calls, n) && !Admissible(calls, n + 1)
                && (r.error.Corrupted? <==> !calls[n].intact)
    ensures r.Ok? ==>
              && |r.value.calls| == |calls|
              && (forall i :: 0 <= i < |calls| ==> r.value.calls[i] == Call(calls[i].id, calls[i].claim, decide(calls[i])))
              && UniqueIds(r.value.calls)
              && IsPlan(Batch(r.value.calls, []), r.value.stages, |calls|)
  {
    var identities: set<string> := {};
    var decisions: seq<Call> := [];
    for n := 0 to |calls|
      invariant Admissible(calls, n) && |decisions| == n
      invariant forall i :: 0 <= i < n ==> decisions[i] == Call(calls[i].id, calls[i].claim, decide(calls[i]))
      invariant forall id :: id in identities <==> exists i :: 0 <= i < n && calls[i].id == id
    {
      if !calls[n].intact {
        assert !Admissible(calls, n + 1);
        return Err(Corrupted);
      }
      if calls[n].id in identities {
        assert !Admissible(calls, n + 1);
        return Err(DuplicateId);
      }
      identities := identities + {calls[n].id};
      decisions := decisions + [Call(calls[n].id, calls[n].claim, decide(calls[n]))];
    }
    var stages := ExecutionStages(Batch(decisions, []));
    return Ok(Plan(decisions, stages));
  }

  /** Calls with unique ids are addressable under every set of approvals. */
  lemma UniqueIsAddressable(b: Batch)
    requires UniqueIds(b.calls)
    ensures Addressable(b)
  {
    forall k, m, i | k < m < i && Runs(b, k) && Runs(b, m) && Runs(b, i) ensures b.calls[k].id != b.calls[m].id {
      assert 0 <= k < m < |b.calls|;
    }
  }

  /** Stage a plan's calls again once some of them were approved. */
  method StagesWithApprovals(plan: Plan, approved: seq<string>) returns (stages: seq<seq<string>>)
    ensures IsPlan(Batch(plan.calls, approved), stages, |plan.calls|)
    ensures UniqueIds(plan.calls) ==> Ordered(Batch(plan.calls, approved))
  {
    stages := ExecutionStages(Batch(plan.calls, approved));
    if UniqueIds(plan.calls) {
      UniqueIsAddressable(Batch(plan.calls, approved));
      PlaceIsDepth(Batch(plan.calls, approved));
    }
  }
}
