/**
 For which members, flag and batch bound each safety property holds in every run, exactly.
 Election safety, log matching, true match indexes and faithful repair need votes kept apart
 from pre-votes; the properties of commitment need unlimited batches as well.
 */
module RaftLimits {
  import opened RaftSteps
  import opened Clusters
  import opened RaftSafety
  import opened RaftProgress
  import opened RaftRepair
  import opened Rifts
  import opened PrevoteLimit
  import opened UnevenLimit
  import opened BatchLimit

  lemma ElectionSafeExactly(p: Params)
    ensures (forall run :: ElectionSafe(p, run)) <==> Separate(p)
  {
    hide ElectionSafe;
    if Separate(p) {
      forall run
        ensures ElectionSafe(p, run)
      {
        SeparateRunsAreApart(p, run);
        ElectionSafety(p, run);
      }
    } else {
      var run := PrevoteElectsTwo(p);
    }
  }

  lemma LogsMatchExactly(p: Params)
    ensures (forall run :: LogsMatch(p, run)) <==> Separate(p)
  {
    hide LogsMatch;
    if Separate(p) {
      forall run
        ensures LogsMatch(p, run)
      {
        SeparateRunsAreApart(p, run);
        LogMatching(p, run);
      }
    } else {
      var run := PrevoteForksLogs(p);
    }
  }

  lemma MatchesAreTrueExactly(p: Params)
    ensures (forall run :: MatchesAreTrue(p, run)) <==> Separate(p)
  {
    hide MatchesAreTrue;
    if Separate(p) {
      forall run
        ensures MatchesAreTrue(p, run)
      {
        SeparateRunsAreApart(p, run);
        TruthfulReplication(p, run);
      }
    } else {
      var run := PrevoteMisleads(p);
    }
  }

  /** That a repaired follower agrees with its leader, likewise. */
  lemma RepairsAgreeExactly(p: Params)
    ensures (forall run :: RepairsAgree(p, run)) <==> Separate(p)
  {
    hide RepairsAgree, LogsMatch;
    if Separate(p) {
      forall run
        ensures RepairsAgree(p, run)
      {
        SeparateRunsAreApart(p, run);
        LogMatching(p, run);
        MatchingRepairsAgree(p, run);
      }
    } else {
      var run := PrevoteMisrepairs(p);
    }
  }

  /** What a node has committed stays in its log, and its indexes rise, in every run of exactly the
      plain configurations. */
  lemma GroundKeptExactly(p: Params)
    ensures (forall run :: GroundKept(p, run)) <==> Plain(p)
  {
    hide GroundKept, ApartRun, MatchedRun;
    if Plain(p) {
      forall run
        ensures GroundKept(p, run)
      {
        SeparateRunsAreApart(p, run);
        PlainRunsAreMatched(p, run);
        RunsKeepGround(p, run);
      }
    } else if p.usePrevote && |p.servers| >= 4 {
      var run := PrevoteErases(p);
    } else {
      var run := BoundedBatchesErase(p);
    }
  }

  /** Outside the plain configurations some run tears the cluster apart. */
  lemma SomeRunTears(p: Params) returns (run: seq<Action>, r: Rift)
    requires !Plain(p)
    ensures Torn(p, Reach(p, run), r)
  {
    hide Torn;
    if p.maxBatch == 0 {
      run, r := PrevoteTears(p);
    } else {
      run, r := BoundedBatchesDiverge(p);
    }
  }

  lemma CommitmentExactly(p: Params)
    ensures (forall run :: LeadersComplete(p, run)) <==> Plain(p)
    ensures (forall run :: AppliesAgree(Reach(p, run).trace)) <==> Plain(p)
    ensures (forall run :: ReplicasAgree(p, run)) <==> Plain(p)
    ensures (forall run :: CommitsAreHeld(p, run)) <==> Plain(p)
  {
    hide LeadersComplete, AppliesAgree, ReplicasAgree, CommitsAreHeld, Torn, Plain;
    if Plain(p) {
      forall run
        ensures LeadersComplete(p, run) && AppliesAgree(Reach(p, run).trace) && ReplicasAgree(p, run) && CommitsAreHeld(p, run)
      {
        PlainRunsAreSafe(p, run);
      }
    } else {
      var run, r := SomeRunTears(p);
      TornBreaks(p, run, r);
    }
  }

  /** All seven together hold in every run of exactly the plain configurations. */
  lemma SafeExactlyWhenPlain(p: Params)
    ensures (forall run :: Safe(p, run)) <==> Plain(p)
  {
    hide ElectionSafe, LogsMatch, LeadersComplete, AppliesAgree, ReplicasAgree, CommitsAreHeld, MatchesAreTrue;
    if Plain(p) {
      forall run
        ensures Safe(p, run)
      {
        PlainRunsAreSafe(p, run);
      }
    } else {
      var run, r := SomeRunTears(p);
      TornBreaks(p, run, r);
      assert !Safe(p, run);
    }
  }
}
