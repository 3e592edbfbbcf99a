/**
 What an accepted append does to a follower's log when the slice it carries comes from a
 log that agrees with the follower's wherever their terms meet.
 */
module LogMerges {
  import opened RaftLogs

  /** Incoming entries numbered to follow index `prev`. */
  predicate WellIndexed(prev: nat, incoming: seq<Entry>) {
    forall k | 0 <= k < |incoming| :: incoming[k].index == prev + 1 + k
  }

  predicate Ordered(log: seq<Entry>) {
    forall i, j | 0 <= i <= j < |log| :: log[i].term <= log[j].term
  }

  /** Log matching of two logs: the same term at an index means the same entries up to it. */
  predicate SameLogsWhereTermsMeet(x: seq<Entry>, y: seq<Entry>) {
    forall i | 0 <= i < |x| && i < |y| && x[i].term == y[i].term :: x[..i + 1] == y[..i + 1]
  }

  lemma {:induction false} FirstGapMeans(log: seq<Entry>, prev: nat, incoming: seq<Entry>, k: nat)
    requires k <= |incoming|
    ensures k <= FirstGap(log, prev, incoming, k) <= |incoming|
    ensures forall j | k <= j < FirstGap(log, prev, incoming, k) :: TermAt(log, prev + 1 + j) == incoming[j].term
    ensures var g := FirstGap(log, prev, incoming, k); g < |incoming| ==> TermAt(log, prev + 1 + g) != incoming[g].term
    decreases |incoming| - k
  {
    if k < |incoming| && TermAt(log, prev + 1 + k) == incoming[k].term {
      FirstGapMeans(log, prev, incoming, k + 1);
    }
  }

  /** How many of the first incoming entries the log holds already, by term. */
  predicate HeldUpTo(log: seq<Entry>, prev: nat, incoming: seq<Entry>, g: nat) {
    g <= |incoming| && prev + g <= |log| && (forall j | 0 <= j < g :: log[prev + j].term == incoming[j].term)
    && (g < |incoming| && prev + g < |log| ==> log[prev + g].term != incoming[g].term)
  }

  /** What a merge leaves, entry by entry: the log itself when it holds everything that came in;
      otherwise what it has up to the first entry that is missing or differs, then exactly the
      incoming entries, numbered on, and nothing behind them. */
  lemma MergedMeans(log: seq<Entry>, prev: nat, incoming: seq<Entry>, g: nat)
    requires HeldUpTo(log, prev, incoming, g)
    ensures var log' := Merged(log, prev, incoming);
            if g == |incoming| then log' == log
            else |log'| == prev + |incoming| && log'[..prev + g] == log[..prev + g]
                 && forall j | g <= j < |incoming| ::
                      log'[prev + j] == Entry(prev + j + 1, incoming[j].term, incoming[j].payload)
  {
    hide FirstGap, HeldUpTo, Renumbered;
    HeldIsGap(log, prev, incoming, g, 0);
    HeldBounds(log, prev, incoming, g);
    if g < |incoming| {
      assert log[..prev + g][..prev + g] == log[..prev + g];
      ContinuedWith(log[..prev + g], incoming, g, prev);
    }
  }

  lemma HeldBounds(log: seq<Entry>, prev: nat, incoming: seq<Entry>, g: nat)
    requires HeldUpTo(log, prev, incoming, g)
    ensures g <= |incoming| && prev + g <= |log|
  {
  }

  lemma ContinuedWith(front: seq<Entry>, incoming: seq<Entry>, g: nat, prev: nat)
    requires g <= |incoming| && |front| == prev + g
    ensures var all := front + Renumbered(incoming[g..], prev + g);
            |all| == prev + |incoming| && all[..prev + g] == front
            && forall j | g <= j < |incoming| ::
                 all[prev + j] == Entry(prev + j + 1, incoming[j].term, incoming[j].payload)
  {
    var more := Renumbered(incoming[g..], prev + g);
    forall j | g <= j < |incoming|
      ensures (front + more)[prev + j] == Entry(prev + j + 1, incoming[j].term, incoming[j].payload)
    {
      assert more[j - g] == incoming[g..][j - g].(index := prev + g + 1 + (j - g));
    }
  }

  lemma {:induction false} HeldIsGap(log: seq<Entry>, prev: nat, incoming: seq<Entry>, g: nat, k: nat)
    requires HeldUpTo(log, prev, incoming, g) && k <= g
    ensures FirstGap(log, prev, incoming, k) == g
    decreases g - k
  {
    if k < g {
      HeldIsGap(log, prev, incoming, g, k + 1);
    }
  }

  /** There is such a count for every accepted append. */
  lemma SomeHeld(log: seq<Entry>, prev: nat, incoming: seq<Entry>) returns (g: nat)
    requires prev <= |log|
    ensures HeldUpTo(log, prev, incoming, g)
  {
    g := FirstGap(log, prev, incoming, 0);
    FirstGapMeans(log, prev, incoming, 0);
    GapInside(log, prev, incoming, 0);
    forall j | 0 <= j < g
      ensures log[prev + j].term == incoming[j].term
    {
      assert TermAt(log, prev + 1 + j) == incoming[j].term;
    }
  }

  lemma MeetAt(x: seq<Entry>, y: seq<Entry>, i: nat)
    requires SameLogsWhereTermsMeet(x, y) && i < |x| && i < |y| && x[i].term == y[i].term
    ensures x[..i + 1] == y[..i + 1]
  {
  }

  lemma AcceptedAgrees(log: seq<Entry>, lead: seq<Entry>, prev: nat, prevTerm: int)
    requires Contiguous(log) && SameLogsWhereTermsMeet(log, lead) && prev <= |lead| && prevTerm == TermAt(lead, prev)
    requires Accepts(log, prev, prevTerm)
    ensures prev <= |log| && log[..prev] == lead[..prev]
  {
    if prev > 0 {
      assert log[prev - 1].term == lead[prev - 1].term;
    }
  }

  /** Up to the first gap the follower's log is the leader's. */
  lemma GapAgrees(log: seq<Entry>, lead: seq<Entry>, prev: nat, prevTerm: int, n: nat)
    requires Contiguous(log) && SameLogsWhereTermsMeet(log, lead) && prev + n <= |lead| && prevTerm == TermAt(lead, prev)
    requires Accepts(log, prev, prevTerm)
    ensures var at := prev + FirstGap(log, prev, lead[prev..prev + n], 0);
            at <= prev + n && at <= |log| && log[..at] == lead[..at]
            && (at < prev + n && at < |log| ==> log[at].term != lead[at].term)
  {
    hide SameLogsWhereTermsMeet, Contiguous;
    var incoming := lead[prev..prev + n];
    var g := FirstGap(log, prev, incoming, 0);
    FirstGapMeans(log, prev, incoming, 0);
    AcceptedAgrees(log, lead, prev, prevTerm);
    if g > 0 {
      assert TermAt(log, prev + 1 + (g - 1)) == incoming[g - 1].term;
      assert incoming[g - 1] == lead[prev + g - 1];
      MeetAt(log, lead, prev + g - 1);
    }
  }

  lemma RenumberedSlice(lead: seq<Entry>, from: nat, to: nat)
    requires Contiguous(lead) && from <= to <= |lead|
    ensures Renumbered(lead[from..to], from) == lead[from..to]
  {
  }

  lemma MergedIs(log: seq<Entry>, lead: seq<Entry>, prev: nat, n: nat)
    requires Contiguous(lead) && prev + n <= |lead|
    requires var at := prev + FirstGap(log, prev, lead[prev..prev + n], 0);
             at <= prev + n && at <= |log| && log[..at] == lead[..at]
    ensures var at := prev + FirstGap(log, prev, lead[prev..prev + n], 0);
            Merged(log, prev, lead[prev..prev + n]) == if at < prev + n then lead[..prev + n] else log
  {
    hide FirstGap, Renumbered, Contiguous;
    var g := FirstGap(log, prev, lead[prev..prev + n], 0);
    if g < n {
      assert lead[prev..prev + n][g..] == lead[prev + g..prev + n];
      RenumberedSlice(lead, prev + g, prev + n);
      assert lead[..prev + g] + lead[prev + g..prev + n] == lead[..prev + n];
    }
  }

  /** What two logs share ends where their terms first differ. */
  lemma SharedUpTo(log: seq<Entry>, lead: seq<Entry>, at: nat, m: nat)
    requires at <= |log| && at < m <= |lead| && (at < |log| ==> log[at].term != lead[at].term)
    ensures forall i | 0 <= i <= |log| && i <= |lead| && log[..i] == lead[..i] :: lead[..i] <= lead[..m]
  {
    forall i | 0 <= i <= |log| && i <= |lead| && log[..i] == lead[..i]
      ensures i <= at
    {
      assert forall j | 0 <= j < i :: log[..i][j] == log[j] && lead[..i][j] == lead[j];
    }
  }

  /** Merging a slice of a leader's log leaves a log that agrees with the leader up to the end of
      the slice, is either the old log or exactly the leader's up to there, and keeps every
      prefix the two already shared. */
  lemma MergeTakesLeader(log: seq<Entry>, lead: seq<Entry>, prev: nat, prevTerm: int, n: nat)
    requires Contiguous(log) && Contiguous(lead) && SameLogsWhereTermsMeet(log, lead)
    requires prev + n <= |lead| && prevTerm == TermAt(lead, prev)
    requires Accepts(log, prev, prevTerm)
    ensures var log' := Merged(log, prev, lead[prev..prev + n]);
            lead[..prev + n] <= log'
            && (log' == log || log' == lead[..prev + n])
            && forall i | 0 <= i <= |log| && i <= |lead| && log[..i] == lead[..i] :: lead[..i] <= log'
  {
    hide Merged, FirstGap, Contiguous, SameLogsWhereTermsMeet, Accepts, TermAt;
    GapAgrees(log, lead, prev, prevTerm, n);
    MergedIs(log, lead, prev, n);
    var at := prev + FirstGap(log, prev, lead[prev..prev + n], 0);
    if at < prev + n {
      SharedUpTo(log, lead, at, prev + n);
    }
  }
}
