/** Reading a run's events page by page while the run goes on. */
module Polling {
  import opened Wrappers
  import opened Engine
  import opened Invariant
  import opened System
  import opened Behaviours
  import RS = RunSteps

  datatype Page = Page(events: seq<Event>, nextAfter: nat, hasMore: bool)

  /** The stored events numbered after `after`, in order. */
  function Later(log: seq<Event>, after: nat): seq<Event> {
    if log == [] then []
    else if log[0].seqNo > after then [log[0]] + Later(log[1..], after)
    else Later(log[1..], after)
  }

  function Upto<T>(s: seq<T>, n: nat): seq<T> { if |s| <= n then s else s[..n] }

  /** How many of the candidates go on the page: as many as the byte budget takes, one by one. */
  function Taken(candidates: seq<Event>, taken: nat, fits: (seq<Event>, Event) -> bool): (n: nat)
    requires taken <= |candidates|
    ensures taken <= n <= |candidates|
    decreases |candidates| - taken
  {
    if taken < |candidates| && fits(candidates[..taken], candidates[taken]) then Taken(candidates, taken + 1, fits)
        else taken
  }

  function PageOf(log: seq<Event>, after: nat, limit: nat, fits: (seq<Event>, Event) -> bool): Page {
    var candidates := Upto(Later(log, after), limit + 1);
    var shown := Upto(candidates, limit);
    var n := Taken(shown, 0, fits);
    Page(shown[..n], if n == 0 then after else shown[n - 1].seqNo, |candidates| > n)
  }

  /** The page as the source builds it: one more row than asked for is fetched to tell whether any
      is left, and rows are added until the reply is full. */
  method Poll(log: seq<Event>, after: nat, limit: nat, fits: (seq<Event>, Event) -> bool) returns (page: Page)
    ensures page == PageOf(log, after, limit, fits)
  {
    var candidates := Upto(Later(log, after), limit + 1);
    var shown := Upto(candidates, limit);
    var events, nextAfter := [], after;
    var i := 0;
    while i < |shown| && fits(events, shown[i])
      invariant 0 <= i <= |shown| && events == shown[..i]
      invariant nextAfter == if i == 0 then after else shown[i - 1].seqNo
      invariant Taken(shown, 0, fits) == Taken(shown, i, fits)
    {
      events, nextAfter := events + [shown[i]], shown[i].seqNo;
      i := i + 1;
    }
    return Page(events, nextAfter, |candidates| > |events|);
  }

  lemma {:induction false} LaterOf(log: seq<Event>, first: nat, after: nat)
    requires forall i | 0 <= i < |log| :: log[i].seqNo == first + i
    ensures Later(log, after) ==
            (if after < first then log else if after - first + 1 <= |log| then log[after - first + 1..] else [])
    decreases |log|
  {
    if log != [] {
      LaterOf(log[1..], first + 1, after);
      if log[0].seqNo > after {
        assert log == [log[0]] + log[1..];
      }
    }
  }

  /** A page of a gapless log is the slice after `after`; it says there is more exactly when there is,
      and it is not empty when something is left that fits. */
  lemma PageIsSlice(log: seq<Event>, after: nat, limit: nat, fits: (seq<Event>, Event) -> bool)
    requires Gapless(log, |log|) && after <= |log| && limit > 0
    ensures var page := PageOf(log, after, limit, fits);
            && after <= page.nextAfter <= |log| && page.events == log[after..page.nextAfter]
            && (page.hasMore <==> page.nextAfter < |log|)
            && (after < |log| && fits([], log[after]) ==> after < page.nextAfter)
  {
    LaterOf(log, 1, after);
    assert Later(log, after) == log[after..];
    var candidates := Upto(log[after..], limit + 1);
    var shown := Upto(candidates, limit);
    var n := Taken(shown, 0, fits);
    assert n > 0 ==> shown[n - 1] == log[after + n - 1];
    assert shown[..n] == log[after..after + n];
    assert shown != [] ==> shown[..0] == [] && shown[0] == log[after];
  }

  lemma {:induction false} TakenIsFull(shown: seq<Event>, taken: nat, fits: (seq<Event>, Event) -> bool)
    requires taken <= |shown|
    ensures var n := Taken(shown, taken, fits);
            && (forall k | taken <= k < n :: fits(shown[..k], shown[k]))
            && (n < |shown| ==> !fits(shown[..n], shown[n]))
    decreases |shown| - taken
  {
    if taken < |shown| && fits(shown[..taken], shown[taken]) { TakenIsFull(shown, taken + 1, fits); }
  }

  /** The rows a page is filled from: as many as are asked for, or all that is left. */
  lemma ShownIs(log: seq<Event>, after: nat, limit: nat)
    requires after <= |log|
    ensures var m := if |log| - after < limit then |log| - after else limit;
            Upto(Upto(log[after..], limit + 1), limit) == log[after..after + m]
  {}

  lemma SliceAt(log: seq<Event>, after: nat, m: nat, k: nat)
    requires after + m <= |log| && k <= m
    ensures log[after..after + m][..k] == log[after..after + k]
    ensures k < m ==> log[after..after + m][k] == log[after + k]
  {}

  function RowsOf(log: seq<Event>, after: nat, limit: nat): seq<Event>
    requires after <= |log|
  {
    log[after..after + if |log| - after < limit then |log| - after else limit]
  }

  lemma NextAfterIs(log: seq<Event>, after: nat, limit: nat, fits: (seq<Event>, Event) -> bool)
    requires Gapless(log, |log|) && after <= |log| && limit > 0
    ensures PageOf(log, after, limit, fits).nextAfter == after + Taken(RowsOf(log, after, limit), 0, fits)
  {
    hide Upto, Taken, Later;
    LaterOf(log, 1, after);
    assert Later(log, after) == log[after..];
    ShownIs(log, after, limit);
    var shown := RowsOf(log, after, limit);
    var n := Taken(shown, 0, fits);
    if n > 0 { SliceAt(log, after, |shown|, n - 1); }
  }

  /** A page takes every event that fits behind those before it, and stops only at the end of the log,
      at its limit, or at the first event that does not fit. */
  lemma PageIsFull(log: seq<Event>, after: nat, limit: nat, fits: (seq<Event>, Event) -> bool)
    requires Gapless(log, |log|) && after <= |log| && limit > 0
    ensures var end := PageOf(log, after, limit, fits).nextAfter;
            && after <= end <= |log| && end - after <= limit
            && (forall k | after <= k < end :: fits(log[after..k], log[k]))
            && (end == |log| || end - after == limit || !fits(log[after..end], log[end]))
  {
    hide PageOf, Taken, Gapless;
    NextAfterIs(log, after, limit, fits);
    var shown := RowsOf(log, after, limit);
    var n := Taken(shown, 0, fits);
    TakenIsFull(shown, 0, fits);
    SliceAt(log, after, |shown|, n);
    forall k | after <= k < after + n ensures fits(log[after..k], log[k]) {
      SliceAt(log, after, |shown|, k - after);
      assert fits(shown[..k - after], shown[k - after]);
    }
  }

  /** Poll after poll, each from where the last one stopped, against a log that may grow between. */
  function Followed(logs: seq<seq<Event>>, limits: seq<nat>, fits: (seq<Event>, Event) -> bool): (r: (seq<Event>, nat))
    requires |limits| == |logs|
  {
    if logs == [] then ([], 0)
    else
      var k := |logs| - 1;
      var (read, after) := Followed(logs[..k], limits[..k], fits);
      var page := PageOf(logs[k], after, limits[k], fits);
      (read + page.events, page.nextAfter)
  }

  /** What a poller has read is a prefix of the log: no gap, no duplicate, nothing out of order. */
  lemma {:induction false} FollowsPrefix(logs: seq<seq<Event>>, limits: seq<nat>, fits: (seq<Event>, Event) -> bool)
    requires |limits| == |logs| && (forall i | 0 <= i < |limits| :: limits[i] > 0)
    requires forall i | 0 <= i < |logs| :: Gapless(logs[i], |logs[i]|)
    requires forall i, j | 0 <= i < j < |logs| :: logs[i] <= logs[j]
    ensures var (read, after) := Followed(logs, limits, fits);
            if logs == [] then read == [] && after == 0
            else after <= |logs[|logs| - 1]| && read == logs[|logs| - 1][..after]
  {
    hide PageOf, Gapless;
    if logs != [] {
      var k := |logs| - 1;
      FollowsPrefix(logs[..k], limits[..k], fits);
      var (read, after) := Followed(logs[..k], limits[..k], fits);
      assert after <= |logs[k]| && read == logs[k][..after] by {
        if k > 0 {
          assert logs[..k][k - 1] == logs[k - 1] && logs[k - 1] <= logs[k];
          assert logs[k - 1][..after] == logs[k][..after];
        }
      }
      PageIsSlice(logs[k], after, limits[k], fits);
      var page := PageOf(logs[k], after, limits[k], fits);
      assert logs[k][..after] + logs[k][after..page.nextAfter] == logs[k][..page.nextAfter];
    }
  }

  /** The logs of run `r` that polls at the states `at` see. */
  ghost function LogsAt(trace: seq<State>, at: seq<nat>, r: Id): seq<seq<Event>>
    requires forall i | 0 <= i < |at| :: at[i] < |trace| && r in trace[at[i]].db.events
  {
    seq(|at|, i requires 0 <= i < |at| => trace[at[i]].db.events[r])
  }

  lemma LogsGrow(cfg: Config, trace: seq<State>, moments: seq<Moment>, at: seq<nat>, r: Id)
    requires Behaviour(cfg, trace, moments)
    requires forall i | 0 <= i < |at| :: at[i] <= |moments| && r in trace[at[i]].db.runs && r in trace[at[i]].db.events
    requires forall i, j | 0 <= i < j < |at| :: at[i] <= at[j]
    ensures var logs := LogsAt(trace, at, r);
            && (forall i | 0 <= i < |logs| :: Gapless(logs[i], |logs[i]|))
            && (forall i, j | 0 <= i < j < |logs| :: logs[i] <= logs[j])
  {
    hide Act, Permitted;
    var logs := LogsAt(trace, at, r);
    forall i | 0 <= i < |logs| ensures Gapless(logs[i], |logs[i]|) {
      LogsAreGapless(cfg, trace, moments, at[i], at[i], r);
    }
    forall i, j | 0 <= i < j < |logs| ensures logs[i] <= logs[j] {
      LogsAreGapless(cfg, trace, moments, at[i], at[j], r);
    }
  }

  /** Over any run of the engine, a poller that follows `nextAfter` from 0 reads a prefix of the
      run's events, whatever happens between its polls. */
  lemma PollerReadsPrefix(cfg: Config, trace: seq<State>, moments: seq<Moment>, at: seq<nat>, limits: seq<nat>, r: Id,
                          fits: (seq<Event>, Event) -> bool)
    requires Behaviour(cfg, trace, moments) && at != [] && |limits| == |at|
             && (forall i | 0 <= i < |at| :: limits[i] > 0)
    requires forall i | 0 <= i < |at| :: at[i] <= |moments| && r in trace[at[i]].db.runs && r in trace[at[i]].db.events
    requires forall i, j | 0 <= i < j < |at| :: at[i] <= at[j]
    ensures var log := trace[at[|at| - 1]].db.events[r];
            var (read, after) := Followed(LogsAt(trace, at, r), limits, fits);
            after <= |log| && read == log[..after]
  {
    hide Act, Permitted, Followed, PageOf, Gapless;
    LogsGrow(cfg, trace, moments, at, r);
    FollowsPrefix(LogsAt(trace, at, r), limits, fits);
  }
}
