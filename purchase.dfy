/**
 * The purchase loop run on confirmation: up to `qty` purchase calls, one unit each, stopping at
 * the first call that fails, with a pause after every successful call; and the report chosen
 * from its result. The purchase executor is an oracle: `buy(k)` is the answer of the k-th call
 * (counting from 0).
 */
module Purchase {

  /** What the loop does, in order: a purchase call and its answer, or a pause. */
  datatype Event = Attempt(ok: bool) | Pause

  /** The index of the first failing call at or after `i`, or `max(i, qty)` when none fails before `qty`. */
  function StreakFrom(buy: nat -> bool, i: nat, qty: int): (n: nat)
    ensures i <= n
    ensures i >= qty ==> n == i
    ensures i < qty ==> n <= qty
    ensures forall j :: i <= j < n ==> buy(j)
    ensures n < qty ==> !buy(n)
    decreases qty - i
  {
    if i >= qty || !buy(i) then i else StreakFrom(buy, i + 1, qty)
  }

  /** How many of the first `qty` calls succeed before the first failure. */
  function Streak(buy: nat -> bool, qty: int): (n: nat)
    ensures qty <= 0 ==> n == 0
    ensures qty >= 0 ==> n <= qty
    ensures forall j :: 0 <= j < n ==> buy(j)
    ensures n < qty ==> !buy(n)
  {
    StreakFrom(buy, 0, qty)
  }

  /** The streak is fixed by the answers: length `k` when the first `k` succeed and the next one fails or is past `qty`. */
  lemma StreakIs(buy: nat -> bool, qty: int, k: nat)
    requires k <= qty
    requires forall j :: 0 <= j < k ==> buy(j)
    requires k < qty ==> !buy(k)
    ensures Streak(buy, qty) == k
  {
  }

  /** `[Attempt(true), Pause]` repeated `n` times: `n` successful calls, each followed by its pause. */
  function SuccessRun(n: nat): (t: seq<Event>)
    ensures |t| == 2 * n
  {
    if n == 0 then [] else SuccessRun(n - 1) + [Attempt(true), Pause]
  }

  /** The events of a loop that bought `bought` units and, when `stopped`, then made one failing call. */
  function LoopTrace(bought: nat, stopped: bool): seq<Event> {
    SuccessRun(bought) + if stopped then [Attempt(false)] else []
  }

  /** The purchase loop: `while bought < qty`, call, break on failure, count, pause. */
  method PurchaseLoop(qty: int, buy: nat -> bool) returns (bought: nat, calls: nat, trace: seq<Event>)
    ensures bought == Streak(buy, qty)
    ensures qty >= 0 ==> bought <= qty
    ensures calls == if bought < qty then bought + 1 else bought
    ensures trace == LoopTrace(bought, bought < qty)
  {
    bought, calls, trace := 0, 0, [];
    while bought < qty
      invariant calls == bought
      invariant bought == 0 || bought <= qty
      invariant forall j :: 0 <= j < bought ==> buy(j)
      invariant trace == SuccessRun(bought)
      decreases qty - bought
    {
      var success := buy(calls);
      calls := calls + 1;
      trace := trace + [Attempt(success)];
      if !success {
        break;
      }
      bought := bought + 1;
      trace := trace + [Pause];
    }
    if bought < qty {
      StreakIs(buy, qty, bought);
    } else if qty >= 0 {
      StreakIs(buy, qty, qty);
    }
  }

  // ---------------------------------------------------------------------------
  // Properties of the loop's run

  /** The i-th event of a run of successes: attempts at even positions, pauses at odd ones. */
  lemma {:induction false} SuccessRunAt(n: nat, i: nat)
    requires i < 2 * n
    ensures SuccessRun(n)[i] == if i % 2 == 0 then Attempt(true) else Pause
  {
    if i < 2 * (n - 1) {
      SuccessRunAt(n - 1, i);
    }
  }

  function CountAttempts(t: seq<Event>): nat {
    if t == [] then 0 else (if t[0].Attempt? then 1 else 0) + CountAttempts(t[1..])
  }

  function CountPauses(t: seq<Event>): nat {
    if t == [] then 0 else (if t[0].Pause? then 1 else 0) + CountPauses(t[1..])
  }

  lemma {:induction false} CountsOfConcat(a: seq<Event>, b: seq<Event>)
    ensures CountAttempts(a + b) == CountAttempts(a) + CountAttempts(b)
    ensures CountPauses(a + b) == CountPauses(a) + CountPauses(b)
  {
    if a != [] {
      assert (a + b)[1..] == a[1..] + b;
      CountsOfConcat(a[1..], b);
    } else {
      assert a + b == b;
    }
  }

  /** A loop that bought `bought` units made `bought` calls, plus one when it stopped, and `bought` pauses. */
  lemma {:induction false} TraceCounts(bought: nat, stopped: bool)
    ensures CountAttempts(LoopTrace(bought, stopped)) == bought + if stopped then 1 else 0
    ensures CountPauses(LoopTrace(bought, stopped)) == bought
  {
    if bought > 0 {
      TraceCounts(bought - 1, false);
      assert LoopTrace(bought - 1, false) == SuccessRun(bought - 1);
      CountsOfConcat(SuccessRun(bought - 1), [Attempt(true), Pause]);
      assert CountAttempts([Attempt(true), Pause]) == 1;
    }
    CountsOfConcat(SuccessRun(bought), if stopped then [Attempt(false)] else []);
  }

  /** Every successful call is followed at once by a pause — the last one included. */
  lemma PauseAfterEverySuccess(bought: nat, stopped: bool, i: nat)
    requires i < |LoopTrace(bought, stopped)| && LoopTrace(bought, stopped)[i] == Attempt(true)
    ensures i + 1 < |LoopTrace(bought, stopped)| && LoopTrace(bought, stopped)[i + 1] == Pause
  {
    var t := LoopTrace(bought, stopped);
    SuccessRunAt(bought, i);
    SuccessRunAt(bought, i + 1);
  }

  /** A failed call is the last thing the loop does: no call and no pause come after it. */
  lemma NothingAfterFailure(bought: nat, stopped: bool, i: nat)
    requires i < |LoopTrace(bought, stopped)| && LoopTrace(bought, stopped)[i] == Attempt(false)
    ensures stopped && i == |LoopTrace(bought, stopped)| - 1
  {
    if i < 2 * bought {
      SuccessRunAt(bought, i);
    }
  }

  // ---------------------------------------------------------------------------
  // The report

  /** The message sent after the loop: completed, or stopped with the shortfall. */
  datatype Report = Completed(bought: nat, qty: int) | Stopped(bought: nat, qty: int)

  function ReportFor(bought: nat, qty: int): Report {
    if bought == qty then Completed(bought, qty) else Stopped(bought, qty)
  }

  /** The completed report is chosen exactly when every one of the `qty` calls succeeds. */
  lemma CompletedIffAllSucceed(buy: nat -> bool, qty: nat)
    ensures ReportFor(Streak(buy, qty), qty).Completed? <==> forall j :: 0 <= j < qty ==> buy(j)
  {
    if forall j :: 0 <= j < qty ==> buy(j) {
      StreakIs(buy, qty, qty);
    }
  }

  /** When call `k` (1-based) is the first to fail, `k - 1` units are bought and the stopped report is chosen. */
  lemma StoppedAtFirstFailure(buy: nat -> bool, qty: int, k: nat)
    requires 1 <= k <= qty
    requires forall j :: 0 <= j < k - 1 ==> buy(j)
    requires !buy(k - 1)
    ensures Streak(buy, qty) == k - 1
    ensures ReportFor(Streak(buy, qty), qty) == Stopped(k - 1, qty)
  {
    StreakIs(buy, qty, k - 1);
  }
}
