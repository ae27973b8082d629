/** The per-socket inbound token bucket of server/src/ws.ts: a frame is accepted when a whole token
is left, and the refused frames of a sliding window are what closes a socket. */
module RateBucket {

  import opened RateLimit

  /** WS_MSG_BURST and WS_MSG_RATE_PER_SEC. */
  datatype Budget = Budget(burst: real, ratePerSec: real)

  datatype Level = Level(tokens: real, last: int)

  function Earned(budget: Budget, fromMs: int, toMs: int): real {
    (toMs - fromMs) as real / 1000.0 * budget.ratePerSec
  }

  function Min(x: real, y: real): real {
    if x < y then x else y
  }

  function Refill(budget: Budget, level: Level, now: int): Level {
    if now > level.last
    then Level(Min(budget.burst, level.tokens + Earned(budget, level.last, now)), now)
    else level
  }

  predicate Accepts(budget: Budget, level: Level, now: int) {
    Refill(budget, level, now).tokens >= 1.0
  }

  function Take(budget: Budget, level: Level, now: int): Level {
    var full := Refill(budget, level, now);
    if Accepts(budget, level, now) then full.(tokens := full.tokens - 1.0) else full
  }

  class TokenBucket {
    const budget: Budget
    const violationWindowMs: int
    var tokens: real
    var last: int
    var violationAt: seq<int>

    constructor (budget: Budget, violationWindowMs: int, now: int)
      ensures this.budget == budget && this.violationWindowMs == violationWindowMs
      ensures Level(tokens, last) == Level(budget.burst, now) && violationAt == []
    {
      this.budget := budget;
      this.violationWindowMs := violationWindowMs;
      tokens, last, violationAt := budget.burst, now, [];
    }

    method TakeFrame(now: int) returns (accepted: bool)
      modifies this
      ensures accepted == Accepts(budget, old(Level(tokens, last)), now)
      ensures Level(tokens, last) == Take(budget, old(Level(tokens, last)), now)
      ensures violationAt == if accepted then old(violationAt)
                             else Recent(old(violationAt), now - violationWindowMs) + [now]
    {
      var elapsedSec := (now - last) as real / 1000.0;
      if elapsedSec > 0.0 {
        tokens := Min(budget.burst, tokens + elapsedSec * budget.ratePerSec);
        last := now;
      }
      if tokens < 1.0 {
        RecordViolation(now);
        return false;
      }
      tokens := tokens - 1.0;
      return true;
    }

    method RecordViolation(now: int)
      modifies this`violationAt
      ensures violationAt == Recent(old(violationAt), now - violationWindowMs) + [now]
    {
      violationAt := Recent(violationAt, now - violationWindowMs) + [now];
    }

    method Violations(now: int) returns (n: nat)
      modifies this`violationAt
      ensures violationAt == Recent(old(violationAt), now - violationWindowMs) && n == |violationAt|
    {
      violationAt := Recent(violationAt, now - violationWindowMs);
      n := |violationAt|;
    }
  }

  // ----- a stream of frames on one socket -----

  /** The bucket just before frame `k` of a stream on a socket opened at `openedAt`. */
  function Before(budget: Budget, openedAt: int, frames: seq<int>, k: nat): Level
    requires k <= |frames|
  {
    if k == 0 then Level(budget.burst, openedAt)
    else Take(budget, Before(budget, openedAt, frames, k - 1), frames[k - 1])
  }

  predicate Accepted(budget: Budget, openedAt: int, frames: seq<int>, k: nat)
    requires k < |frames|
  {
    Accepts(budget, Before(budget, openedAt, frames, k), frames[k])
  }

  /** How many of the frames i, ..., j - 1 are accepted. */
  function AcceptedCount(budget: Budget, openedAt: int, frames: seq<int>, i: nat, j: nat): nat
    requires i <= j <= |frames|
  {
    if i == j then 0
    else
      AcceptedCount(budget, openedAt, frames, i, j - 1)
      + (if Accepted(budget, openedAt, frames, j - 1) then 1 else 0)
  }

  ghost predicate Usable(budget: Budget) {
    budget.burst >= 1.0 && budget.ratePerSec > 0.0
  }

  /** Frames arrive in clock order, none before the socket opened. */
  ghost predicate InOrder(openedAt: int, frames: seq<int>) {
    && (forall k :: 0 <= k < |frames| ==> openedAt <= frames[k])
    && (forall j, k :: 0 <= j <= k < |frames| ==> frames[j] <= frames[k])
  }

  lemma EarnedAdds(budget: Budget, a: int, b: int, c: int)
    ensures Earned(budget, a, b) + Earned(budget, b, c) == Earned(budget, a, c)
  {
    var x, y, rate := (b - a) as real / 1000.0, (c - b) as real / 1000.0, budget.ratePerSec;
    assert x * rate + y * rate == (x + y) * rate;
  }

  lemma EarnedIsNonNegative(budget: Budget, a: int, b: int)
    requires Usable(budget) && a <= b
    ensures Earned(budget, a, b) >= 0.0
  {
  }

  lemma {:induction false} LevelStaysInRange(budget: Budget, openedAt: int, frames: seq<int>, k: nat)
    requires Usable(budget) && InOrder(openedAt, frames) && k <= |frames|
    ensures var level := Before(budget, openedAt, frames, k);
            && 0.0 <= level.tokens <= budget.burst
            && level.last == if k == 0 then openedAt else frames[k - 1]
  {
    if k > 0 {
      LevelStaysInRange(budget, openedAt, frames, k - 1);
      EarnedIsNonNegative(budget, Before(budget, openedAt, frames, k - 1).last, frames[k - 1]);
    }
  }

  // What is left after frame j - 1 is at most a full bucket at frame i plus the refill since,
  // less what was accepted in between.
  lemma {:induction false} TokensPayForAcceptance(budget: Budget, openedAt: int, frames: seq<int>, i: nat, j: nat)
    requires Usable(budget) && InOrder(openedAt, frames) && i < j <= |frames|
    ensures Before(budget, openedAt, frames, j).tokens
         <= budget.burst + Earned(budget, frames[i], frames[j - 1])
           - AcceptedCount(budget, openedAt, frames, i, j) as real
  {
    var level := Before(budget, openedAt, frames, j - 1);
    LevelStaysInRange(budget, openedAt, frames, j - 1);
    if j - 1 == i {
      assert AcceptedCount(budget, openedAt, frames, i, i) == 0;
      assert Earned(budget, frames[i], frames[i]) == 0.0;
    } else {
      TokensPayForAcceptance(budget, openedAt, frames, i, j - 1);
      EarnedAdds(budget, frames[i], frames[j - 2], frames[j - 1]);
    }
  }

  /** Soundness: over any interval [from, to] holding the frames i, ..., j, the accepted ones
  number at most burst + rate * (to - from) / 1000. */
  lemma BucketBoundsEveryInterval(budget: Budget, openedAt: int, frames: seq<int>, i: nat, j: nat, fromMs: int,
      toMs: int)
    requires Usable(budget) && InOrder(openedAt, frames) && i <= j < |frames|
    requires fromMs <= frames[i] && frames[j] <= toMs
    ensures AcceptedCount(budget, openedAt, frames, i, j + 1) as real <= budget.burst + Earned(budget, fromMs, toMs)
  {
    TokensPayForAcceptance(budget, openedAt, frames, i, j + 1);
    LevelStaysInRange(budget, openedAt, frames, j + 1);
    EarnedAdds(budget, fromMs, frames[i], frames[j]);
    EarnedAdds(budget, fromMs, frames[j], toMs);
    EarnedIsNonNegative(budget, fromMs, frames[i]);
    EarnedIsNonNegative(budget, frames[j], toMs);
  }

  /** The stream respects the budget on every interval that starts and ends at a frame. */
  ghost predicate Conforms(budget: Budget, frames: seq<int>) {
    forall i, j :: 0 <= i <= j < |frames| ==> (j - i + 1) as real <= budget.burst + Earned(budget, frames[i], frames[j])
  }

  // The refilled level at frame k is exact: full at some earlier frame `since`, and every frame
  // from then on has taken one token.
  lemma {:induction false} LevelIsExact(budget: Budget, openedAt: int, frames: seq<int>, k: nat) returns (since: nat)
    requires Usable(budget) && InOrder(openedAt, frames) && Conforms(budget, frames) && k < |frames|
    ensures since <= k
    ensures Refill(budget, Before(budget, openedAt, frames, k), frames[k]).tokens
         == budget.burst + Earned(budget, frames[since], frames[k]) - (k - since) as real
    ensures Accepted(budget, openedAt, frames, k)
  {
    LevelStaysInRange(budget, openedAt, frames, k);
    if k == 0 {
      since := 0;
      EarnedIsNonNegative(budget, openedAt, frames[0]);
    } else {
      since := LevelIsExact(budget, openedAt, frames, k - 1);
      LevelStaysInRange(budget, openedAt, frames, k - 1);
      EarnedAdds(budget, frames[since], frames[k - 1], frames[k]);
      if Refill(budget, Before(budget, openedAt, frames, k), frames[k]).tokens == budget.burst {
        since := k;
      }
    }
    assert (k - since + 1) as real <= budget.burst + Earned(budget, frames[since], frames[k]);
  }

  lemma {:induction false} AllAcceptedCount(budget: Budget, openedAt: int, frames: seq<int>, i: nat, j: nat)
    requires i <= j <= |frames| && forall k :: 0 <= k < |frames| ==> Accepted(budget, openedAt, frames, k)
    ensures AcceptedCount(budget, openedAt, frames, i, j) == j - i
  {
    if i < j {
      AllAcceptedCount(budget, openedAt, frames, i, j - 1);
    }
  }

  /** Exactness: no frame of a stream is refused if and only if the stream respects the budget on
  every interval. */
  lemma NothingRefusedIffConforming(budget: Budget, openedAt: int, frames: seq<int>)
    requires Usable(budget) && InOrder(openedAt, frames)
    ensures (forall k :: 0 <= k < |frames| ==> Accepted(budget, openedAt, frames, k)) <==> Conforms(budget, frames)
  {
    if Conforms(budget, frames) {
      forall k | 0 <= k < |frames| ensures Accepted(budget, openedAt, frames, k) {
        var since := LevelIsExact(budget, openedAt, frames, k);
      }
    }
    if forall k :: 0 <= k < |frames| ==> Accepted(budget, openedAt, frames, k) {
      forall i, j | 0 <= i <= j < |frames|
        ensures (j - i + 1) as real <= budget.burst + Earned(budget, frames[i], frames[j])
      {
        AllAcceptedCount(budget, openedAt, frames, i, j + 1);
        BucketBoundsEveryInterval(budget, openedAt, frames, i, j, frames[i], frames[j]);
      }
    }
  }

  // ----- refused frames -----

  /** All refused frames among the first `k`, and what the bucket still remembers of them. */
  function Refused(budget: Budget, openedAt: int, frames: seq<int>, k: nat): seq<int>
    requires k <= |frames|
  {
    if k == 0 then []
    else if Accepted(budget, openedAt, frames, k - 1) then Refused(budget, openedAt, frames, k - 1)
    else Refused(budget, openedAt, frames, k - 1) + [frames[k - 1]]
  }

  function Remembered(budget: Budget, windowMs: int, openedAt: int, frames: seq<int>, k: nat): seq<int>
    requires k <= |frames|
  {
    if k == 0 then []
    else
      var earlier := Remembered(budget, windowMs, openedAt, frames, k - 1);
      if Accepted(budget, openedAt, frames, k - 1) then earlier
      else Recent(earlier, frames[k - 1] - windowMs) + [frames[k - 1]]
  }

  /** Forgetting as it goes, the bucket still counts every refusal of the sliding window: an old
  burst never adds up to a close, and no recent refusal is missed. */
  lemma {:induction false} ViolationsAreExact(budget: Budget, windowMs: int, openedAt: int, frames: seq<int>, k: nat,
      now: int)
    requires InOrder(openedAt, frames) && k <= |frames| && (k > 0 ==> frames[k - 1] <= now)
    ensures Recent(Remembered(budget, windowMs, openedAt, frames, k), now - windowMs)
         == Recent(Refused(budget, openedAt, frames, k), now - windowMs)
  {
    if k > 0 {
      ViolationsAreExact(budget, windowMs, openedAt, frames, k - 1, now);
      if !Accepted(budget, openedAt, frames, k - 1) {
        var earlier := Remembered(budget, windowMs, openedAt, frames, k - 1);
        RecentAppend(Recent(earlier, frames[k - 1] - windowMs), frames[k - 1], now - windowMs);
        RecentOfRecent(earlier, frames[k - 1] - windowMs, now - windowMs);
        RecentAppend(Refused(budget, openedAt, frames, k - 1), frames[k - 1], now - windowMs);
      }
    }
  }
}
