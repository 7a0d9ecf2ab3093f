/** The deadline the host sets for one exchange, against the time the guest may take. */
module Budget {
  import opened Duration
  import opened Proto
  import opened Guest

  /** The product and sum of Executor.exchange, each in 64-bit nanoseconds. */
  function BudgetNs(limitMs: int, n: nat, extraNs: int): int {
    Wrap(Wrap(Wrap(limitMs * NS_PER_MS) * (n + 1)) + extraNs)
  }

  lemma TimesGrows(t: int, n: nat)
    requires t >= 0
    ensures 0 <= t <= t * (n + 1)
  {
    assert t * (n + 1) == t * n + t;
  }

  /** Without overflow the budget is (n+1) time limits plus the grace. */
  lemma BudgetExact(limitMs: int, n: nat, extraNs: int)
    requires limitMs >= 0 && extraNs >= 0 && Fits(limitMs * NS_PER_MS * (n + 1) + extraNs)
    ensures BudgetNs(limitMs, n, extraNs) == limitMs * NS_PER_MS * (n + 1) + extraNs
  {
    var t := limitMs * NS_PER_MS;
    TimesGrows(t, n);
    WrapFits(t);
    WrapFits(t * (n + 1));
    WrapFits(t * (n + 1) + extraNs);
  }

  /** Whether the host waits at least as long as the guest may run. */
  predicate Covers(compiles: bool, limitMs: int, n: nat, extraNs: int) {
    WorstCase(compiles, limitMs, n) * NS_PER_MS <= BudgetNs(limitMs, n, extraNs)
  }

  /**
    The host's budget covers the guest's worst case exactly when there is no compile step or
    three time limits fit in the grace, whatever the number of cases.
  */
  lemma BudgetCovers(compiles: bool, limitMs: int, n: nat, extraNs: int)
    requires limitMs >= 0 && extraNs >= 0 && Fits(limitMs * NS_PER_MS * (n + 1) + extraNs)
    ensures Covers(compiles, limitMs, n, extraNs) <==> !compiles || 3 * limitMs * NS_PER_MS <= extraNs
  {
    BudgetExact(limitMs, n, extraNs);
    assert limitMs * NS_PER_MS * (n + 1) == (n * limitMs) * NS_PER_MS + limitMs * NS_PER_MS;
  }

  const DEFAULT_EXTRA_NS := 30_000 * NS_PER_MS

  /** With the default grace of 30 s, a compiled language is safe up to a limit of 10 s. */
  lemma DefaultGrace(limitMs: int, n: nat)
    requires limitMs >= 0 && Fits(limitMs * NS_PER_MS * (n + 1) + DEFAULT_EXTRA_NS)
    ensures Covers(true, limitMs, n, DEFAULT_EXTRA_NS) <==> limitMs <= 10_000
  {
    BudgetCovers(true, limitMs, n, DEFAULT_EXTRA_NS);
  }

  /** Every guest that keeps its own limits answers within the host's budget. */
  lemma GuestInBudget(w: World, req: ExecRequest, extraNs: int)
    requires InTime(w, req) && req.timeLimitMs >= 0 && extraNs >= 0
    requires Fits(req.timeLimitMs * NS_PER_MS * (|req.stdins| + 1) + extraNs)
    requires !Compiles(req) || 3 * req.timeLimitMs * NS_PER_MS <= extraNs
    ensures GuestTime(w, req) * NS_PER_MS <= BudgetNs(req.timeLimitMs, |req.stdins|, extraNs)
  {
    GuestTimeBounded(w, req);
    BudgetCovers(Compiles(req), req.timeLimitMs, |req.stdins|, extraNs);
  }

  /** Otherwise, when four limits do not overflow, some guest that keeps its own limits is cut off by the host. */
  lemma GuestCutOff(req: ExecRequest, extraNs: int) returns (w: World)
    requires req.timeLimitMs >= 0 && extraNs >= 0
    requires Fits(req.timeLimitMs * NS_PER_MS * (|req.stdins| + 1) + extraNs)
    requires Fits(4 * req.timeLimitMs * NS_PER_MS)
    requires Compiles(req) && 3 * req.timeLimitMs * NS_PER_MS > extraNs
    ensures w.Valid() && InTime(w, req)
    ensures GuestTime(w, req) * NS_PER_MS > BudgetNs(req.timeLimitMs, |req.stdins|, extraNs)
  {
    TimesGrows(req.timeLimitMs * NS_PER_MS, |req.stdins|);
    w := WorstCaseHappens(req);
    BudgetCovers(true, req.timeLimitMs, |req.stdins|, extraNs);
  }
}
