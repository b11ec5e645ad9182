/**
  When deliveries are due (internal/recording/outbox.go, nextDue; uploader.go, uploadBackoff,
  overdueState and checkOverdue). Times are in nanoseconds.
 */
module Schedule {
  import opened Tickets

  const MINUTE := 60_000_000_000
  const HOUR := 3_600_000_000_000
  const MAX_BACKOFF := HOUR
  const OVERDUE_AFTER := 7_200_000_000_000

  datatype Entry = Entry(state: TicketState, readyAt: int, nextAttempt: int)

  // Failed, lost and unfinished recordings are never delivered.
  predicate Deliverable(e: Entry) {
    e.state == Ready || e.state == Delivered
  }

  predicate Due(e: Entry, now: int) {
    Deliverable(e) && e.nextAttempt <= now
  }

  function Min(a: int, b: int): int {
    if a <= b then a else b
  }

  // Whether to deliver one of `seen`, which, and else how long nothing of it becomes due.
  ghost predicate Chosen(tickets: map<string, Entry>, seen: set<string>, now: int, id: Option<string>, wait: int) {
    && (id.Some? ==>
         id.value in tickets && id.value in seen && Due(tickets[id.value], now)
         && forall k | k in seen && k in tickets && Due(tickets[k], now) :: tickets[id.value].readyAt <= tickets[k].readyAt)
    && (id.None? ==> forall k | k in seen && k in tickets :: !Due(tickets[k], now))
    && 0 < wait <= HOUR
    && (forall k | k in seen && k in tickets && Deliverable(tickets[k]) && !Due(tickets[k], now) :: now + wait <= tickets[k].nextAttempt)
    && (wait == HOUR || exists k :: k in seen && k in tickets && Deliverable(tickets[k]) && tickets[k].nextAttempt == now + wait)
  }

  lemma ChosenGrows(tickets: map<string, Entry>, seen: set<string>, now: int, id: Option<string>, wait: int, k: string)
    requires Chosen(tickets, seen, now, id, wait) && k in tickets && k !in seen
    ensures var c := tickets[k];
      Chosen(tickets, seen + {k}, now,
             if Due(c, now) && (id.None? || c.readyAt < tickets[id.value].readyAt) then Some(k) else id,
             if Deliverable(c) && !Due(c, now) then Min(wait, c.nextAttempt - now) else wait)
  {
    var c := tickets[k];
    if Deliverable(c) && !Due(c, now) && c.nextAttempt - now < wait {
      assert k in seen + {k};
    } else if wait != HOUR {
      var j :| j in seen && j in tickets && Deliverable(tickets[j]) && tickets[j].nextAttempt == now + wait;
      assert j in seen + {k};
    }
  }

  // The due delivery that has waited longest; without one, the time until the next is due, which the
  // worker may sleep without missing any.
  method NextDue(tickets: map<string, Entry>, now: int) returns (id: Option<string>, wait: int)
    ensures id.Some? <==> exists k :: k in tickets && Due(tickets[k], now)
    ensures id.Some? ==>
              id.value in tickets && Due(tickets[id.value], now) && wait == 0
              && forall k | k in tickets && Due(tickets[k], now) :: tickets[id.value].readyAt <= tickets[k].readyAt
    ensures id.None? ==>
              && 0 < wait <= HOUR
              && (forall k, later | k in tickets && now <= later < now + wait :: !Due(tickets[k], later))
              && (wait < HOUR ==> exists k :: k in tickets && Due(tickets[k], now + wait))
  {
    id, wait := None, HOUR;
    var rest := tickets.Keys;
    while rest != {}
      invariant rest <= tickets.Keys
      invariant Chosen(tickets, tickets.Keys - rest, now, id, wait)
      decreases rest
    {
      var k :| k in rest;
      ChosenGrows(tickets, tickets.Keys - rest, now, id, wait, k);
      assert tickets.Keys - (rest - {k}) == tickets.Keys - rest + {k};
      rest := rest - {k};
      var c := tickets[k];
      if Deliverable(c) {
        if c.nextAttempt <= now {
          if id.None? || c.readyAt < tickets[id.value].readyAt {
            id := Some(k);
          }
        } else {
          wait := Min(wait, c.nextAttempt - now);
        }
      }
    }
    if id.Some? {
      wait := 0;
    }
  }

  function Pow2(n: nat): nat {
    if n == 0 then 1 else 2 * Pow2(n - 1)
  }

  // A minute, shifted by at most ten bits.
  function Shifted(attempts: int): nat {
    MINUTE * Pow2(Min(if attempts - 1 > 0 then attempts - 1 else 0, 10))
  }

  function Backoff(attempts: int): nat {
    Min(MAX_BACKOFF, Shifted(attempts))
  }

  lemma Pow2Grows(m: nat, n: nat)
    requires m <= n
    ensures 1 <= Pow2(m) <= Pow2(n)
  {
    if m < n {
      Pow2Grows(m, n - 1);
    } else if n > 0 {
      Pow2Grows(n - 1, n - 1);
    }
  }

  // The wait doubles from a minute up to the maximum, for any number of failures; the shift never
  // leaves 63 bits.
  lemma BackoffDoubles(attempts: int)
    ensures MINUTE <= Backoff(attempts) <= MAX_BACKOFF && Shifted(attempts) < 0x8000_0000_0000_0000
    ensures attempts <= 1 ==> Backoff(attempts) == MINUTE
    ensures attempts >= 1 ==> Backoff(attempts + 1) == Min(MAX_BACKOFF, 2 * Backoff(attempts))
  {
    var n := Min(if attempts - 1 > 0 then attempts - 1 else 0, 10);
    assert Pow2(10) == 1024 by {
      assert Pow2(5) == 32;
    }
    Pow2Grows(n, 10);
    Pow2Grows(0, n);
    if n >= 6 {
      assert Pow2(6) == 64;
      Pow2Grows(6, n);
    }
  }

  // Overdue uploads.

  predicate Overdue(e: Entry, now: int) {
    e.state == Ready && now - e.readyAt >= OVERDUE_AFTER
  }

  function AllOverdue(tickets: map<string, Entry>, now: int): set<string> {
    set k | k in tickets && Overdue(tickets[k], now)
  }

  // How many recordings these are, and the earliest time any of them became ready.
  ghost predicate Counted(tickets: map<string, Entry>, ids: set<string>, count: nat, oldest: Option<int>) {
    && count == |ids|
    && (oldest.Some? <==> ids != {})
    && (oldest.Some? ==> exists k :: k in ids && k in tickets && tickets[k].readyAt == oldest.value)
    && (oldest.Some? ==> forall k | k in ids && k in tickets :: oldest.value <= tickets[k].readyAt)
  }

  lemma CountedGrows(tickets: map<string, Entry>, ids: set<string>, count: nat, oldest: Option<int>, k: string)
    requires k in tickets && k !in ids && Counted(tickets, ids, count, oldest)
    ensures Counted(tickets, ids + {k}, count + 1,
                    if oldest.None? || tickets[k].readyAt < oldest.value then Some(tickets[k].readyAt) else oldest)
  {
    assert k in ids + {k};
    if oldest.Some? {
      var j :| j in ids && j in tickets && tickets[j].readyAt == oldest.value;
      assert j in ids + {k};
    }
  }

  // Alerts and clears take turns, also across restarts.
  predicate TakeTurns(before: bool, log: seq<bool>) {
    log == [] || (TakeTurns(before, log[..|log| - 1]) && log[|log| - 1] != LastOr(before, log[..|log| - 1]))
  }

  function LastOr(before: bool, log: seq<bool>): bool {
    if log == [] then before else log[|log| - 1]
  }

  class Alarm {
    var open: bool
    ghost var before: bool    // What the log of earlier processes left open.
    ghost var log: seq<bool>  // True for each alert, false for each clear.

    ghost predicate Valid()
      reads this
    {
      TakeTurns(before, log) && open == LastOr(before, log)
    }

    constructor (open: bool)
      ensures Valid() && this.open == open == before && log == []
    {
      this.open, before, log := open, open, [];
    }

    // Reports when the overdue recordings become some or none; counts them and finds the oldest.
    method Check(tickets: map<string, Entry>, now: int) returns (count: nat, oldest: Option<int>)
      requires Valid()
      modifies `open, `log
      ensures Valid() && open == (AllOverdue(tickets, now) != {})
      ensures log == if open == old(open) then old(log) else old(log) + [open]
      ensures Counted(tickets, AllOverdue(tickets, now), count, oldest)
    {
      count, oldest := CountOverdue(tickets, now);
      if (count > 0) != open {
        assert (log + [!open])[..|log|] == log;
        log := log + [!open];
        open := !open;
      }
    }
  }

  method CountOverdue(tickets: map<string, Entry>, now: int) returns (count: nat, oldest: Option<int>)
    ensures Counted(tickets, AllOverdue(tickets, now), count, oldest)
  {
    count, oldest := 0, None;
    var rest := tickets.Keys;
    ghost var all, found: set<string> := AllOverdue(tickets, now), {};
    while rest != {}
      invariant rest <= tickets.Keys && found == all - rest
      invariant Counted(tickets, found, count, oldest)
      decreases rest
    {
      var k :| k in rest;
      LeftOut(all, rest, k);
      rest := rest - {k};
      if Overdue(tickets[k], now) {
        CountedGrows(tickets, found, count, oldest, k);
        found := found + {k};
        count := count + 1;
        if oldest.None? || tickets[k].readyAt < oldest.value {
          oldest := Some(tickets[k].readyAt);
        }
      }
    }
    assert found == all;
  }

  lemma LeftOut(all: set<string>, rest: set<string>, k: string)
    requires k in rest
    ensures all - (rest - {k}) == if k in all then all - rest + {k} else all - rest
    ensures k !in all - rest
  {
  }
}
