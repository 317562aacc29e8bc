/**
 * The rolling daily history the rates route keeps in its cache file
 * (app/api/rates/route.ts): the `filter` and `push` steps each handler applies
 * before it writes, and the `some`/`find` lookups of today's snapshot.
 */
module History {
  import opened Wrappers
  import opened Constants
  import opened DateUtils
  import opened RateUtils

  /** One day's normalised table, `{ date, rates }`. */
  datatype Snapshot = Snapshot(date: Day, rates: RateTable)

  /** `history.filter(d => isWithinDays(d.date, today, HISTORY_DAYS))`. */
  function Retained(h: seq<Snapshot>, today: Day): (r: seq<Snapshot>)
    ensures forall s :: s in r <==> s in h && IsWithinDays(s.date, today, HistoryDays)
    ensures |r| <= |h|
  {
    if h == [] then []
    else if IsWithinDays(h[0].date, today, HistoryDays) then [h[0]] + Retained(h[1..], today)
    else Retained(h[1..], today)
  }

  /** `history.filter(d => d.date !== today)`. */
  function WithoutDay(h: seq<Snapshot>, day: Day): (r: seq<Snapshot>)
    ensures forall s :: s in r <==> s in h && s.date != day
    ensures |r| <= |h|
  {
    if h == [] then []
    else if h[0].date != day then [h[0]] + WithoutDay(h[1..], day)
    else WithoutDay(h[1..], day)
  }

  /** The history GET writes on a cache miss: prune, then push today's snapshot. */
  function MergeRead(h: seq<Snapshot>, today: Day, rates: RateTable): seq<Snapshot>
  {
    Retained(h, today) + [Snapshot(today, rates)]
  }

  /** The history POST writes: prune, strip today's entries, then push today's snapshot. */
  function MergeRefresh(h: seq<Snapshot>, today: Day, rates: RateTable): seq<Snapshot>
  {
    WithoutDay(Retained(h, today), today) + [Snapshot(today, rates)]
  }

  /** `history.some(d => d.date === today)`. */
  predicate HasEntryFor(h: seq<Snapshot>, day: Day)
  {
    exists i :: 0 <= i < |h| && h[i].date == day
  }

  /** The position `find` stops at: the first entry dated `day`, or |h| when there is none. */
  function FirstIndexOn(h: seq<Snapshot>, day: Day): (k: nat)
    ensures k <= |h|
    ensures k < |h| ==> h[k].date == day
    ensures forall j :: 0 <= j < k ==> h[j].date != day
  {
    if h == [] then 0
    else if h[0].date == day then 0
    else 1 + FirstIndexOn(h[1..], day)
  }

  /** `history.find(d => d.date === today)?.rates`. */
  function RatesOn(h: seq<Snapshot>, day: Day): Option<RateTable>
  {
    var k := FirstIndexOn(h, day);
    if k < |h| then Some(h[k].rates) else None
  }

  /** How many entries are dated `day`. */
  function CountOn(h: seq<Snapshot>, day: Day): nat
  {
    if h == [] then 0 else (if h[0].date == day then 1 else 0) + CountOn(h[1..], day)
  }

  /** Dates strictly increase along the history: ascending order and no duplicate dates. */
  predicate Chronological(h: seq<Snapshot>)
  {
    forall i, j :: 0 <= i < j < |h| ==> h[i].date < h[j].date
  }

  // The lookups

  /** `find` succeeds exactly when `some` does, and returns the first entry dated `day`. */
  lemma RatesOnFirst(h: seq<Snapshot>, day: Day)
    ensures RatesOn(h, day).Some? <==> HasEntryFor(h, day)
    ensures RatesOn(h, day).Some? ==>
      exists i :: 0 <= i < |h| && h[i].date == day && h[i].rates == RatesOn(h, day).value &&
        forall j :: 0 <= j < i ==> h[j].date != day
  {
  }

  // Filtering keeps order

  /** Pruning distributes over concatenation: earlier entries stay before later ones. */
  lemma {:induction false} RetainedAppend(a: seq<Snapshot>, b: seq<Snapshot>, today: Day)
    ensures Retained(a + b, today) == Retained(a, today) + Retained(b, today)
  {
    if a == [] {
      assert a + b == b;
    } else {
      assert (a + b)[0] == a[0] && (a + b)[1..] == a[1..] + b;
      RetainedAppend(a[1..], b, today);
    }
  }

  /** Stripping a day distributes over concatenation. */
  lemma {:induction false} WithoutDayAppend(a: seq<Snapshot>, b: seq<Snapshot>, day: Day)
    ensures WithoutDay(a + b, day) == WithoutDay(a, day) + WithoutDay(b, day)
  {
    if a == [] {
      assert a + b == b;
    } else {
      assert (a + b)[0] == a[0] && (a + b)[1..] == a[1..] + b;
      WithoutDayAppend(a[1..], b, day);
    }
  }

  /** Pruning a history whose entries are all within the window changes nothing. */
  lemma {:induction false} RetainedKeepsWithin(h: seq<Snapshot>, today: Day)
    requires forall s :: s in h ==> IsWithinDays(s.date, today, HistoryDays)
    ensures Retained(h, today) == h
  {
    if h != [] {
      assert h[0] in h;
      RetainedKeepsWithin(h[1..], today);
      assert h == [h[0]] + h[1..];
    }
  }

  /** Stripping a day that does not occur changes nothing. */
  lemma {:induction false} WithoutAbsentDay(h: seq<Snapshot>, day: Day)
    requires forall s :: s in h ==> s.date != day
    ensures WithoutDay(h, day) == h
  {
    if h != [] {
      assert h[0] in h;
      WithoutAbsentDay(h[1..], day);
      assert h == [h[0]] + h[1..];
    }
  }

  // Counting entries for a day

  lemma {:induction false} CountOnAppend(a: seq<Snapshot>, b: seq<Snapshot>, day: Day)
    ensures CountOn(a + b, day) == CountOn(a, day) + CountOn(b, day)
  {
    if a == [] {
      assert a + b == b;
    } else {
      assert (a + b)[0] == a[0] && (a + b)[1..] == a[1..] + b;
      CountOnAppend(a[1..], b, day);
    }
  }

  lemma {:induction false} CountOnAbsent(h: seq<Snapshot>, day: Day)
    requires forall s :: s in h ==> s.date != day
    ensures CountOn(h, day) == 0
  {
    if h != [] {
      assert h[0] in h;
      CountOnAbsent(h[1..], day);
    }
  }

  // The merges

  /** After either merge every entry lies inside the window; one exactly HistoryDays old is gone. */
  lemma MergesRetain(h: seq<Snapshot>, today: Day, rates: RateTable)
    ensures forall s :: s in MergeRead(h, today, rates) ==>
      IsWithinDays(s.date, today, HistoryDays) && today - s.date != HistoryDays
    ensures forall s :: s in MergeRefresh(h, today, rates) ==>
      IsWithinDays(s.date, today, HistoryDays) && today - s.date != HistoryDays
  {
    HistoryDaysPositive();
  }

  /** Both merges keep exactly the old entries inside the window (POST: minus today's), in order, and end with today's snapshot. */
  lemma MergesShape(h: seq<Snapshot>, today: Day, rates: RateTable)
    ensures MergeRead(h, today, rates)[..|MergeRead(h, today, rates)| - 1] == Retained(h, today)
    ensures MergeRefresh(h, today, rates)[..|MergeRefresh(h, today, rates)| - 1] ==
      WithoutDay(Retained(h, today), today)
    ensures MergeRead(h, today, rates)[|MergeRead(h, today, rates)| - 1] == Snapshot(today, rates)
    ensures MergeRefresh(h, today, rates)[|MergeRefresh(h, today, rates)| - 1] == Snapshot(today, rates)
  {
  }

  /** POST leaves exactly one entry for today, whatever the old history held. */
  lemma MergeRefreshOneToday(h: seq<Snapshot>, today: Day, rates: RateTable)
    ensures CountOn(MergeRefresh(h, today, rates), today) == 1
  {
    var kept := WithoutDay(Retained(h, today), today);
    CountOnAbsent(kept, today);
    CountOnAppend(kept, [Snapshot(today, rates)], today);
  }

  /** On GET's miss path no old entry is dated today, so the written history has exactly one. */
  lemma MergeReadOneToday(h: seq<Snapshot>, today: Day, rates: RateTable)
    requires !HasEntryFor(h, today)
    ensures CountOn(MergeRead(h, today, rates), today) == 1
  {
    var kept := Retained(h, today);
    forall s | s in kept ensures s.date != today {
      var i :| 0 <= i < |h| && h[i] == s;
    }
    CountOnAbsent(kept, today);
    CountOnAppend(kept, [Snapshot(today, rates)], today);
  }

  /** On GET's miss path, merging without stripping writes what POST's merge would. */
  lemma MergeReadIsRefreshOnMiss(h: seq<Snapshot>, today: Day, rates: RateTable)
    requires !HasEntryFor(h, today)
    ensures MergeRead(h, today, rates) == MergeRefresh(h, today, rates)
  {
    var kept := Retained(h, today);
    forall s | s in kept ensures s.date != today {
      var i :| 0 <= i < |h| && h[i] == s;
    }
    WithoutAbsentDay(kept, today);
  }

  /** A second POST the same day replaces the first one's snapshot and keeps everything else. */
  lemma MergeRefreshTwice(h: seq<Snapshot>, today: Day, first: RateTable, second: RateTable)
    ensures MergeRefresh(MergeRefresh(h, today, first), today, second) == MergeRefresh(h, today, second)
  {
    HistoryDaysPositive();
    var kept := WithoutDay(Retained(h, today), today);
    var once := kept + [Snapshot(today, first)];
    assert forall s :: s in once ==> IsWithinDays(s.date, today, HistoryDays);
    RetainedKeepsWithin(once, today);
    WithoutDayAppend(kept, [Snapshot(today, first)], today);
    WithoutAbsentDay(kept, today);
    assert WithoutDay([Snapshot(today, first)], today) == [];
  }

  /** POST's merge is idempotent. */
  lemma MergeRefreshIdempotent(h: seq<Snapshot>, today: Day, rates: RateTable)
    ensures MergeRefresh(MergeRefresh(h, today, rates), today, rates) == MergeRefresh(h, today, rates)
  {
    MergeRefreshTwice(h, today, rates, rates);
  }

  /** After a successful GET miss, the next GET the same day finds today's snapshot. */
  lemma MergeReadServesToday(h: seq<Snapshot>, today: Day, rates: RateTable)
    ensures HasEntryFor(MergeRead(h, today, rates), today)
    ensures !HasEntryFor(h, today) ==> RatesOn(MergeRead(h, today, rates), today) == Some(rates)
  {
    var m := MergeRead(h, today, rates);
    assert m[|m| - 1].date == today;
    if !HasEntryFor(h, today) {
      var kept := Retained(h, today);
      forall s | s in kept ensures s.date != today {
        var i :| 0 <= i < |h| && h[i] == s;
      }
      assert forall j :: 0 <= j < |kept| ==> m[j] == kept[j] && m[j] in kept;
      assert FirstIndexOn(m, today) == |kept|;
    }
  }

  // Chronological order

  lemma {:induction false} RetainedChronological(h: seq<Snapshot>, today: Day)
    requires Chronological(h)
    ensures Chronological(Retained(h, today))
  {
    if h != [] {
      RetainedChronological(h[1..], today);
      var rest := Retained(h[1..], today);
      forall s | s in rest ensures h[0].date < s.date {
        var i :| 0 <= i < |h[1..]| && h[1..][i] == s;
        assert h[i + 1] == s;
      }
    }
  }

  lemma {:induction false} WithoutDayChronological(h: seq<Snapshot>, day: Day)
    requires Chronological(h)
    ensures Chronological(WithoutDay(h, day))
  {
    if h != [] {
      WithoutDayChronological(h[1..], day);
      var rest := WithoutDay(h[1..], day);
      forall s | s in rest ensures h[0].date < s.date {
        var i :| 0 <= i < |h[1..]| && h[1..][i] == s;
        assert h[i + 1] == s;
      }
    }
  }

  /** POST keeps a chronological history chronological when no entry is dated after today. */
  lemma MergeRefreshChronological(h: seq<Snapshot>, today: Day, rates: RateTable)
    requires Chronological(h)
    requires forall s :: s in h ==> s.date <= today
    ensures Chronological(MergeRefresh(h, today, rates))
  {
    RetainedChronological(h, today);
    WithoutDayChronological(Retained(h, today), today);
    var kept := WithoutDay(Retained(h, today), today);
    assert forall s :: s in kept ==> s.date < today;
    var m := MergeRefresh(h, today, rates);
    forall i, j | 0 <= i < j < |m| ensures m[i].date < m[j].date {
      if j == |m| - 1 {
        assert m[i] in kept;
      } else {
        assert m[i] == kept[i] && m[j] == kept[j];
      }
    }
  }

  /** GET's miss path keeps a chronological history chronological on the same terms. */
  lemma MergeReadChronological(h: seq<Snapshot>, today: Day, rates: RateTable)
    requires Chronological(h)
    requires forall s :: s in h ==> s.date <= today
    requires !HasEntryFor(h, today)
    ensures Chronological(MergeRead(h, today, rates))
  {
    MergeReadIsRefreshOnMiss(h, today, rates);
    MergeRefreshChronological(h, today, rates);
  }
}
