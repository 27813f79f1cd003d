/**
 * The usage counters and caps that src/api/lib/googlePlaces.ts and src/api/lib/googleStaticMap.ts
 * share: a persisted month of counters, a check before every call and a count before every fetch.
 */
module UsageLedger {
  import opened Base

  /** A local calendar date: `month` numbers months of all years, `day` the day in it. */
  datatype Date = Date(month: int, day: int)

  type Source = string

  datatype DayBucket = DayBucket(total: nat, bySource: map<Source, nat>)

  /** The contents of the usage file. */
  datatype UsageState = UsageState(month: int, monthTotal: nat, monthBySource: map<Source, nat>, days: map<Date, DayBucket>)

  datatype Caps = Caps(daily: nat, monthly: nat)

  datatype CapFailure = LocalDailyCapReached | LocalMonthlyCapReached

  /** The clock readings of one call, in the order in which the code takes them. */
  datatype Readings = Readings(checkMonth: Date, checkDay: Date, bumpMonth: Date, bumpDay: Date)

  predicate NotAfter(a: Date, b: Date) {
    a.month < b.month || (a.month == b.month && a.day <= b.day)
  }

  // ---------------------------------------------------------------- the code's functions

  function FreshState(now: Date): UsageState {
    UsageState(now.month, 0, map[], map[])
  }

  /** A missing or unreadable file, or one of another month, reads as a fresh month. */
  function ReadUsage(file: Option<UsageState>, now: Date): UsageState {
    if file.None? || file.value.month != now.month then FreshState(now) else file.value
  }

  function DayOf(u: UsageState, date: Date): DayBucket {
    if date in u.days then u.days[date] else DayBucket(0, map[])
  }

  function Count<K>(m: map<K, nat>, k: K): nat {
    if k in m then m[k] else 0
  }

  function BumpUsage(file: Option<UsageState>, source: Source, month: Date, today: Date): UsageState {
    var u := ReadUsage(file, month);
    var day := DayOf(u, today);
    var day' := DayBucket(day.total + 1, day.bySource[source := Count(day.bySource, source) + 1]);
    UsageState(u.month, u.monthTotal + 1, u.monthBySource[source := Count(u.monthBySource, source) + 1], u.days[today := day'])
  }

  /** The daily cap is checked first. */
  function CheckCaps(file: Option<UsageState>, caps: Caps, month: Date, today: Date): Option<CapFailure> {
    var u := ReadUsage(file, month);
    if DayOf(u, today).total >= caps.daily then Some(LocalDailyCapReached)
    else if u.monthTotal >= caps.monthly then Some(LocalMonthlyCapReached)
    else None
  }

  // ---------------------------------------------------------------- sums

  ghost function Sum<K>(m: map<K, nat>): nat
    decreases |m|
  {
    if m == map[] then 0 else var k :| k in m; SizeWithout(m, k); m[k] + Sum(m - {k})
  }

  lemma SizeWithout<K>(m: map<K, nat>, k: K)
    requires k in m
    ensures |m - {k}| < |m|
  {
  }

  lemma {:induction false} SumWithout<K>(m: map<K, nat>, k: K)
    requires k in m
    ensures Sum(m) == m[k] + Sum(m - {k})
    decreases |m|
  {
    var j :| j in m && Sum(m) == m[j] + Sum(m - {j});
    if j != k {
      SizeWithout(m, j);
      SizeWithout(m, k);
      SumWithout(m - {j}, k);
      SumWithout(m - {k}, j);
      assert m - {j} - {k} == m - {k} - {j};
    }
  }

  lemma SumUpdate<K>(m: map<K, nat>, k: K, v: nat)
    ensures Sum(m[k := v]) == Sum(m) - Count(m, k) + v
  {
    var m' := m[k := v];
    SumWithout(m', k);
    if k in m {
      SumWithout(m, k);
      assert m' - {k} == m - {k};
    } else {
      assert m' - {k} == m;
    }
  }

  ghost function DayTotals(days: map<Date, DayBucket>): map<Date, nat> {
    map d | d in days :: days[d].total
  }

  /** The month's total is the sum over its days and over its sources, and each day's total the sum over its sources. */
  ghost predicate Balanced(u: UsageState) {
    && u.monthTotal == Sum(DayTotals(u.days))
    && u.monthTotal == Sum(u.monthBySource)
    && forall d | d in u.days :: u.days[d].total == Sum(u.days[d].bySource)
  }

  /** Counting one attempt keeps the books balanced. */
  lemma BumpBalances(file: Option<UsageState>, source: Source, month: Date, today: Date)
    requires file.Some? ==> Balanced(file.value)
    ensures Balanced(BumpUsage(file, source, month, today))
  {
    var u, u' := ReadUsage(file, month), BumpUsage(file, source, month, today);
    assert Balanced(u) by {
      if u == FreshState(month) {
        assert DayTotals(u.days) == map[];
      }
    }
    var day := DayOf(u, today);
    assert DayTotals(u'.days) == DayTotals(u.days)[today := day.total + 1];
    SumUpdate(DayTotals(u.days), today, day.total + 1);
    SumUpdate(u.monthBySource, source, Count(u.monthBySource, source) + 1);
    SumUpdate(day.bySource, source, Count(day.bySource, source) + 1);
  }

  // ---------------------------------------------------------------- runs

  /** A call that went out: its date, and the month under which it was counted. */
  datatype Attempt = Attempt(date: Date, source: Source, countedIn: int)

  /** `attempts` are the calls that went out, dated by their last clock reading. */
  datatype State = State(file: Option<UsageState>, attempts: seq<Attempt>, clock: Date)

  datatype Call = Call(source: Source, readings: Readings)

  function Outcome(s: State, caps: Caps, call: Call): Option<CapFailure> {
    CheckCaps(s.file, caps, call.readings.checkMonth, call.readings.checkDay)
  }

  function AttemptOf(call: Call): Attempt {
    Attempt(call.readings.bumpDay, call.source, call.readings.bumpMonth.month)
  }

  function Next(s: State, caps: Caps, call: Call): State {
    if Outcome(s, caps, call).Some? then s.(clock := call.readings.checkDay)
    else State(Some(BumpUsage(s.file, call.source, call.readings.bumpMonth, call.readings.bumpDay)),
               s.attempts + [AttemptOf(call)],
               call.readings.bumpDay)
  }

  /** The clock never goes back. */
  predicate InOrder(s: State, call: Call) {
    var r := call.readings;
    NotAfter(s.clock, r.checkMonth) && NotAfter(r.checkMonth, r.checkDay) && NotAfter(r.checkDay, r.bumpMonth) && NotAfter(r.bumpMonth, r.bumpDay)
  }

  /** `bumpUsage` reads the clock twice; the two readings fall in one month. */
  predicate CountsWithinOneMonth(call: Call) {
    call.readings.bumpMonth.month == call.readings.bumpDay.month
  }

  function AttemptsOn(attempts: seq<Attempt>, date: Date): nat {
    if attempts == [] then 0
    else AttemptsOn(attempts[..|attempts| - 1], date) + (if attempts[|attempts| - 1].date == date then 1 else 0)
  }

  function AttemptsIn(attempts: seq<Attempt>, month: int): nat {
    if attempts == [] then 0
    else AttemptsIn(attempts[..|attempts| - 1], month) + (if attempts[|attempts| - 1].date.month == month then 1 else 0)
  }

  /** The attempts of a month that were counted under another one. */
  function StraddlesIn(attempts: seq<Attempt>, month: int): (n: nat)
    ensures n <= AttemptsIn(attempts, month)
  {
    if attempts == [] then 0
    else StraddlesIn(attempts[..|attempts| - 1], month) + (if attempts[|attempts| - 1].date.month == month != attempts[|attempts| - 1].countedIn then 1 else 0)
  }

  function StraddlesOn(attempts: seq<Attempt>, date: Date): (n: nat)
    ensures n <= StraddlesIn(attempts, date.month) && n <= AttemptsOn(attempts, date)
  {
    if attempts == [] then 0
    else StraddlesOn(attempts[..|attempts| - 1], date) + (if attempts[|attempts| - 1].date == date && date.month != attempts[|attempts| - 1].countedIn then 1 else 0)
  }

  /** The file says of the current month what really went out. */
  ghost predicate InSync(s: State) {
    var u := ReadUsage(s.file, s.clock);
    && u.monthTotal == AttemptsIn(s.attempts, s.clock.month)
    && forall d: Date | d.month == s.clock.month :: DayOf(u, d).total == AttemptsOn(s.attempts, d)
  }

  /** The file says of the current month what really went out, except for what was counted under another month. */
  ghost predicate InSyncButForStraddles(s: State) {
    var u := ReadUsage(s.file, s.clock);
    && u.monthTotal + StraddlesIn(s.attempts, s.clock.month) == AttemptsIn(s.attempts, s.clock.month)
    && forall d: Date | d.month == s.clock.month :: DayOf(u, d).total + StraddlesOn(s.attempts, d) == AttemptsOn(s.attempts, d)
  }

  ghost predicate NothingAhead(s: State) {
    && (forall a | a in s.attempts :: NotAfter(a.date, s.clock))
    && (s.file.Some? ==> s.file.value.month <= s.clock.month)
  }

  /** No cap is passed, except by what was counted under another month, and that is one attempt a month at most. */
  ghost predicate WithinCaps(s: State, caps: Caps) {
    && (forall d :: AttemptsOn(s.attempts, d) <= caps.daily + StraddlesOn(s.attempts, d))
    && (forall m :: AttemptsIn(s.attempts, m) <= caps.monthly + StraddlesIn(s.attempts, m))
    && (forall m :: StraddlesIn(s.attempts, m) <= 1)
  }

  ghost predicate Inv(s: State, caps: Caps) {
    InSyncButForStraddles(s) && NothingAhead(s) && WithinCaps(s, caps)
  }

  lemma {:induction false} NothingOnLaterDates(attempts: seq<Attempt>, clock: Date, date: Date)
    requires forall a | a in attempts :: NotAfter(a.date, clock)
    ensures !NotAfter(date, clock) ==> AttemptsOn(attempts, date) == 0
    ensures clock.month < date.month ==> AttemptsIn(attempts, date.month) == 0
  {
    if attempts != [] {
      assert attempts[|attempts| - 1] in attempts;
      NothingOnLaterDates(attempts[..|attempts| - 1], clock, date);
    }
  }

  lemma OneMoreAttempt(attempts: seq<Attempt>, a: Attempt)
    ensures forall d :: AttemptsOn(attempts + [a], d) == AttemptsOn(attempts, d) + (if a.date == d then 1 else 0)
    ensures forall m :: AttemptsIn(attempts + [a], m) == AttemptsIn(attempts, m) + (if a.date.month == m then 1 else 0)
    ensures forall d :: StraddlesOn(attempts + [a], d) == StraddlesOn(attempts, d) + (if a.date == d && d.month != a.countedIn then 1 else 0)
    ensures forall m :: StraddlesIn(attempts + [a], m) == StraddlesIn(attempts, m) + (if a.date.month == m != a.countedIn then 1 else 0)
  {
  }

  lemma NothingAheadLater(s: State, now: Date)
    requires NothingAhead(s) && NotAfter(s.clock, now)
    ensures NothingAhead(s.(clock := now))
    ensures s.clock.month < now.month ==> AttemptsIn(s.attempts, now.month) == 0
    ensures s.clock.month < now.month ==> forall d: Date | d.month == now.month :: AttemptsOn(s.attempts, d) == 0
  {
    forall a | a in s.attempts ensures NotAfter(a.date, now) {
      assert NotAfter(a.date, s.clock);
    }
    if s.clock.month < now.month {
      forall d: Date | d.month == now.month ensures AttemptsOn(s.attempts, d) == 0 {
        NothingOnLaterDates(s.attempts, s.clock, d);
      }
      NothingOnLaterDates(s.attempts, s.clock, now);
    }
  }

  /** The file read at a later date says what went out by then. */
  lemma InSyncLater(s: State, now: Date)
    requires NothingAhead(s) && NotAfter(s.clock, now)
    ensures InSync(s) ==> InSync(s.(clock := now))
    ensures InSyncButForStraddles(s) ==> InSyncButForStraddles(s.(clock := now))
  {
    NothingAheadLater(s, now);
  }

  /** The state after a counted call. */
  function Counted(s: State, call: Call): State {
    State(Some(BumpUsage(s.file, call.source, call.readings.bumpMonth, call.readings.bumpDay)), s.attempts + [AttemptOf(call)], call.readings.bumpDay)
  }

  /** Counting one attempt keeps the file in step exactly when both readings fall in one month. */
  lemma CountingStaysInSync(s: State, call: Call)
    requires InSync(s) && NothingAhead(s) && InOrder(s, call)
    ensures InSync(Counted(s, call)) <==> CountsWithinOneMonth(call)
  {
    OneMoreAttempt(s.attempts, AttemptOf(call));
    InSyncLater(s, call.readings.bumpMonth);
  }

  lemma CountedInItsMonth(s: State, call: Call)
    requires InSyncButForStraddles(s) && s.clock == call.readings.bumpMonth && CountsWithinOneMonth(call)
    ensures InSyncButForStraddles(Counted(s, call))
  {
    OneMoreAttempt(s.attempts, AttemptOf(call));
  }

  lemma CountedAcrossMonths(s: State, call: Call)
    requires !CountsWithinOneMonth(call) && AttemptsIn(s.attempts, call.readings.bumpDay.month) == 0
    requires forall d: Date | d.month == call.readings.bumpDay.month :: AttemptsOn(s.attempts, d) == 0
    ensures InSyncButForStraddles(Counted(s, call))
  {
    OneMoreAttempt(s.attempts, AttemptOf(call));
  }

  lemma CountedIsNotAhead(s: State, call: Call)
    requires NothingAhead(s) && InOrder(s, call)
    ensures NothingAhead(Counted(s, call))
  {
    NothingAheadLater(s, call.readings.bumpDay);
  }

  /** Only the first attempt of a month can be counted under another one, and the file then misses just that one. */
  lemma CountingMissesStraddlesOnly(s: State, call: Call)
    requires InSyncButForStraddles(s) && NothingAhead(s) && InOrder(s, call)
    ensures InSyncButForStraddles(Counted(s, call)) && NothingAhead(Counted(s, call))
    ensures !CountsWithinOneMonth(call) ==> AttemptsIn(s.attempts, call.readings.bumpDay.month) == 0
  {
    CountedIsNotAhead(s, call);
    if CountsWithinOneMonth(call) {
      InSyncLater(s, call.readings.bumpMonth);
      CountedInItsMonth(s.(clock := call.readings.bumpMonth), call);
    } else {
      NothingAheadLater(s, call.readings.bumpDay);
      CountedAcrossMonths(s, call);
    }
  }

  /** What the check lets through leaves room under both caps. */
  lemma CheckLeavesRoom(s: State, caps: Caps, call: Call)
    requires InSyncButForStraddles(s) && NothingAhead(s) && InOrder(s, call) && Outcome(s, caps, call).None?
    ensures AttemptsOn(s.attempts, call.readings.bumpDay) < caps.daily + StraddlesOn(s.attempts, call.readings.bumpDay)
    ensures AttemptsIn(s.attempts, call.readings.bumpDay.month) < caps.monthly + StraddlesIn(s.attempts, call.readings.bumpDay.month)
  {
    NothingOnLaterDates(s.attempts, s.clock, call.readings.bumpDay);
  }

  lemma CallKeepsInv(s: State, caps: Caps, call: Call)
    requires Inv(s, caps) && InOrder(s, call)
    ensures Inv(Next(s, caps, call), caps)
  {
    if Outcome(s, caps, call).Some? {
      InSyncLater(s, call.readings.checkDay);
      NothingAheadLater(s, call.readings.checkDay);
    } else {
      CountingMissesStraddlesOnly(s, call);
      CheckLeavesRoom(s, caps, call);
      OneMoreAttempt(s.attempts, AttemptOf(call));
    }
  }

  /** A refused call leaves the file and the attempts as they were, and the daily refusal comes first. */
  lemma RefusedCallChangesNothing(s: State, caps: Caps, call: Call)
    requires Inv(s, caps) && InOrder(s, call) && Outcome(s, caps, call).Some?
    ensures Next(s, caps, call).file == s.file && Next(s, caps, call).attempts == s.attempts
    ensures var today := call.readings.checkDay;
      call.readings.checkMonth == today ==>
        (Outcome(s, caps, call) == Some(LocalDailyCapReached) <==>
           AttemptsOn(s.attempts, today) >= caps.daily + StraddlesOn(s.attempts, today))
  {
    InSyncLater(s, call.readings.checkMonth);
  }

  ghost predicate StepAt(states: seq<State>, caps: Caps, calls: seq<Call>, i: nat)
    requires |states| == |calls| + 1 && i < |calls|
  {
    && InOrder(states[i], calls[i])
    && states[i + 1] == Next(states[i], caps, calls[i])
  }

  /** A run from a missing file, with calls of any number, dates and sources. */
  ghost predicate IsRun(states: seq<State>, caps: Caps, calls: seq<Call>) {
    && |states| == |calls| + 1
    && states[0].file.None? && states[0].attempts == []
    && forall i | 0 <= i < |calls| :: StepAt(states, caps, calls, i)
  }

  lemma {:induction false} RunKeepsInv(states: seq<State>, caps: Caps, calls: seq<Call>, i: nat)
    requires IsRun(states, caps, calls) && i < |states|
    ensures Inv(states[i], caps)
  {
    if i > 0 {
      RunKeepsInv(states, caps, calls, i - 1);
      assert StepAt(states, caps, calls, i - 1);
      CallKeepsInv(states[i - 1], caps, calls[i - 1]);
    }
  }

  /** The books balance over every run, whatever the clock does. */
  lemma {:induction false} BooksAlwaysBalance(states: seq<State>, caps: Caps, calls: seq<Call>, i: nat)
    requires |states| == |calls| + 1 && states[0].file.None? && i < |states|
    requires forall j | 0 <= j < |calls| :: states[j + 1] == Next(states[j], caps, calls[j])
    ensures states[i].file.Some? ==> Balanced(states[i].file.value)
  {
    if i > 0 {
      BooksAlwaysBalance(states, caps, calls, i - 1);
      var r := calls[i - 1].readings;
      BumpBalances(states[i - 1].file, calls[i - 1].source, r.bumpMonth, r.bumpDay);
    }
  }

  /**
   * Over every run with a clock that never goes back, no day and no month sees more attempts than
   * its cap, across month rollovers, except for the one attempt that a count across a month's
   * end can hide. Without such a count the caps hold outright.
   */
  lemma CapsHoldOverRuns(states: seq<State>, caps: Caps, calls: seq<Call>, i: nat, date: Date)
    requires IsRun(states, caps, calls) && i < |states|
    ensures AttemptsOn(states[i].attempts, date) <= caps.daily + StraddlesOn(states[i].attempts, date)
    ensures AttemptsIn(states[i].attempts, date.month) <= caps.monthly + StraddlesIn(states[i].attempts, date.month)
    ensures StraddlesOn(states[i].attempts, date) <= StraddlesIn(states[i].attempts, date.month) <= 1
  {
    RunKeepsInv(states, caps, calls, i);
  }

  /**
   * In a run, a check within one month refuses for the day if and only if the attempts of the day
   * that were counted under their month have reached the daily cap, else for the month if and
   * only if those of the month have reached the monthly one; otherwise the call goes out.
   */
  lemma GateDecidesExactly(states: seq<State>, caps: Caps, calls: seq<Call>, i: nat)
    requires IsRun(states, caps, calls) && i < |calls|
    requires calls[i].readings.checkMonth.month == calls[i].readings.checkDay.month
    ensures
      var (attempts, today) := (states[i].attempts, calls[i].readings.checkDay);
      var (dayFull, monthFull) :=
        (AttemptsOn(attempts, today) - StraddlesOn(attempts, today) >= caps.daily,
         AttemptsIn(attempts, today.month) - StraddlesIn(attempts, today.month) >= caps.monthly);
      && (Outcome(states[i], caps, calls[i]) == Some(LocalDailyCapReached) <==> dayFull)
      && (Outcome(states[i], caps, calls[i]) == Some(LocalMonthlyCapReached) <==> !dayFull && monthFull)
      && (|states[i + 1].attempts| == |attempts| + 1 <==> !dayFull && !monthFull)
  {
    RunKeepsInv(states, caps, calls, i);
    assert StepAt(states, caps, calls, i);
    InSyncLater(states[i], calls[i].readings.checkMonth);
  }

  /** At any moment of a run the file tells the truth if and only if no attempt of the month was counted under another. */
  lemma FileIsRightExactly(states: seq<State>, caps: Caps, calls: seq<Call>, i: nat)
    requires IsRun(states, caps, calls) && i < |states|
    ensures InSync(states[i]) <==> forall a | a in states[i].attempts && a.date.month == states[i].clock.month :: a.countedIn == a.date.month
  {
    RunKeepsInv(states, caps, calls, i);
    NoStraddlesExactly(states[i].attempts, states[i].clock.month);
  }

  lemma {:induction false} NoStraddlesExactly(attempts: seq<Attempt>, month: int)
    ensures StraddlesIn(attempts, month) == 0 <==> forall a | a in attempts && a.date.month == month :: a.countedIn == month
  {
    if attempts != [] {
      var most, last := attempts[..|attempts| - 1], attempts[|attempts| - 1];
      assert attempts == most + [last];
      NoStraddlesExactly(most, month);
    }
  }

  /** The two readings of one count on either side of midnight at a month's end: the next call resets the file and the daily cap of 1 is passed. */
  lemma StraddlingCountPassesTheCap(source: Source)
    ensures var caps := Caps(1, 10);
      var last, first := Date(1, 31), Date(2, 1);
      var s0 := State(None, [], last);
      var straddling, next := Call(source, Readings(last, last, last, first)), Call(source, Readings(first, first, first, first));
      var s1 := Next(s0, caps, straddling);
      var s2 := Next(s1, caps, next);
      && InOrder(s0, straddling) && InOrder(s1, next) && !CountsWithinOneMonth(straddling)
      && AttemptsOn(s2.attempts, first) == 2 > caps.daily
  {
    var caps, last, first := Caps(1, 10), Date(1, 31), Date(2, 1);
    var s0 := State(None, [], last);
    var a := Attempt(first, source, 1);
    var s1 := Next(s0, caps, Call(source, Readings(last, last, last, first)));
    assert s1.attempts == [] + [a];
    OneMoreAttempt([], a);
    OneMoreAttempt(s1.attempts, a);
  }

  // ---------------------------------------------------------------- the file, updated in place

  /** The usage file with the gate of `searchPlaces` / `fetchStaticMap` in front of it. */
  class UsageFile {
    var content: Option<UsageState>

    constructor ()
      ensures content == None
    {
      content := None;
    }

    method Bump(source: Source, month: Date, today: Date)
      modifies this
      ensures content == Some(BumpUsage(old(content), source, month, today))
    {
      var u := ReadUsage(content, month);
      var day := DayOf(u, today);
      day := day.(total := day.total + 1);
      day := day.(bySource := day.bySource[source := Count(day.bySource, source) + 1]);
      u := u.(days := u.days[today := day]);
      u := u.(monthTotal := u.monthTotal + 1);
      u := u.(monthBySource := u.monthBySource[source := Count(u.monthBySource, source) + 1]);
      content := Some(u);
    }

    /** Refuses, or counts the attempt before the request goes out. */
    method Admit(caps: Caps, call: Call, ghost before: State) returns (failure: Option<CapFailure>, ghost after: State)
      requires before.file == content
      modifies this
      ensures failure == Outcome(before, caps, call) && after == Next(before, caps, call) && content == after.file
    {
      failure := CheckCaps(content, caps, call.readings.checkMonth, call.readings.checkDay);
      after := Next(before, caps, call);
      if failure.None? {
        Bump(call.source, call.readings.bumpMonth, call.readings.bumpDay);
      }
    }
  }
}
