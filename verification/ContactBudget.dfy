/** Contact caps over fixed windows (packages/engine/src/policy-engine.ts, packages/core/src/policy.ts). */
module ContactBudgets {
  import opened Wrappers

  const DAY_MS := 86_400_000

  /** The budget every channel shares. */
  const ALL_CHANNELS := "*"

  datatype Cap = Cap(channel: string, windowDays: int, max: nat)

  type Policy = seq<Cap>

  type CustomerId = nat

  /** Windows last at least a day, so a window start is defined. */
  ghost predicate Sound(policy: Policy) {
    forall i :: 0 <= i < |policy| ==> policy[i].windowDays > 0
  }

  /** The first cap listed for the channel. */
  function CapFor(policy: Policy, channel: string): (cap: Option<Cap>)
    ensures cap.Some? ==> cap.value in policy && cap.value.channel == channel
  {
    if policy == [] then None
    else if policy[0].channel == channel then Some(policy[0])
    else CapFor(policy[1..], channel)
  }

  /** The cap that counts is the first one listed for the channel, and there is none only if none is listed. */
  lemma {:induction false} CapForIsFirst(policy: Policy, channel: string)
    ensures CapFor(policy, channel).None? <==> forall i :: 0 <= i < |policy| ==> policy[i].channel != channel
    ensures forall i :: 0 <= i < |policy| && policy[i].channel == channel && (forall j :: 0 <= j < i ==> policy[j].channel != channel)
                        ==> CapFor(policy, channel) == Some(policy[i])
  {
    if policy != [] {
      CapForIsFirst(policy[1..], channel);
      assert forall i :: 0 < i < |policy| ==> policy[i] == policy[1..][i - 1];
      forall i | 0 <= i < |policy| && policy[i].channel == channel && (forall j :: 0 <= j < i ==> policy[j].channel != channel)
        ensures CapFor(policy, channel) == Some(policy[i])
      {
        if i > 0 {
          assert policy[1..][i - 1].channel == channel && forall j :: 0 <= j < i - 1 ==> policy[1..][j] == policy[j + 1];
        }
      }
    }
  }

  function WindowStart(at: int, windowDays: int): int
    requires windowDays > 0
  {
    at / (windowDays * DAY_MS) * (windowDays * DAY_MS)
  }

  /** A window starts at a multiple of its length, and holds the instant. */
  lemma WindowHolds(at: int, windowDays: int) returns (k: int)
    requires windowDays > 0
    ensures var start, length := WindowStart(at, windowDays), windowDays * 86400000;
            start == k * length && start <= at < start + length
  {
    var w := windowDays * DAY_MS;
    k := at / w;
    assert at == w * k + at % w;
  }

  type Key = (CustomerId, string, int)

  type Table = map<Key, nat>

  function Used(t: Table, key: Key): nat {
    if key in t then t[key] else 0
  }

  function KeyOf(cap: Cap, who: CustomerId, at: int): Key
    requires cap.windowDays > 0
  {
    (who, cap.channel, WindowStart(at, cap.windowDays))
  }

  predicate Spent(t: Table, cap: Option<Cap>, who: CustomerId, at: int)
    requires cap.Some? ==> cap.value.windowDays > 0
  {
    cap.Some? && Used(t, KeyOf(cap.value, who, at)) >= cap.value.max
  }

  predicate Exhausted(t: Table, policy: Policy, who: CustomerId, channel: string, at: int)
    requires Sound(policy)
  {
    Spent(t, CapFor(policy, channel), who, at) || Spent(t, CapFor(policy, ALL_CHANNELS), who, at)
  }

  function Bump(t: Table, cap: Option<Cap>, who: CustomerId, at: int): Table
    requires cap.Some? ==> cap.value.windowDays > 0
  {
    if cap.None? then t else t[KeyOf(cap.value, who, at) := Used(t, KeyOf(cap.value, who, at)) + 1]
  }

  /** One transaction: the channel's counter, then the shared one. */
  function Consume(t: Table, policy: Policy, who: CustomerId, channel: string, at: int): Table
    requires Sound(policy)
  {
    Bump(Bump(t, CapFor(policy, channel), who, at), CapFor(policy, ALL_CHANNELS), who, at)
  }

  // ---- Runs: authorise, execute, consume, one contact after another ----

  datatype Contact = Contact(who: CustomerId, channel: string, at: int)

  /** `clock` is the last instant anything happened; `log` holds the contacts that were made. */
  datatype Ledger = Ledger(table: Table, clock: int, log: seq<Contact>)

  /** A contact is authorised at one instant and consumed at a later one, possibly in a later window. */
  datatype Attempt = Attempt(who: CustomerId, channel: string, authorised: int, consumed: int)

  predicate InOrder(l: Ledger, a: Attempt) {
    l.clock <= a.authorised <= a.consumed && a.channel != ALL_CHANNELS
  }

  function Try(l: Ledger, policy: Policy, a: Attempt): Ledger
    requires Sound(policy)
  {
    if !InOrder(l, a) then l
    else if Exhausted(l.table, policy, a.who, a.channel, a.authorised) then l.(clock := a.authorised)
    else Ledger(Consume(l.table, policy, a.who, a.channel, a.consumed), a.consumed, l.log + [Contact(a.who, a.channel, a.consumed)])
  }

  function TryAll(l: Ledger, policy: Policy, attempts: seq<Attempt>): Ledger
    requires Sound(policy)
    decreases |attempts|
  {
    if attempts == [] then l else TryAll(Try(l, policy, attempts[0]), policy, attempts[1..])
  }

  const NO_CONTACTS := Ledger(map[], 0, [])

  // ---- Counting the contacts themselves ----

  predicate Counts(c: Contact, cap: Cap, who: CustomerId) {
    c.who == who && (cap.channel == ALL_CHANNELS || c.channel == cap.channel)
  }

  predicate CountsIn(c: Contact, cap: Cap, who: CustomerId, start: int)
    requires cap.windowDays > 0
  {
    Counts(c, cap, who) && WindowStart(c.at, cap.windowDays) == start
  }

  /** The contacts that a cap counts and that fall in the window from `start`. */
  function InWindow(log: seq<Contact>, cap: Cap, who: CustomerId, start: int): nat
    requires cap.windowDays > 0
  {
    if log == [] then 0
    else InWindow(log[..|log| - 1], cap, who, start) + if CountsIn(log[|log| - 1], cap, who, start) then 1 else 0
  }

  /** The contacts a cap counts in the half-open interval from `from`. */
  function InInterval(log: seq<Contact>, cap: Cap, who: CustomerId, from: int, length: int): nat {
    if log == [] then 0
    else
      var c := log[|log| - 1];
      InInterval(log[..|log| - 1], cap, who, from, length) + if Counts(c, cap, who) && from <= c.at < from + length then 1 else 0
  }

  /** A cap that is in force: the one its channel's lookup finds. */
  predicate InForce(policy: Policy, cap: Cap) {
    CapFor(policy, cap.channel) == Some(cap)
  }

  /** Each channel's first cap is in force. */
  lemma FirstIsInForce(policy: Policy, i: nat)
    requires i < |policy| && forall j :: 0 <= j < i ==> policy[j].channel != policy[i].channel
    ensures InForce(policy, policy[i])
  {
    CapForIsFirst(policy, policy[i].channel);
  }

  // ---- The invariant ----

  /** The counter is the number of contacts made, and within the cap; nothing has been made in a later window. */
  ghost predicate CounterOk(l: Ledger, policy: Policy, cap: Cap, who: CustomerId, start: int) {
    InForce(policy, cap) && cap.windowDays > 0 ==>
      && Used(l.table, (who, cap.channel, start)) == InWindow(l.log, cap, who, start) <= cap.max
      && (start > WindowStart(l.clock, cap.windowDays) ==> InWindow(l.log, cap, who, start) == 0)
  }

  ghost predicate LedgerInv(l: Ledger, policy: Policy) {
    forall cap, who, start {:trigger CounterOk(l, policy, cap, who, start)} :: CounterOk(l, policy, cap, who, start)
  }

  lemma WindowMonotone(a: int, b: int, windowDays: int)
    requires windowDays > 0 && a <= b
    ensures WindowStart(a, windowDays) <= WindowStart(b, windowDays)
  {
    var w := windowDays * DAY_MS;
    DivMonotone(a, b, w);
    ScaleUp(a / w, b / w, w);
  }

  lemma DivMonotone(a: int, b: int, w: int)
    requires w > 0 && a <= b
    ensures a / w <= b / w
  {
    assert (b / w + 1) * w == b / w * w + w;
    if a / w > b / w {
      ScaleUp(b / w + 1, a / w, w);
    }
  }

  lemma ScaleUp(x: int, y: int, w: int)
    requires w > 0 && x <= y
    ensures x * w <= y * w
  {
  }

  lemma TickKeeps(l: Ledger, policy: Policy, clock: int)
    requires LedgerInv(l, policy) && l.clock <= clock
    ensures LedgerInv(l.(clock := clock), policy)
  {
    forall cap, who, start ensures CounterOk(l.(clock := clock), policy, cap, who, start) {
      assert CounterOk(l, policy, cap, who, start);
      if cap.windowDays > 0 {
        WindowMonotone(l.clock, clock, cap.windowDays);
      }
    }
  }

  /** What one consume adds to each counter, for a channel of its own. */
  lemma ConsumeAdds(t: Table, policy: Policy, who: CustomerId, channel: string, at: int, cap: Cap, someone: CustomerId, start: int)
    requires Sound(policy) && channel != ALL_CHANNELS && InForce(policy, cap) && cap.windowDays > 0
    ensures Used(Consume(t, policy, who, channel, at), (someone, cap.channel, start)) ==
            Used(t, (someone, cap.channel, start)) + if CountsIn(Contact(who, channel, at), cap, someone, start) then 1 else 0
  {
  }

  lemma LogAdds(log: seq<Contact>, c: Contact, cap: Cap, who: CustomerId, start: int)
    requires cap.windowDays > 0
    ensures InWindow(log + [c], cap, who, start) == InWindow(log, cap, who, start) + if CountsIn(c, cap, who, start) then 1 else 0
  {
  }

  /** An authorised contact leaves room: in its own window, or in a later one that is still empty. */
  lemma AuthorisedFits(l: Ledger, policy: Policy, a: Attempt, cap: Cap, start: int)
    requires Sound(policy) && LedgerInv(l, policy) && InOrder(l, a) && !Exhausted(l.table, policy, a.who, a.channel, a.authorised)
    requires InForce(policy, cap) && cap.windowDays > 0 && CountsIn(Contact(a.who, a.channel, a.consumed), cap, a.who, start)
    ensures InWindow(l.log, cap, a.who, start) < cap.max
  {
    var earlier := WindowStart(a.authorised, cap.windowDays);
    assert CounterOk(l, policy, cap, a.who, earlier) && CounterOk(l, policy, cap, a.who, start);
    WindowMonotone(a.authorised, a.consumed, cap.windowDays);
    WindowMonotone(l.clock, a.authorised, cap.windowDays);
  }

  lemma TryKeeps(l: Ledger, policy: Policy, a: Attempt)
    requires Sound(policy) && LedgerInv(l, policy)
    ensures LedgerInv(Try(l, policy, a), policy)
  {
    if InOrder(l, a) {
      TickKeeps(l, policy, a.authorised);
      if !Exhausted(l.table, policy, a.who, a.channel, a.authorised) {
        var l' := Try(l, policy, a);
        forall cap, who, start ensures CounterOk(l', policy, cap, who, start) {
          ContactKeeps(l, policy, a, cap, who, start);
        }
      }
    }
  }

  lemma ContactKeeps(l: Ledger, policy: Policy, a: Attempt, cap: Cap, who: CustomerId, start: int)
    requires Sound(policy) && LedgerInv(l, policy) && InOrder(l, a) && !Exhausted(l.table, policy, a.who, a.channel, a.authorised)
    ensures CounterOk(Try(l, policy, a), policy, cap, who, start)
  {
    if InForce(policy, cap) && cap.windowDays > 0 {
      var c := Contact(a.who, a.channel, a.consumed);
      assert CounterOk(l, policy, cap, who, start);
      ConsumeAdds(l.table, policy, a.who, a.channel, a.consumed, cap, who, start);
      LogAdds(l.log, c, cap, who, start);
      if CountsIn(c, cap, who, start) {
        AuthorisedFits(l, policy, a, cap, start);
      }
      WindowMonotone(l.clock, a.consumed, cap.windowDays);
    }
  }

  lemma {:induction false} TryAllKeeps(l: Ledger, policy: Policy, attempts: seq<Attempt>)
    requires Sound(policy) && LedgerInv(l, policy)
    ensures LedgerInv(TryAll(l, policy, attempts), policy)
    decreases |attempts|
  {
    if attempts != [] {
      TryKeeps(l, policy, attempts[0]);
      TryAllKeeps(Try(l, policy, attempts[0]), policy, attempts[1..]);
    }
  }

  /** No window of any cap ever holds more contacts than its max, even when the window turns between authorising and consuming. */
  lemma WindowsNeverExceed(policy: Policy, attempts: seq<Attempt>, cap: Cap, who: CustomerId, start: int)
    requires Sound(policy) && InForce(policy, cap) && cap.windowDays > 0
    ensures InWindow(TryAll(NO_CONTACTS, policy, attempts).log, cap, who, start) <= cap.max
  {
    forall c, w, s ensures CounterOk(NO_CONTACTS, policy, c, w, s) {
    }
    TryAllKeeps(NO_CONTACTS, policy, attempts);
    assert CounterOk(TryAll(NO_CONTACTS, policy, attempts), policy, cap, who, start);
  }

  lemma TwoWindows(at: int, from: int, windowDays: int)
    requires windowDays > 0 && from <= at < from + windowDays * DAY_MS
    ensures var s := WindowStart(from, windowDays);
            WindowStart(at, windowDays) == s || WindowStart(at, windowDays) == s + windowDays * DAY_MS
  {
    var w := windowDays * DAY_MS;
    DivMonotone(from, at, w);
    DivMonotone(at, from + w, w);
    assert (from + w) / w == from / w + 1 by {
      DivShift(from, w);
    }
    assert (from / w + 1) * w == from / w * w + w;
  }

  lemma DivShift(x: int, w: int)
    requires w > 0
    ensures (x + w) / w == x / w + 1
  {
    var q, d := x / w, (x + w) / w;
    assert (q + 1) * w == q * w + w && (q + 2) * w == q * w + w + w && (d + 1) * w == d * w + w;
    if d < q + 1 {
      ScaleUp(d + 1, q + 1, w);
    } else if d > q + 1 {
      ScaleUp(q + 2, d, w);
    }
  }

  lemma {:induction false} IntervalMeetsTwo(log: seq<Contact>, cap: Cap, who: CustomerId, from: int)
    requires cap.windowDays > 0
    ensures var w := cap.windowDays * DAY_MS; var s := WindowStart(from, cap.windowDays);
            InInterval(log, cap, who, from, w) <= InWindow(log, cap, who, s) + InWindow(log, cap, who, s + w)
  {
    if log != [] {
      IntervalMeetsTwo(log[..|log| - 1], cap, who, from);
      var c := log[|log| - 1];
      if from <= c.at < from + cap.windowDays * DAY_MS {
        TwoWindows(c.at, from, cap.windowDays);
      }
    }
  }

  /** Any sliding interval as long as the window holds at most twice the cap, because it meets two windows. */
  lemma SlidingIntervalHoldsTwice(policy: Policy, attempts: seq<Attempt>, cap: Cap, who: CustomerId, from: int)
    requires Sound(policy) && InForce(policy, cap) && cap.windowDays > 0
    ensures InInterval(TryAll(NO_CONTACTS, policy, attempts).log, cap, who, from, cap.windowDays * DAY_MS) <= 2 * cap.max
  {
    var w, s := cap.windowDays * DAY_MS, WindowStart(from, cap.windowDays);
    IntervalMeetsTwo(TryAll(NO_CONTACTS, policy, attempts).log, cap, who, from);
    WindowsNeverExceed(policy, attempts, cap, who, s);
    WindowsNeverExceed(policy, attempts, cap, who, s + w);
  }

  // ---- The bounds are reached ----

  /** `n` contacts authorised and consumed at one instant, one after another. */
  function Burst(who: CustomerId, channel: string, at: int, n: nat): seq<Attempt> {
    if n == 0 then [] else [Attempt(who, channel, at, at)] + Burst(who, channel, at, n - 1)
  }

  function Made(who: CustomerId, channel: string, at: int, n: nat): seq<Contact> {
    if n == 0 then [] else [Contact(who, channel, at)] + Made(who, channel, at, n - 1)
  }

  /** The cap's lookups where one channel is capped and no shared cap is set. */
  lemma OneCap(cap: Cap)
    requires cap.channel != ALL_CHANNELS
    ensures CapFor([cap], cap.channel) == Some(cap) && CapFor([cap], ALL_CHANNELS) == None
  {
    assert [cap][1..] == [];
  }

  lemma TryOne(l: Ledger, cap: Cap, who: CustomerId, at: int)
    requires cap.channel != ALL_CHANNELS && cap.windowDays > 0 && l.clock <= at && Used(l.table, KeyOf(cap, who, at)) < cap.max
    ensures Try(l, [cap], Attempt(who, cap.channel, at, at)) ==
            Ledger(l.table[KeyOf(cap, who, at) := Used(l.table, KeyOf(cap, who, at)) + 1], at, l.log + [Contact(who, cap.channel, at)])
  {
    hide WindowStart, CapFor;
    OneCap(cap);
  }

  /** A burst that fits what is left of its window is made in full, and spends nothing else. */
  lemma {:induction false} BurstIsMade(l: Ledger, cap: Cap, who: CustomerId, at: int, n: nat)
    requires cap.channel != ALL_CHANNELS && cap.windowDays > 0 && l.clock <= at
    requires Used(l.table, KeyOf(cap, who, at)) + n <= cap.max
    ensures var l' := TryAll(l, [cap], Burst(who, cap.channel, at, n));
            && l'.log == l.log + Made(who, cap.channel, at, n) && l'.clock <= at
            && forall key :: key != KeyOf(cap, who, at) ==> Used(l'.table, key) == Used(l.table, key)
    decreases n
  {
    hide WindowStart, Try, KeyOf;
    if n > 0 {
      var a := Attempt(who, cap.channel, at, at);
      var l1 := Try(l, [cap], a);
      TryOne(l, cap, who, at);
      assert Burst(who, cap.channel, at, n)[1..] == Burst(who, cap.channel, at, n - 1);
      BurstIsMade(l1, cap, who, at, n - 1);
      assert l1.log + Made(who, cap.channel, at, n - 1) == l.log + Made(who, cap.channel, at, n);
    }
  }

  lemma {:induction false} TryAllSplit(l: Ledger, policy: Policy, a: seq<Attempt>, b: seq<Attempt>)
    requires Sound(policy)
    ensures TryAll(l, policy, a + b) == TryAll(TryAll(l, policy, a), policy, b)
    decreases |a|
  {
    if a == [] {
      assert a + b == b;
    } else {
      assert (a + b)[1..] == a[1..] + b;
      TryAllSplit(Try(l, policy, a[0]), policy, a[1..], b);
    }
  }

  lemma {:induction false} InIntervalSplit(a: seq<Contact>, b: seq<Contact>, cap: Cap, who: CustomerId, from: int, length: int)
    ensures InInterval(a + b, cap, who, from, length) == InInterval(a, cap, who, from, length) + InInterval(b, cap, who, from, length)
    decreases |b|
  {
    if b == [] {
      assert a + b == a;
    } else {
      assert (a + b)[..|a + b| - 1] == a + b[..|b| - 1];
      InIntervalSplit(a, b[..|b| - 1], cap, who, from, length);
    }
  }

  lemma {:induction false} MadeCount(cap: Cap, who: CustomerId, at: int, n: nat, from: int, length: int)
    requires from <= at < from + length
    ensures InInterval(Made(who, cap.channel, at, n), cap, who, from, length) == n
    decreases n
  {
    if n > 0 {
      var c := Contact(who, cap.channel, at);
      InIntervalSplit([c], Made(who, cap.channel, at, n - 1), cap, who, from, length);
      MadeCount(cap, who, at, n - 1, from, length);
      assert [c][..0] == [];
      assert InInterval([c], cap, who, from, length) == 1;
    }
  }

  lemma TurnOfTheWindow(windowDays: int)
    requires windowDays > 0
    ensures var w := windowDays * DAY_MS; w > 0 && WindowStart(w - 1, windowDays) == 0 && WindowStart(w, windowDays) == w
  {
    var w := windowDays * DAY_MS;
    DivMonotone(0, w - 1, w);
    DivShift(0, w);
    assert (w - 1) / w == 0;
  }

  lemma TwoBursts(cap: Cap, who: CustomerId, w: int)
    requires cap.channel != ALL_CHANNELS && cap.windowDays > 0 && w > 0
    requires WindowStart(w - 1, cap.windowDays) != WindowStart(w, cap.windowDays)
    ensures TryAll(NO_CONTACTS, [cap], Burst(who, cap.channel, w - 1, cap.max) + Burst(who, cap.channel, w, cap.max)).log ==
            Made(who, cap.channel, w - 1, cap.max) + Made(who, cap.channel, w, cap.max)
  {
    hide WindowStart, Try, CapFor;
    var first, second := Burst(who, cap.channel, w - 1, cap.max), Burst(who, cap.channel, w, cap.max);
    BurstIsMade(NO_CONTACTS, cap, who, w - 1, cap.max);
    BurstIsMade(TryAll(NO_CONTACTS, [cap], first), cap, who, w, cap.max);
    TryAllSplit(NO_CONTACTS, [cap], first, second);
    assert NO_CONTACTS.log + Made(who, cap.channel, w - 1, cap.max) == Made(who, cap.channel, w - 1, cap.max);
  }

  /**
   * Twice is reached, for every cap: spending it all just before a window turns and
   * all again just after puts 2 * max contacts into one interval of the window's length.
   */
  lemma TwiceIsReached(cap: Cap, who: CustomerId)
    requires cap.channel != ALL_CHANNELS && cap.windowDays > 0
    ensures var w := cap.windowDays * DAY_MS;
            var attempts := Burst(who, cap.channel, w - 1, cap.max) + Burst(who, cap.channel, w, cap.max);
            InInterval(TryAll(NO_CONTACTS, [cap], attempts).log, cap, who, w - 1, w) == 2 * cap.max
  {
    hide WindowStart, TryAll, InInterval, Burst, Made;
    var w := cap.windowDays * DAY_MS;
    TurnOfTheWindow(cap.windowDays);
    TwoBursts(cap, who, w);
    InIntervalSplit(Made(who, cap.channel, w - 1, cap.max), Made(who, cap.channel, w, cap.max), cap, who, w - 1, w);
    MadeCount(cap, who, w - 1, cap.max, w - 1, w);
    MadeCount(cap, who, w, cap.max, w - 1, w);
  }

  /**
   * The order matters: two contacts both authorised before either is consumed keep a
   * budget that counts them exactly if two were left.
   */
  lemma AuthorisedTogether(t: Table, policy: Policy, cap: Cap, who: CustomerId, channel: string, at: int)
    requires Sound(policy) && InForce(policy, cap) && cap.windowDays > 0
    requires channel != ALL_CHANNELS && cap.channel in {channel, ALL_CHANNELS} && !Exhausted(t, policy, who, channel, at)
    ensures var t2 := Consume(Consume(t, policy, who, channel, at), policy, who, channel, at);
            && Used(t2, KeyOf(cap, who, at)) == Used(t, KeyOf(cap, who, at)) + 2
            && (Used(t2, KeyOf(cap, who, at)) <= cap.max <==> Used(t, KeyOf(cap, who, at)) + 2 <= cap.max)
  {
    hide WindowStart, Consume;
    var start := WindowStart(at, cap.windowDays);
    ConsumeAdds(t, policy, who, channel, at, cap, who, start);
    ConsumeAdds(Consume(t, policy, who, channel, at), policy, who, channel, at, cap, who, start);
  }

  /** A contact made on the shared channel itself is counted twice, so the cap holds unless one was left. */
  lemma SharedChannelCountsTwice(t: Table, policy: Policy, cap: Cap, who: CustomerId, at: int)
    requires Sound(policy) && InForce(policy, cap) && cap.channel == ALL_CHANNELS && cap.windowDays > 0
    requires !Exhausted(t, policy, who, ALL_CHANNELS, at)
    ensures Used(Consume(t, policy, who, ALL_CHANNELS, at), KeyOf(cap, who, at)) == Used(t, KeyOf(cap, who, at)) + 2
    ensures Used(Consume(t, policy, who, ALL_CHANNELS, at), KeyOf(cap, who, at)) <= cap.max <==> Used(t, KeyOf(cap, who, at)) + 1 != cap.max
  {
  }

  // ---- As it runs ----

  class Budgets {
    const policy: Policy
    var table: Table

    ghost predicate Valid() {
      Sound(policy)
    }

    constructor (policy: Policy)
      requires Sound(policy)
      ensures Valid() && this.policy == policy && table == map[]
    {
      this.policy := policy;
      table := map[];
    }

    method BudgetExhausted(who: CustomerId, channel: string, now: int) returns (exhausted: bool)
      requires Valid()
      ensures exhausted == Exhausted(table, policy, who, channel, now)
      ensures exhausted <==>
              exists cap :: (CapFor(policy, channel) == Some(cap) || CapFor(policy, "*") == Some(cap))
                            && Used(table, (who, cap.channel, WindowStart(now, cap.windowDays))) >= cap.max
    {
      var caps := [CapFor(policy, channel), CapFor(policy, ALL_CHANNELS)];
      for i := 0 to 2
        invariant forall k :: 0 <= k < i ==> !Spent(table, caps[k], who, now)
      {
        if Spent(table, caps[i], who, now) {
          return true;
        }
      }
      assert !Spent(table, caps[0], who, now) && !Spent(table, caps[1], who, now);
      return false;
    }

    method ConsumeContactBudget(who: CustomerId, channel: string, now: int)
      requires Valid()
      modifies this
      ensures table == Consume(old(table), policy, who, channel, now)
    {
      var caps := [CapFor(policy, channel), CapFor(policy, ALL_CHANNELS)];
      for i := 0 to 2
        invariant i == 0 ==> table == old(table)
        invariant i == 1 ==> table == Bump(old(table), caps[0], who, now)
        invariant i == 2 ==> table == Consume(old(table), policy, who, channel, now)
      {
        if caps[i].Some? {
          var key := KeyOf(caps[i].value, who, now);
          table := table[key := Used(table, key) + 1];
        }
      }
    }
  }
}
