/** The message filters: the token bucket that limits the rate of messages, and the timer
    that pings a silent peer. */
module Filters {
  import opened Messages

  /** What the filter receives, in the order it does: ticks of its refresh timer, messages,
      and the closing of its source. While it waits for quota only ticks are received. */
  datatype Event = Tick | Arrive(message: Message) | Close

  /** The state at the top of the loop, quota capped; `waiting` while the quota is used up
      and the filter blocks on its timer; `closed` once it has returned. */
  datatype Bucket = Bucket(left: int, waiting: bool, closed: bool)

  function Capped(left: int, maxQuota: int): int
  {
    if left > maxQuota then maxQuota else left
  }

  /** The initial quota plays no part: the filter starts at the maximum. */
  function Start(maxQuota: int): Bucket { Bucket(maxQuota, false, false) }

  predicate CanReceive(b: Bucket, e: Event)
  {
    !b.closed && (b.waiting ==> e.Tick?)
  }

  function Receive(b: Bucket, e: Event, maxQuota: int): Bucket
  {
    match e
    case Tick => Bucket(Capped(b.left + 1, maxQuota), false, false)
    case Arrive(_) =>
      if b.left - 1 == 0 then b.(left := 0, waiting := true)
      else b.(left := Capped(b.left - 1, maxQuota))
    case Close => b.(closed := true)
  }

  function BucketAfter(events: seq<Event>, maxQuota: int): Bucket
  {
    if events == [] then Start(maxQuota)
    else Receive(BucketAfter(events[..|events| - 1], maxQuota), events[|events| - 1], maxQuota)
  }

  /** The events are received in this order by a filter with this quota. */
  predicate IsSchedule(events: seq<Event>, maxQuota: int)
  {
    events == [] ||
    (IsSchedule(events[..|events| - 1], maxQuota) &&
     CanReceive(BucketAfter(events[..|events| - 1], maxQuota), events[|events| - 1]))
  }

  function Copied(events: seq<Event>): seq<Message>
  {
    if events == [] then []
    else Copied(events[..|events| - 1]) +
         (match events[|events| - 1] case Arrive(m) => [m] case _ => [])
  }

  function Ticks(events: seq<Event>): nat
  {
    if events == [] then 0
    else Ticks(events[..|events| - 1]) + (if events[|events| - 1].Tick? then 1 else 0)
  }

  // ---- Steps of a schedule ------------------------------------------------------------

  lemma {:induction false} SchedulePrefix(events: seq<Event>, maxQuota: int, k: nat)
    requires IsSchedule(events, maxQuota) && k <= |events|
    ensures IsSchedule(events[..k], maxQuota)
  {
    if k == |events| {
      assert events[..k] == events;
    } else {
      SchedulePrefix(events[..|events| - 1], maxQuota, k);
      assert events[..|events| - 1][..k] == events[..k];
    }
  }

  /** One more event of a schedule. */
  lemma NextReceived(events: seq<Event>, i: nat, maxQuota: int)
    requires IsSchedule(events, maxQuota) && i < |events|
    ensures var b := BucketAfter(events[..i], maxQuota);
            && CanReceive(b, events[i])
            && BucketAfter(events[..i + 1], maxQuota) == Receive(b, events[i], maxQuota)
            && Copied(events[..i + 1]) ==
               Copied(events[..i]) + (match events[i] case Arrive(m) => [m] case _ => [])
  {
    SchedulePrefix(events, maxQuota, i + 1);
    assert events[..i + 1][..i] == events[..i];
  }

  lemma CloseIsLast(events: seq<Event>, i: nat, maxQuota: int)
    requires IsSchedule(events, maxQuota) && i < |events| && events[i].Close?
    ensures i == |events| - 1
  {
    NextReceived(events, i, maxQuota);
    if i + 1 < |events| { NextReceived(events, i + 1, maxQuota); }
  }

  /** The filter's loop, over the events it receives. Its documentation says that the quota
      starts at `initQuota`, which is not read; see `StartsAtInitQuota`. */
  method RateLimit(events: seq<Event>, initQuota: int, maxQuota: int) returns (dst: seq<Message>, left: int)
    requires IsSchedule(events, maxQuota)
    ensures dst == Copied(events)
    ensures left == BucketAfter(events, maxQuota).left
  {
    dst := [];
    left := maxQuota;
    var i := 0;
    assert events[..0] == [];
    while i < |events|
      invariant i <= |events| && dst == Copied(events[..i])
      invariant left == BucketAfter(events[..i], maxQuota).left
      invariant i < |events| ==> !BucketAfter(events[..i], maxQuota).waiting
    {
      NextReceived(events, i, maxQuota);
      match events[i] {
        case Tick =>
          left := left + 1;
        case Arrive(msg) =>
          dst := dst + [msg];
          left := left - 1;
          if left == 0 && i + 1 < |events| {
            // blocks until the next tick
            i := i + 1;
            NextReceived(events, i, maxQuota);
            left := left + 1;
          }
        case Close =>
          CloseIsLast(events, i, maxQuota);
          assert events[..i + 1] == events;
          return;
      }
      i := i + 1;
      if left > maxQuota {
        left := maxQuota;
      }
    }
    assert events[..|events|] == events;
  }

  // ---- The bound ----------------------------------------------------------------------

  /** With a quota to speak of, the bucket holds between nothing and the maximum, and blocks
      exactly when it holds nothing. */
  predicate BucketOk(b: Bucket, maxQuota: int)
  {
    0 <= b.left <= maxQuota && (b.waiting <==> b.left == 0)
  }

  lemma {:induction false} BucketStaysOk(events: seq<Event>, maxQuota: int)
    requires maxQuota >= 1 && IsSchedule(events, maxQuota)
    ensures BucketOk(BucketAfter(events, maxQuota), maxQuota)
  {
    if events != [] { BucketStaysOk(events[..|events| - 1], maxQuota); }
  }

  /** What a window copies is paid for by the quota at its start and its ticks. */
  lemma {:induction false} WindowIsPaidFor(events: seq<Event>, maxQuota: int, i: nat, j: nat)
    requires maxQuota >= 1 && IsSchedule(events, maxQuota) && i <= j <= |events|
    ensures |Copied(events[i..j])| + BucketAfter(events[..j], maxQuota).left
            <= BucketAfter(events[..i], maxQuota).left + Ticks(events[i..j])
  {
    hide IsSchedule, BucketAfter;
    if i < j {
      WindowIsPaidFor(events, maxQuota, i, j - 1);
      NextReceived(events, j - 1, maxQuota);
      SchedulePrefix(events, maxQuota, j - 1);
      BucketStaysOk(events[..j - 1], maxQuota);
      assert events[i..j][..|events[i..j]| - 1] == events[i..j - 1];
    }
  }

  predicate Bounded(events: seq<Event>, maxQuota: int, i: nat, j: nat)
    requires i <= j <= |events|
  {
    |Copied(events[i..j])| <= maxQuota + Ticks(events[i..j])
  }

  /** In every window of every run no more is copied than the maximum quota and the ticks
      of the window allow, and nothing at all is received while the quota is used up. */
  lemma WindowIsBounded(events: seq<Event>, maxQuota: int, i: nat, j: nat)
    requires maxQuota >= 1 && IsSchedule(events, maxQuota) && i <= j <= |events|
    ensures Bounded(events, maxQuota, i, j)
    ensures i < |events| && BucketAfter(events[..i], maxQuota).left == 0 ==> events[i].Tick?
  {
    WindowIsPaidFor(events, maxQuota, i, j);
    SchedulePrefix(events, maxQuota, i);
    SchedulePrefix(events, maxQuota, j);
    BucketStaysOk(events[..i], maxQuota);
    BucketStaysOk(events[..j], maxQuota);
    if i < |events| { NextReceived(events, i, maxQuota); }
  }

  /** What the window from `i` on leaves of a full bucket. */
  function Remainder(events: seq<Event>, maxQuota: int, i: nat): int
    requires i <= |events|
  {
    maxQuota + Ticks(events[i..]) - |Copied(events[i..])|
  }

  lemma RemainderStep(events: seq<Event>, e: Event, maxQuota: int, i: nat)
    requires i <= |events|
    ensures Remainder(events + [e], maxQuota, i) ==
            Remainder(events, maxQuota, i) + (match e case Tick => 1 case Arrive(_) => -1 case Close => 0)
  {
    var all := (events + [e])[i..];
    assert all[..|all| - 1] == events[i..];
  }

  /** The quota is the least that any window leaves: every tick adds to it, every message takes
      from it, and nothing but the maximum bounds it. */
  lemma {:induction false} QuotaExactly(events: seq<Event>, maxQuota: int)
    requires maxQuota >= 1 && IsSchedule(events, maxQuota)
    ensures forall i | 0 <= i <= |events| :: BucketAfter(events, maxQuota).left <= Remainder(events, maxQuota, i)
    ensures exists i | 0 <= i <= |events| :: BucketAfter(events, maxQuota).left == Remainder(events, maxQuota, i)
  {
    var left := BucketAfter(events, maxQuota).left;
    assert events[|events|..] == [];
    if events == [] {
      assert left == Remainder(events, maxQuota, 0);
    } else {
      hide IsSchedule, Remainder;
      var init, e := events[..|events| - 1], events[|events| - 1];
      assert IsSchedule(init, maxQuota) && CanReceive(BucketAfter(init, maxQuota), e) by { LastReceived(events, maxQuota); }
      QuotaExactly(init, maxQuota);
      BucketStaysOk(init, maxQuota);
      assert events == init + [e];
      forall i | 0 <= i <= |init|
        ensures Remainder(events, maxQuota, i) ==
                Remainder(init, maxQuota, i) + (match e case Tick => 1 case Arrive(_) => -1 case Close => 0)
      {
        RemainderStep(init, e, maxQuota, i);
      }
      assert Remainder(events, maxQuota, |events|) == maxQuota by { FullRemainder(events, maxQuota); }
      BucketStaysOk(events, maxQuota);
      var k :| 0 <= k <= |init| && BucketAfter(init, maxQuota).left == Remainder(init, maxQuota, k);
      assert left == Remainder(events, maxQuota, k) || left == Remainder(events, maxQuota, |events|);
    }
  }

  lemma FullRemainder(events: seq<Event>, maxQuota: int)
    ensures Remainder(events, maxQuota, |events|) == maxQuota
  {
    assert events[|events|..] == [];
  }

  lemma LastReceived(events: seq<Event>, maxQuota: int)
    requires events != [] && IsSchedule(events, maxQuota)
    ensures var init := events[..|events| - 1];
            IsSchedule(init, maxQuota) && CanReceive(BucketAfter(init, maxQuota), events[|events| - 1])
  {
  }

  /** The converse of the bound: a message is copied at once exactly if the source has not been
      closed and the bound leaves room for it in every window that ends here. */
  lemma CopiedExactly(events: seq<Event>, maxQuota: int, m: Message)
    requires maxQuota >= 1 && IsSchedule(events, maxQuota)
    ensures IsSchedule(events + [Arrive(m)], maxQuota) <==>
            && Close !in events
            && forall i | 0 <= i <= |events| ::
                 |Copied(events[i..])| < maxQuota + Ticks(events[i..])
  {
    hide IsSchedule;
    QuotaExactly(events, maxQuota);
    BucketStaysOk(events, maxQuota);
    ClosedExactly(events, maxQuota);
    var more := events + [Arrive(m)];
    assert more[..|events|] == events;
    assert IsSchedule(more, maxQuota) <==> CanReceive(BucketAfter(events, maxQuota), Arrive(m)) by {
      OneMoreReceived(events, Arrive(m), maxQuota);
    }
    assert forall i | 0 <= i <= |events| ::
        Remainder(events, maxQuota, i) >= 1 <==> |Copied(events[i..])| < maxQuota + Ticks(events[i..]);
  }

  lemma OneMoreReceived(events: seq<Event>, e: Event, maxQuota: int)
    requires IsSchedule(events, maxQuota)
    ensures IsSchedule(events + [e], maxQuota) <==> CanReceive(BucketAfter(events, maxQuota), e)
  {
    assert (events + [e])[..|events|] == events;
  }

  lemma {:induction false} ClosedExactly(events: seq<Event>, maxQuota: int)
    requires IsSchedule(events, maxQuota)
    ensures BucketAfter(events, maxQuota).closed <==> Close in events
  {
    if events != [] {
      var init := events[..|events| - 1];
      ClosedExactly(init, maxQuota);
      assert events == init + [events[|events| - 1]];
    }
  }

  function Arrivals(ms: seq<Message>): seq<Event>
  {
    if ms == [] then [] else Arrivals(ms[..|ms| - 1]) + [Arrive(ms[|ms| - 1])]
  }

  /** Without a positive maximum nothing is ever limited: any messages pass at once. */
  lemma {:induction false} NoQuotaNoLimit(ms: seq<Message>, maxQuota: int)
    requires maxQuota <= 0
    ensures var events := Arrivals(ms);
            && IsSchedule(events, maxQuota) && Copied(events) == ms && Ticks(events) == 0
            && BucketAfter(events, maxQuota) == Bucket(maxQuota - |ms|, false, false)
  {
    if ms != [] {
      var init := Arrivals(ms[..|ms| - 1]);
      NoQuotaNoLimit(ms[..|ms| - 1], maxQuota);
      assert Arrivals(ms)[..|Arrivals(ms)| - 1] == init;
      assert ms == ms[..|ms| - 1] + [ms[|ms| - 1]];
    }
  }

  /** The bound holds of all windows of all runs exactly when the maximum is positive. */
  lemma BoundedExactlyWithQuota(maxQuota: int)
    ensures maxQuota >= 1 <==>
            forall events: seq<Event>, i: nat, j: nat |
              IsSchedule(events, maxQuota) && i <= j <= |events| :: Bounded(events, maxQuota, i, j)
  {
    if maxQuota >= 1 {
      forall events: seq<Event>, i: nat, j: nat | IsSchedule(events, maxQuota) && i <= j <= |events|
        ensures Bounded(events, maxQuota, i, j)
      {
        WindowIsBounded(events, maxQuota, i, j);
      }
    } else {
      var ms := [Message("", Ping, [])];
      NoQuotaNoLimit(ms, maxQuota);
      var events := Arrivals(ms);
      assert events == [Arrive(ms[0])];
      assert events[0..1] == events;
      assert !Bounded(events, maxQuota, 0, 1);
    }
  }

  /** As many messages as there is quota for pass at the start of a run. */
  lemma {:induction false} BurstIsScheduled(ms: seq<Message>, maxQuota: int)
    requires |ms| <= maxQuota
    ensures var events := Arrivals(ms);
            && IsSchedule(events, maxQuota) && Copied(events) == ms && Ticks(events) == 0
            && (ms != [] ==> BucketAfter(events, maxQuota) == Bucket(maxQuota - |ms|, |ms| == maxQuota, false))
  {
    if ms != [] {
      var init := Arrivals(ms[..|ms| - 1]);
      BurstIsScheduled(ms[..|ms| - 1], maxQuota);
      assert Arrivals(ms)[..|Arrivals(ms)| - 1] == init;
      assert ms == ms[..|ms| - 1] + [ms[|ms| - 1]];
    }
  }

  /** What the documentation promises of the initial quota: until any moment of a run, no
      more is copied than it and the ticks so far allow. */
  ghost predicate StartsWith(initQuota: int, maxQuota: int)
  {
    forall events: seq<Event>, j: nat | IsSchedule(events, maxQuota) && j <= |events| ::
      |Copied(events[..j])| <= initQuota + Ticks(events[..j])
  }

  /** The promise is kept exactly where ignoring the initial quota makes no difference: when
      the maximum is positive and does not exceed it. */
  lemma StartsAtInitQuota(initQuota: int, maxQuota: int)
    ensures StartsWith(initQuota, maxQuota) <==> 1 <= maxQuota <= initQuota
  {
    if 1 <= maxQuota <= initQuota {
      forall events: seq<Event>, j: nat | IsSchedule(events, maxQuota) && j <= |events|
        ensures |Copied(events[..j])| <= initQuota + Ticks(events[..j])
      {
        WindowIsBounded(events, maxQuota, 0, j);
        assert events[0..j] == events[..j];
      }
    } else {
      var n := if maxQuota >= 1 then maxQuota else if initQuota < 0 then 0 else initQuota + 1;
      var ms := seq(n, _ => Message("", Ping, []));
      if maxQuota >= 1 { BurstIsScheduled(ms, maxQuota); } else { NoQuotaNoLimit(ms, maxQuota); }
      var events := Arrivals(ms);
      assert events[..|events|] == events;
      assert |Copied(events[..|events|])| > initQuota + Ticks(events[..|events|]);
    }
  }

  /** With an initial quota of nothing and a maximum of one, a message passes at once. */
  lemma NothingToStartWith()
    ensures var events := [Arrive(Message("", Ping, []))];
            IsSchedule(events, 1) && |Copied(events)| > 0 + Ticks(events)
  {
    var ms := [Message("", Ping, [])];
    BurstIsScheduled(ms, 1);
    assert Arrivals(ms) == [Arrive(ms[0])];
  }

  // ---- The pinging timer ----------------------------------------------------------------

  /** What the pinging filter is woken by: a message, its timer, or being cancelled.
      `taken`: whether the message that follows from it, forwarded or a ping, finds a
      receiver before the filter is cancelled. */
  datatype Signal = Incoming(message: Message, taken: bool) | Timer(taken: bool) | Cancelled

  const PING := Message("", Ping, ["ping"])

  /** The messages to be forwarded: all but the answers to pings. */
  function Forwarded(signals: seq<Signal>): seq<Message>
  {
    if signals == [] then []
    else Forwarded(signals[..|signals| - 1]) +
         (match signals[|signals| - 1]
          case Incoming(m, taken) => if m.command.Pong? || !taken then [] else [m]
          case _ => [])
  }

  /** The timer ran out twice in a row, so a ping was not answered by anything. */
  predicate TwiceSilent(signals: seq<Signal>)
  {
    exists i | 0 < i < |signals| :: signals[i].Timer? && signals[i - 1].Timer?
  }

  /** The pings that went out. */
  function PingsIn(signals: seq<Signal>): nat
  {
    if signals == [] then 0
    else PingsIn(signals[..|signals| - 1]) +
         (match signals[|signals| - 1] case Timer(taken) => if taken then 1 else 0 case _ => 0)
  }

  /** The filter is cancelled, waiting for a signal or for a receiver. */
  predicate Ends(signal: Signal)
  {
    match signal
    case Incoming(m, taken) => !m.command.Pong? && !taken
    case Timer(taken) => !taken
    case Cancelled => true
  }

  /** The filter's loop over the signals it receives; it reads `used` of them. The peer is
      disconnected exactly when the timer runs out twice with nothing in between, at the
      first such moment; until then each time it runs out one ping goes out, and only being
      cancelled, at the first such moment, makes it stop. */
  method AutoPing(signals: seq<Signal>)
    returns (forward: seq<Message>, pings: nat, disconnected: bool, used: nat)
    ensures used <= |signals| && forward == Forwarded(signals[..used])
    ensures disconnected <==> TwiceSilent(signals[..used])
    ensures pings == PingsIn(if disconnected then signals[..used - 1] else signals[..used])
    ensures used > 0 ==> !TwiceSilent(signals[..used - 1])
    ensures forall i | 0 <= i < used - 1 :: !Ends(signals[i])
    ensures used < |signals| ==> disconnected || (used > 0 && Ends(signals[used - 1]))
  {
    forward, pings, disconnected, used := [], 0, false, 0;
    var pingSent := false;
    assert signals[..0] == [];
    while used < |signals|
      invariant used <= |signals| && forward == Forwarded(signals[..used])
      invariant !disconnected && !TwiceSilent(signals[..used])
      invariant pings == PingsIn(signals[..used])
      invariant pingSent <==> used > 0 && signals[used - 1].Timer?
      invariant forall i | 0 <= i < used :: !Ends(signals[i])
    {
      var signal := signals[used];
      assert signals[..used + 1][..used] == signals[..used];
      assert TwiceSilent(signals[..used + 1]) <==> used > 0 && signal.Timer? && signals[used - 1].Timer? by {
        OneMoreSignal(signals, used);
      }
      used := used + 1;
      match signal {
        case Cancelled => return;
        case Incoming(m, taken) =>
          pingSent := false;
          if !m.command.Pong? {
            if !taken { return; }
            forward := forward + [m];
          }
        case Timer(taken) =>
          if pingSent {
            disconnected := true;
            return;
          }
          if !taken { return; }
          pings := pings + 1;
          pingSent := true;
      }
    }
    assert signals[..used] == signals;
  }

  lemma OneMoreSignal(signals: seq<Signal>, k: nat)
    requires k < |signals| && !TwiceSilent(signals[..k])
    ensures TwiceSilent(signals[..k + 1]) <==> k > 0 && signals[k].Timer? && signals[k - 1].Timer?
  {
    var more := signals[..k + 1];
    if k > 0 && signals[k].Timer? && signals[k - 1].Timer? {
      assert more[k].Timer? && more[k - 1].Timer?;
    }
    forall i | 0 < i < k ensures !(more[i].Timer? && more[i - 1].Timer?) {
      assert more[i] == signals[..k][i] && more[i - 1] == signals[..k][i - 1];
    }
  }
}
