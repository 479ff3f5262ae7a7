// Token buckets over reals, and the limiter that draws on several of them at once.

module TokenBuckets {
  import opened Board

  datatype Bucket = Bucket(tokens: real, updated: real)

  function Smaller(x: real, y: real): real {
    if x < y then x else y
  }

  function Larger(x: real, y: real): real {
    if x > y then x else y
  }

  predicate InRange(b: Bucket, capacity: real) {
    0.0 <= b.tokens <= capacity
  }

  // Refill for the time since the last reading; a clock that has gone back refills nothing.
  function Refilled(b: Bucket, capacity: real, rate: real, now: real): Bucket {
    Bucket(Smaller(capacity, b.tokens + Larger(0.0, now - b.updated) * rate), Larger(b.updated, now))
  }

  datatype Draw = Draw(bucket: Bucket, taken: bool)

  // One request: a whole token if there is one. `rate` is tokens per millisecond.
  function Take(b: Bucket, capacity: real, rate: real, now: real): Draw {
    var full := Refilled(b, capacity, rate, now);
    if full.tokens < 1.0 then Draw(full, false) else Draw(full.(tokens := full.tokens - 1.0), true)
  }

  predicate HasToken(b: Bucket, capacity: real, rate: real, now: real) {
    Refilled(b, capacity, rate, now).tokens >= 1.0
  }

  // What one call does to a bucket: nothing, or one draw at its reading of the clock. A counted
  // call is one that got a token.
  predicate Charged(b: Bucket, b': Bucket, capacity: real, rate: real, now: real, counted: bool) {
    || (b' == b && !counted)
    || (b' == Take(b, capacity, rate, now).bucket && (counted ==> Take(b, capacity, rate, now).taken))
  }

  lemma TakeCharges(b: Bucket, capacity: real, rate: real, now: real)
    requires rate >= 0.0 && capacity >= 0.0 && InRange(b, capacity)
    ensures var draw := Take(b, capacity, rate, now);
            && InRange(draw.bucket, capacity) && (draw.taken <==> HasToken(b, capacity, rate, now))
            && Charged(b, draw.bucket, capacity, rate, now, draw.taken) && Charged(b, draw.bucket, capacity, rate, now, false)
  {
    var gain := Larger(0.0, now - b.updated);
    assert gain * rate >= 0.0;
  }

  // What a bucket gains in a time.
  function Refill(rate: real, elapsed: real): real {
    rate * elapsed
  }

  // A run of requests at any readings of the clock, forwards or backwards.
  function TakeAll(b: Bucket, capacity: real, rate: real, readings: seq<real>): (Bucket, nat)
    decreases |readings|
  {
    if readings == [] then (b, 0)
    else
      var draw := Take(b, capacity, rate, readings[0]);
      var rest := TakeAll(draw.bucket, capacity, rate, readings[1..]);
      (rest.0, (if draw.taken then 1 else 0) + rest.1)
  }

  // What a bucket hands out comes from what it held and what it gained.
  lemma {:induction false} RunIsPaid(b: Bucket, capacity: real, rate: real, readings: seq<real>)
    requires rate >= 0.0 && capacity >= 0.0 && InRange(b, capacity)
    ensures var (after, admitted) := TakeAll(b, capacity, rate, readings);
            && InRange(after, capacity) && after.updated >= b.updated
            && after.tokens + admitted as real <= b.tokens + Refill(rate, after.updated - b.updated)
    decreases |readings|
  {
    hide Take, InRange, Refill;
    Monotone(rate, 0.0, 0.0);
    if readings != [] {
      var draw := Take(b, capacity, rate, readings[0]);
      TakePays(b, capacity, rate, readings[0]);
      RunIsPaid(draw.bucket, capacity, rate, readings[1..]);
      var rest := TakeAll(draw.bucket, capacity, rate, readings[1..]);
      Spread(rate, b.updated, draw.bucket.updated, rest.0.updated);
    }
  }

  lemma TakePays(b: Bucket, capacity: real, rate: real, now: real)
    requires rate >= 0.0 && capacity >= 0.0 && InRange(b, capacity)
    ensures var draw := Take(b, capacity, rate, now);
            && InRange(draw.bucket, capacity) && draw.bucket.updated == Larger(b.updated, now)
            && draw.bucket.tokens + (if draw.taken then 1.0 else 0.0) <= b.tokens + Refill(rate, draw.bucket.updated - b.updated)
            && draw.bucket.tokens + (if draw.taken then 1.0 else 0.0) <= capacity
  {
    var gain := Larger(0.0, now - b.updated);
    assert gain * rate >= 0.0;
    assert Larger(b.updated, now) - b.updated == gain;
    assert gain * rate == rate * gain;
  }

  lemma Spread(rate: real, a: real, b: real, c: real)
    ensures Refill(rate, c - a) == Refill(rate, b - a) + Refill(rate, c - b)
  {
  }

  // Over any run the bucket admits at most its capacity and the refill since the first reading:
  // idle time before the run counts for nothing.
  lemma WindowIsBounded(b: Bucket, capacity: real, rate: real, readings: seq<real>)
    requires rate >= 0.0 && capacity >= 0.0 && InRange(b, capacity) && readings != []
    ensures var (after, admitted) := TakeAll(b, capacity, rate, readings);
            && InRange(after, capacity) && after.updated >= Larger(b.updated, readings[0])
            && admitted as real <= capacity + Refill(rate, after.updated - Larger(b.updated, readings[0]))
  {
    var start := Refilled(b, capacity, rate, readings[0]);
    RefillIsIdempotent(b, capacity, rate, readings[0]);
    assert Take(start, capacity, rate, readings[0]) == Take(b, capacity, rate, readings[0]);
    assert TakeAll(start, capacity, rate, readings) == TakeAll(b, capacity, rate, readings);
    hide Take, Refilled, TakeAll, Refill;
    RunIsPaid(start, capacity, rate, readings);
  }

  lemma RefillIsIdempotent(b: Bucket, capacity: real, rate: real, now: real)
    requires rate >= 0.0 && capacity >= 0.0 && InRange(b, capacity)
    ensures var full := Refilled(b, capacity, rate, now);
            && InRange(full, capacity) && full.updated == Larger(b.updated, now)
            && Refilled(full, capacity, rate, now) == full
  {
    TakePays(b, capacity, rate, now);
    assert Larger(0.0, now - b.updated) * rate >= 0.0;
  }

  // The other way about: a pause is paid in full, up to the capacity, and one that is worth a
  // token admits the next request.
  lemma PauseIsPaid(b: Bucket, capacity: real, rate: real, now: real)
    requires rate >= 0.0 && capacity >= 0.0 && InRange(b, capacity)
    ensures var full := Refilled(b, capacity, rate, now);
            && (now <= b.updated ==> full == b)
            && (now >= b.updated ==> full.updated == now)
            && (now >= b.updated && b.tokens + rate * (now - b.updated) >= capacity ==> full.tokens == capacity)
            && (now >= b.updated && b.tokens + rate * (now - b.updated) <= capacity ==>
                  full.tokens == b.tokens + rate * (now - b.updated))
    ensures capacity >= 1.0 && now >= b.updated && b.tokens + rate * (now - b.updated) >= 1.0 ==>
              HasToken(b, capacity, rate, now) && Take(b, capacity, rate, now).taken
  {
    if now >= b.updated {
      assert Larger(0.0, now - b.updated) * rate == rate * (now - b.updated);
    }
  }

  // No reading finds more than the bucket can hold.
  predicate NeverIdle(b: Bucket, capacity: real, rate: real, readings: seq<real>)
    decreases |readings|
  {
    readings != [] ==>
      && b.tokens + Refill(rate, Larger(0.0, readings[0] - b.updated)) <= capacity
      && NeverIdle(Take(b, capacity, rate, readings[0]).bucket, capacity, rate, readings[1..])
  }

  // Such a run loses nothing: what is left and what was handed out is what there was and what the
  // time has brought.
  lemma {:induction false} RunIsExact(b: Bucket, capacity: real, rate: real, readings: seq<real>)
    requires rate >= 0.0 && capacity >= 0.0 && InRange(b, capacity) && NeverIdle(b, capacity, rate, readings)
    ensures var (after, admitted) := TakeAll(b, capacity, rate, readings);
            after.tokens + admitted as real == b.tokens + Refill(rate, after.updated - b.updated)
    decreases |readings|
  {
    hide Take, InRange, Refill;
    NoRefill(rate);
    if readings != [] {
      var draw := Take(b, capacity, rate, readings[0]);
      TakePays(b, capacity, rate, readings[0]);
      TakeIsExact(b, capacity, rate, readings[0]);
      RunIsExact(draw.bucket, capacity, rate, readings[1..]);
      var rest := TakeAll(draw.bucket, capacity, rate, readings[1..]);
      Spread(rate, b.updated, draw.bucket.updated, rest.0.updated);
    }
  }

  lemma TakeIsExact(b: Bucket, capacity: real, rate: real, now: real)
    requires rate >= 0.0 && b.tokens + Refill(rate, Larger(0.0, now - b.updated)) <= capacity
    ensures var draw := Take(b, capacity, rate, now);
            draw.bucket.tokens + (if draw.taken then 1.0 else 0.0) == b.tokens + Refill(rate, draw.bucket.updated - b.updated)
  {
    var gain := Larger(0.0, now - b.updated);
    assert Larger(b.updated, now) - b.updated == gain;
    assert gain * rate == rate * gain;
  }

  // Calls on one bucket among others.

  function Count(counted: seq<bool>): nat {
    if counted == [] then 0 else Count(counted[..|counted| - 1]) + (if counted[|counted| - 1] then 1 else 0)
  }

  predicate Within(readings: seq<real>, from: real, to: real) {
    forall i :: 0 <= i < |readings| ==> from <= readings[i] <= to
  }

  predicate AllCharged(buckets: seq<Bucket>, readings: seq<real>, counted: seq<bool>, capacity: real, rate: real)
    requires |buckets| == |counted| + 1 && |readings| == |counted|
  {
    forall i :: 0 <= i < |counted| ==> Charged(buckets[i], buckets[i + 1], capacity, rate, readings[i], counted[i])
  }

  // Before the first draw in the window nothing is counted; from then on the refill since the
  // window's start, or since the last draw before it, pays for what is.
  predicate PaidInWindow(first: Bucket, b: Bucket, capacity: real, rate: real, from: real, to: real, n: nat) {
    && InRange(b, capacity) && first.updated <= b.updated <= Larger(first.updated, to)
    && (if b.updated < from then n == 0
        else b.tokens + n as real <= capacity + Refill(rate, b.updated - Larger(first.updated, from)))
  }

  lemma ChargeIsPaid(first: Bucket, b: Bucket, b': Bucket, capacity: real, rate: real, now: real, counted: bool, from: real, to: real, n: nat)
    requires rate >= 0.0 && capacity >= 0.0 && from <= now <= to
    requires PaidInWindow(first, b, capacity, rate, from, to, n) && Charged(b, b', capacity, rate, now, counted)
    ensures PaidInWindow(first, b', capacity, rate, from, to, n + (if counted then 1 else 0))
  {
    hide Take, Refill;
    Monotone(rate, 0.0, 0.0);
    TakePays(b, capacity, rate, now);
    Spread(rate, Larger(first.updated, from), b.updated, b'.updated);
    if b'.updated >= Larger(first.updated, from) {
      Monotone(rate, 0.0, b'.updated - Larger(first.updated, from));
    }
  }

  lemma NothingPaid(b: Bucket, capacity: real, rate: real, from: real, to: real)
    requires InRange(b, capacity)
    ensures PaidInWindow(b, b, capacity, rate, from, to, 0)
  {
    hide Refill;
    NoRefill(rate);
    if b.updated >= from {
      assert b.updated - Larger(b.updated, from) == 0.0;
    }
  }

  lemma NoRefill(rate: real)
    ensures Refill(rate, 0.0) == 0.0
  {
  }

  lemma {:induction false} ChargesArePaid(
    buckets: seq<Bucket>, readings: seq<real>, counted: seq<bool>, capacity: real, rate: real, from: real, to: real)
    requires |buckets| == |counted| + 1 && |readings| == |counted| && AllCharged(buckets, readings, counted, capacity, rate)
    requires rate >= 0.0 && capacity >= 0.0 && InRange(buckets[0], capacity) && Within(readings, from, to)
    ensures PaidInWindow(buckets[0], buckets[|counted|], capacity, rate, from, to, Count(counted))
  {
    hide Charged, PaidInWindow;
    if counted == [] {
      NothingPaid(buckets[0], capacity, rate, from, to);
    } else {
      var n := |counted| - 1;
      ChargesArePaid(buckets[..n + 1], readings[..n], counted[..n], capacity, rate, from, to);
      ChargeIsPaid(buckets[0], buckets[n], buckets[n + 1], capacity, rate, readings[n], counted[n], from, to, Count(counted[..n]));
    }
  }

  lemma PaidIsBounded(first: Bucket, b: Bucket, capacity: real, rate: real, from: real, to: real, n: nat)
    requires PaidInWindow(first, b, capacity, rate, from, to, n) && rate >= 0.0 && capacity >= 0.0 && from <= to
    ensures n as real <= capacity + Refill(rate, to - from)
  {
    hide Refill;
    Monotone(rate, b.updated - Larger(first.updated, from), to - from);
    Monotone(rate, 0.0, to - from);
  }

  // In any window of time the calls counted against a bucket are at most its capacity plus the
  // refill of the window, however long the bucket had been idle before.
  lemma ChargesAreBounded(
    buckets: seq<Bucket>, readings: seq<real>, counted: seq<bool>, capacity: real, rate: real, from: real, to: real)
    requires |buckets| == |counted| + 1 && |readings| == |counted| && AllCharged(buckets, readings, counted, capacity, rate)
    requires rate >= 0.0 && capacity >= 0.0 && InRange(buckets[0], capacity) && Within(readings, from, to) && from <= to
    ensures Count(counted) as real <= capacity + Refill(rate, to - from)
  {
    hide AllCharged, Within;
    ChargesArePaid(buckets, readings, counted, capacity, rate, from, to);
    PaidIsBounded(buckets[0], buckets[|counted|], capacity, rate, from, to, Count(counted));
  }

  // Buckets that come and go. One that is created is full; a call may create it and draw on it.

  predicate Renewed(b: Option<Bucket>, b': Option<Bucket>, capacity: real, rate: real, now: real, counted: bool, created: real) {
    match (b, b')
    case (Some(before), Some(after)) => Charged(before, after, capacity, rate, now, counted)
    case (None, Some(after)) => Charged(Bucket(capacity, created), after, capacity, rate, now, counted)
    case (_, None) => !counted
  }

  // How many buckets there have been, one after another.
  function Lives(present: seq<bool>): nat {
    if present == [] then 0
    else
      var n := |present| - 1;
      Lives(present[..n]) + (if present[n] && (n == 0 || !present[n - 1]) then 1 else 0)
  }

  function Present(buckets: seq<Option<Bucket>>): seq<bool> {
    seq(|buckets|, i requires 0 <= i < |buckets| => buckets[i].Some?)
  }

  // What is never taken away exists once at most.
  lemma {:induction false} LivesOnce(present: seq<bool>)
    requires forall i :: 0 <= i < |present| - 1 && present[i] ==> present[i + 1]
    ensures Lives(present) <= 1 && (present != [] && !present[|present| - 1] ==> Lives(present) == 0)
  {
    if present != [] {
      LivesOnce(present[..|present| - 1]);
    }
  }

  predicate AllRenewed(buckets: seq<Option<Bucket>>, readings: seq<real>, counted: seq<bool>, created: seq<real>, capacity: real, rate: real)
    requires |buckets| == |counted| + 1 && |readings| == |counted| && |created| == |counted|
  {
    forall i :: 0 <= i < |counted| ==> Renewed(buckets[i], buckets[i + 1], capacity, rate, readings[i], counted[i], created[i])
  }

  // What a full bucket and a window of time allow.
  function Ceiling(capacity: real, rate: real, elapsed: real): real {
    capacity + Refill(rate, elapsed)
  }

  function Times(n: nat, x: real): real {
    n as real * x
  }

  // The lives that are over have kept below the ceiling each; the present one is paid so far.
  ghost predicate PaidOverLives(b: Option<Bucket>, lives: nat, n: nat, capacity: real, rate: real, from: real, to: real) {
    match b
    case None => n as real <= Times(lives, Ceiling(capacity, rate, to - from))
    case Some(present) =>
      lives > 0
      && exists first, m: nat :: m <= n && (n - m) as real <= Times(lives - 1, Ceiling(capacity, rate, to - from))
           && PaidInWindow(first, present, capacity, rate, from, to, m)
  }

  lemma OneMoreTime(n: nat, x: real)
    ensures Times(n + 1, x) == Times(n, x) + x && Times(0, x) == 0.0
  {
  }

  lemma RenewalIsPaid(b: Option<Bucket>, b': Option<Bucket>, lives: nat, n: nat, capacity: real, rate: real, now: real, counted: bool,
                      created: real, from: real, to: real)
    requires rate >= 0.0 && capacity >= 0.0 && from <= now <= to
    requires PaidOverLives(b, lives, n, capacity, rate, from, to) && Renewed(b, b', capacity, rate, now, counted, created)
    ensures PaidOverLives(b', lives + (if b.None? && b'.Some? then 1 else 0), n + (if counted then 1 else 0), capacity, rate, from, to)
  {
    hide Charged, PaidInWindow, Times, Ceiling;
    if b.Some? {
      var first, m: nat :| m <= n && (n - m) as real <= Times(lives - 1, Ceiling(capacity, rate, to - from))
                           && PaidInWindow(first, b.value, capacity, rate, from, to, m);
      if b'.Some? {
        ChargeIsPaid(first, b.value, b'.value, capacity, rate, now, counted, from, to, m);
      } else {
        LifeIsOver(first, b.value, capacity, rate, from, to, m);
        OneMoreTime(lives - 1, Ceiling(capacity, rate, to - from));
      }
    } else if b'.Some? {
      var full := Bucket(capacity, created);
      NothingPaid(full, capacity, rate, from, to);
      ChargeIsPaid(full, full, b'.value, capacity, rate, now, counted, from, to, 0);
    }
  }

  lemma LifeIsOver(first: Bucket, b: Bucket, capacity: real, rate: real, from: real, to: real, m: nat)
    requires PaidInWindow(first, b, capacity, rate, from, to, m) && rate >= 0.0 && capacity >= 0.0 && from <= to
    ensures m as real <= Ceiling(capacity, rate, to - from)
  {
    hide PaidInWindow, Refill;
    PaidIsBounded(first, b, capacity, rate, from, to, m);
  }

  lemma {:induction false} RenewalsArePaid(buckets: seq<Option<Bucket>>, readings: seq<real>, counted: seq<bool>, created: seq<real>,
                                           capacity: real, rate: real, from: real, to: real)
    requires |buckets| == |counted| + 1 && |readings| == |counted| && |created| == |counted|
    requires AllRenewed(buckets, readings, counted, created, capacity, rate) && Within(readings, from, to)
    requires rate >= 0.0 && capacity >= 0.0 && from <= to && (buckets[0].Some? ==> InRange(buckets[0].value, capacity))
    ensures PaidOverLives(buckets[|counted|], Lives(Present(buckets)), Count(counted), capacity, rate, from, to)
  {
    hide Charged, Renewed, PaidInWindow, PaidOverLives;
    if counted == [] {
      assert Present(buckets)[..0] == [];
      FirstLife(buckets[0], capacity, rate, from, to);
    } else {
      var n := |counted| - 1;
      RenewalsArePaid(buckets[..n + 1], readings[..n], counted[..n], created[..n], capacity, rate, from, to);
      assert Present(buckets[..n + 1]) == Present(buckets)[..n + 1];
      RenewalIsPaid(buckets[n], buckets[n + 1], Lives(Present(buckets[..n + 1])), Count(counted[..n]), capacity, rate, readings[n], counted[n],
                    created[n], from, to);
    }
  }

  lemma FirstLife(b: Option<Bucket>, capacity: real, rate: real, from: real, to: real)
    requires b.Some? ==> InRange(b.value, capacity)
    ensures PaidOverLives(b, if b.Some? then 1 else 0, 0, capacity, rate, from, to)
  {
    hide PaidInWindow, Times;
    OneMoreTime(0, Ceiling(capacity, rate, to - from));
    if b.Some? {
      NothingPaid(b.value, capacity, rate, from, to);
    }
  }

  // Whoever draws on buckets that come and go gets, in any window of time, at most a full bucket
  // and the refill of the window for each bucket there was.
  lemma RenewalsAreBounded(buckets: seq<Option<Bucket>>, readings: seq<real>, counted: seq<bool>, created: seq<real>,
                           capacity: real, rate: real, from: real, to: real)
    requires |buckets| == |counted| + 1 && |readings| == |counted| && |created| == |counted|
    requires AllRenewed(buckets, readings, counted, created, capacity, rate) && Within(readings, from, to)
    requires rate >= 0.0 && capacity >= 0.0 && from <= to && (buckets[0].Some? ==> InRange(buckets[0].value, capacity))
    ensures Count(counted) as real <= Times(Lives(Present(buckets)), Ceiling(capacity, rate, to - from))
  {
    hide AllRenewed, Within, Lives, Times, PaidInWindow;
    RenewalsArePaid(buckets, readings, counted, created, capacity, rate, from, to);
    var b, n := buckets[|counted|], Count(counted);
    if b.Some? {
      var first, m: nat :| m <= n && (n - m) as real <= Times(Lives(Present(buckets)) - 1, Ceiling(capacity, rate, to - from))
                           && PaidInWindow(first, b.value, capacity, rate, from, to, m);
      LifeIsOver(first, b.value, capacity, rate, from, to, m);
      OneMoreTime(Lives(Present(buckets)) - 1, Ceiling(capacity, rate, to - from));
    }
  }

  lemma Monotone(rate: real, x: real, y: real)
    requires rate >= 0.0 && x <= y
    ensures Refill(rate, x) <= Refill(rate, y) && Refill(rate, 0.0) == 0.0
  {
  }
}

module RequestLimits {
  import opened Board
  import opened TokenBuckets

  type SessionId = string
  type TransportId = string

  const MAX_CONNECTIONS := 320
  const MAX_SESSIONS := 256

  datatype Event = RoomCreate | RoomJoin | SessionResume | GameCommand | OtherEvent

  datatype TransportBudget = TransportBudget(all: Bucket, create: Bucket, join: Bucket, resume: Bucket)

  datatype SessionBudget = SessionBudget(all: Bucket, commands: Bucket)

  // Every bucket reads the clock for itself, so a call has its own readings.
  datatype Readings = Readings(
    prune: real, all: real, transport: real, own: real, shared: real, created: real, session: real, commands: real)

  const SECOND := 1000.0

  class RequestLimiter {
    var transports: map<TransportId, TransportBudget>
    var sessions: map<SessionId, SessionBudget>
    var all: Bucket
    var connect: Bucket
    var create: Bucket
    var join: Bucket
    var resume: Bucket
    var pruned: real
    var disposed: bool

    function Value(): Budgets
      reads this
    {
      Budgets(transports, sessions, all, Shared())
    }

    function Shared(): SharedBudget
      reads this
    {
      SharedBudget(create, join, resume)
    }

    // Every bucket holds between nothing and its capacity.
    ghost predicate Valid()
      reads this
    {
      InRange(connect, 128.0) && AllInRange(Value())
    }

    constructor (now: real)
      ensures Valid() && transports == map[] && sessions == map[] && !disposed && pruned == 0.0
      ensures all == Bucket(4096.0, now) && connect == create == Bucket(128.0, now) && join == resume == Bucket(256.0, now)
    {
      transports, sessions := map[], map[];
      all, connect, create := Bucket(4096.0, now), Bucket(128.0, now), Bucket(128.0, now);
      join, resume := Bucket(256.0, now), Bucket(256.0, now);
      pruned, disposed := 0.0, false;
    }

    method AdmitConnection(now: real) returns (admitted: bool)
      requires Valid()
      modifies this`connect
      ensures Valid() && Charged(old(connect), connect, 128.0, 8.0 / SECOND, now, admitted)
      ensures admitted <==> !disposed && HasToken(old(connect), 128.0, 8.0 / SECOND, now)
    {
      if disposed {
        return false;
      }
      TakeCharges(connect, 128.0, 8.0 / SECOND, now);
      var draw := Take(connect, 128.0, 8.0 / SECOND, now);
      connect, admitted := draw.bucket, draw.taken;
    }

    method AttachTransport(id: TransportId, now: real) returns (attached: bool)
      requires Valid()
      modifies this`transports
      ensures Valid()
      ensures attached <==> !disposed && |old(transports)| < MAX_CONNECTIONS && id !in old(transports)
      ensures if attached then Moves(old(Value()), Value(), Attach(id, now)) else Value() == old(Value())
    {
      if disposed || |transports| >= MAX_CONNECTIONS || id in transports {
        return false;
      }
      transports := transports[id := NewTransport(now)];
      attached := true;
    }

    method ForgetTransport(id: TransportId)
      requires Valid()
      modifies this`transports
      ensures Valid() && Moves(old(Value()), Value(), Forget(id))
    {
      transports := transports - {id};
    }

    // Asking for the numbers forgets the sessions the server no longer knows.
    method Resources(known: set<SessionId>, now: real) returns (attached: nat, remembered: nat)
      requires Valid()
      modifies this`sessions, this`pruned
      ensures Valid() && Moves(old(Value()), Value(), Sweep(known))
      ensures attached == |transports| && remembered == |sessions| && sessions.Keys == old(sessions.Keys) * known
    {
      Prune(true, known, now);
      attached, remembered := |transports|, |sessions|;
    }

    method Dispose()
      requires Valid()
      modifies this`transports, this`sessions, this`disposed
      ensures Valid() && disposed && Moves(old(Value()), Value(), Disposal)
    {
      disposed, transports, sessions := true, map[], map[];
    }

    // Only sessions the server no longer knows lose their budget; unless forced, a sweep waits for
    // a second to pass since the last one.
    method Prune(force: bool, known: set<SessionId>, now: real)
      requires Valid()
      modifies this`sessions, this`pruned
      ensures Valid()
      ensures sessions == (if force || now - old(pruned) >= 1000.0 then Known(old(sessions), known) else old(sessions))
      ensures pruned == (if force || now - old(pruned) >= 1000.0 then now else old(pruned))
    {
      if !force && now - pruned < 1000.0 {
        return;
      }
      pruned := now;
      sessions := Known(sessions, known);
    }

    // The server's and the transport's general ceilings.
    method TakeForTransport(id: TransportId, r: Readings) returns (ok: bool)
      requires Valid() && id in transports
      modifies this`transports, this`all
      ensures Valid() && id in transports && transports == old(transports)[id := old(transports)[id].(all := transports[id].all)]
      ensures ok <==> HasToken(old(all), 4096.0, 2000.0 / SECOND, r.all)
                      && HasToken(old(transports)[id].all, 512.0, 200.0 / SECOND, r.transport)
      ensures Charged(old(all), all, 4096.0, 2000.0 / SECOND, r.all, ok)
      ensures Charged(old(transports)[id].all, transports[id].all, 512.0, 200.0 / SECOND, r.transport, ok)
    {
      hide Charged, Take, HasToken;
      NothingCharged();
      TakeCharges(all, 4096.0, 2000.0 / SECOND, r.all);
      var every := Take(all, 4096.0, 2000.0 / SECOND, r.all);
      all := every.bucket;
      if !every.taken {
        return false;
      }
      var budget := transports[id];
      TakeCharges(budget.all, 512.0, 200.0 / SECOND, r.transport);
      var mine := Take(budget.all, 512.0, 200.0 / SECOND, r.transport);
      transports := transports[id := budget.(all := mine.bucket)];
      ok := mine.taken;
    }

    // The event's own ceiling on this transport and on the whole server.
    method TakeForEvent(id: TransportId, event: Event, r: Readings) returns (ok: bool)
      requires Valid() && id in transports
      modifies this`transports, this`create, this`join, this`resume
      ensures Valid() && id in transports && transports == old(transports)[id := transports[id]]
      ensures ok <==> EventAdmits(event, old(transports)[id], old(create), old(join), old(resume), r.own, r.shared)
      ensures transports[id].all == old(transports)[id].all && OwnCharged(old(transports)[id], transports[id], event, r, ok)
      ensures SharedCharged(old(Shared()), Shared(), event, r, ok)
    {
      hide Charged, Take, HasToken;
      NothingCharged();
      var budget := transports[id];
      match event {
        case RoomCreate =>
          TakeCharges(budget.create, 6.0, 0.1 / SECOND, r.own);
          var mine := Take(budget.create, 6.0, 0.1 / SECOND, r.own);
          transports := transports[id := budget.(create := mine.bucket)];
          if !mine.taken {
            return false;
          }
          TakeCharges(create, 128.0, 2.0 / SECOND, r.shared);
          var ours := Take(create, 128.0, 2.0 / SECOND, r.shared);
          create, ok := ours.bucket, ours.taken;
        case RoomJoin =>
          TakeCharges(budget.join, 32.0, 32.0 / 60.0 / SECOND, r.own);
          var mine := Take(budget.join, 32.0, 32.0 / 60.0 / SECOND, r.own);
          transports := transports[id := budget.(join := mine.bucket)];
          if !mine.taken {
            return false;
          }
          TakeCharges(join, 256.0, 4.0 / SECOND, r.shared);
          var ours := Take(join, 256.0, 4.0 / SECOND, r.shared);
          join, ok := ours.bucket, ours.taken;
        case SessionResume =>
          TakeCharges(budget.resume, 32.0, 32.0 / 60.0 / SECOND, r.own);
          var mine := Take(budget.resume, 32.0, 32.0 / 60.0 / SECOND, r.own);
          transports := transports[id := budget.(resume := mine.bucket)];
          if !mine.taken {
            return false;
          }
          TakeCharges(resume, 256.0, 4.0 / SECOND, r.shared);
          var ours := Take(resume, 256.0, 4.0 / SECOND, r.shared);
          resume, ok := ours.bucket, ours.taken;
        case _ => ok := true;
      }
    }

    // The draw from a session's budget that exists.
    method TakeFromBudget(session: SessionId, event: Event, r: Readings) returns (ok: bool)
      requires Valid() && session in sessions
      modifies this`sessions
      ensures Valid() && session in sessions && sessions == old(sessions)[session := sessions[session]]
      ensures ok <==> BudgetAdmits(old(sessions)[session], event, r)
      ensures SessionCharged(old(sessions)[session], sessions[session], event, r, ok)
    {
      hide Charged, Take, HasToken, TransportInRange;
      NothingCharged();
      var budget := sessions[session];
      TakeCharges(budget.all, 512.0, 200.0 / SECOND, r.session);
      var every := Take(budget.all, 512.0, 200.0 / SECOND, r.session);
      sessions := sessions[session := budget.(all := every.bucket)];
      if !every.taken {
        return false;
      }
      if event.GameCommand? {
        TakeCharges(budget.commands, 256.0, 100.0 / SECOND, r.commands);
        var command := Take(budget.commands, 256.0, 100.0 / SECOND, r.commands);
        sessions := sessions[session := SessionBudget(every.bucket, command.bucket)];
        return command.taken;
      }
      ok := true;
    }

    // The session's ceilings; a known session gets its budget, a full one, at first use.
    method TakeForSession(session: SessionId, known: set<SessionId>, event: Event, r: Readings) returns (ok: bool)
      requires Valid() && session in known
      modifies this`sessions, this`pruned
      ensures Valid() && (ok <==> SessionAdmits(old(sessions), session, known, event, r))
      ensures forall id {:trigger SessionServed(old(sessions), sessions, Some(session), known, event, r, ok, id)} ::
                SessionServed(old(sessions), sessions, Some(session), known, event, r, ok, id)
    {
      hide Charged, Take, HasToken, TransportInRange, SessionCharged, SessionServed;
      if session !in sessions {
        if |sessions| >= MAX_SESSIONS {
          Prune(true, known, r.created);
        }
        SweptServed(old(sessions), sessions, Some(session), known, event, r);
        if |sessions| >= MAX_SESSIONS {
          return false;
        }
        sessions := sessions[session := NewSession(r.created)];
        FreshHasToken(512.0, 200.0 / SECOND, r.created, r.session);
        FreshHasToken(256.0, 100.0 / SECOND, r.created, r.commands);
      }
      ghost var given := sessions;
      ok := TakeFromBudget(session, event, r);
      ChargedServed(old(sessions), given, sessions, session, known, event, r, ok);
    }

    // One request. If it is allowed, the server, the transport and, if the server knows it, the
    // session have each paid a token for it; if not, nobody has gained any.
    method Allow(id: TransportId, session: Option<SessionId>, event: Event, known: set<SessionId>, r: Readings) returns (allowed: bool)
      requires Valid()
      modifies this`transports, this`sessions, this`all, this`create, this`join, this`resume, this`pruned
      ensures Valid() && transports.Keys == old(transports.Keys)
      ensures allowed <==>
                && !disposed && id in transports
                && HasToken(old(all), 4096.0, 2000.0 / SECOND, r.all)
                && HasToken(old(transports)[id].all, 512.0, 200.0 / SECOND, r.transport)
                && EventAdmits(event, old(transports)[id], old(create), old(join), old(resume), r.own, r.shared)
                && (session.Some? && session.value in known ==>
                      SessionAdmits(if r.prune - old(pruned) < 1000.0 then old(sessions) else Known(old(sessions), known),
                                    session.value, known, event, r))
      ensures Served(old(Value()), Value(), Call(id, session, event, known, r), allowed)
    {
      hide Charged, InRange, HasToken, EventAdmits, SessionAdmits, TransportInRange, SessionInRange, RequestLimiter.Valid, SharedCharged,
        OwnCharged, SessionCharged, Served;
      ghost var call := Call(id, session, event, known, r);
      NothingServed(Value(), event, r);
      if disposed {
        IsServed(old(Value()), Value(), call, false);
        return false;
      }
      Prune(false, known, r.prune);
      SweptServed(old(sessions), sessions, session, known, event, r);
      if id !in transports {
        IsServed(old(Value()), Value(), call, false);
        return false;
      }
      allowed := TakeForTransport(id, r);
      Uncounted(old(all), all, 4096.0, 2000.0 / SECOND, r.all, allowed);
      Uncounted(old(transports)[id].all, transports[id].all, 512.0, 200.0 / SECOND, r.transport, allowed);
      OwnIgnoresAll(old(transports)[id], transports[id], event, r);
      if !allowed {
        IsServed(old(Value()), Value(), call, false);
        return;
      }
      EventIgnoresAll(event, old(transports)[id], transports[id], create, join, resume, r.own, r.shared);
      ghost var before := transports[id];
      allowed := TakeForEvent(id, event, r);
      SharedUncounted(old(Shared()), Shared(), event, r, allowed);
      OwnSince(old(transports)[id], before, transports[id], event, r, allowed);
      if !allowed {
        IsServed(old(Value()), Value(), call, false);
        return;
      }
      ghost var swept := sessions;
      if session.Some? && session.value in known {
        allowed := TakeForSession(session.value, known, event, r);
        ServedSince(old(sessions), swept, sessions, call, allowed);
      }
      IsServed(old(Value()), Value(), call, allowed);
    }
  }

  // The sessions the server still knows.
  function Known(sessions: map<SessionId, SessionBudget>, known: set<SessionId>): map<SessionId, SessionBudget> {
    map id | id in sessions && id in known :: sessions[id]
  }

  // A Room request or a resumption needs a token of the transport and one of the server.
  predicate EventAdmits(event: Event, budget: TransportBudget, create: Bucket, join: Bucket, resume: Bucket, own: real, shared: real) {
    match event
    case RoomCreate => HasToken(budget.create, 6.0, 0.1 / SECOND, own) && HasToken(create, 128.0, 2.0 / SECOND, shared)
    case RoomJoin => HasToken(budget.join, 32.0, 32.0 / 60.0 / SECOND, own) && HasToken(join, 256.0, 4.0 / SECOND, shared)
    case SessionResume => HasToken(budget.resume, 32.0, 32.0 / 60.0 / SECOND, own) && HasToken(resume, 256.0, 4.0 / SECOND, shared)
    case _ => true
  }

  predicate BudgetAdmits(budget: SessionBudget, event: Event, r: Readings) {
    && HasToken(budget.all, 512.0, 200.0 / SECOND, r.session)
    && (event.GameCommand? ==> HasToken(budget.commands, 256.0, 100.0 / SECOND, r.commands))
  }

  // A session that has a budget needs tokens in it; another one needs room for a budget.
  predicate SessionAdmits(sessions: map<SessionId, SessionBudget>, session: SessionId, known: set<SessionId>, event: Event, r: Readings) {
    if session in sessions then BudgetAdmits(sessions[session], event, r)
    else |sessions| < MAX_SESSIONS || |Known(sessions, known)| < MAX_SESSIONS
  }

  lemma EventIgnoresAll(event: Event, budget: TransportBudget, other: TransportBudget, create: Bucket, join: Bucket, resume: Bucket,
                        own: real, shared: real)
    requires other == budget.(all := other.all)
    ensures EventAdmits(event, budget, create, join, resume, own, shared) == EventAdmits(event, other, create, join, resume, own, shared)
  {
  }

  lemma FreshHasToken(capacity: real, rate: real, created: real, now: real)
    requires capacity >= 1.0 && rate >= 0.0
    ensures HasToken(Bucket(capacity, created), capacity, rate, now)
  {
  }

  function NewTransport(now: real): TransportBudget {
    TransportBudget(Bucket(512.0, now), Bucket(6.0, now), Bucket(32.0, now), Bucket(32.0, now))
  }

  function NewSession(now: real): SessionBudget {
    SessionBudget(Bucket(512.0, now), Bucket(256.0, now))
  }

  predicate TransportInRange(budget: TransportBudget) {
    InRange(budget.all, 512.0) && InRange(budget.create, 6.0) && InRange(budget.join, 32.0) && InRange(budget.resume, 32.0)
  }

  predicate SessionInRange(budget: SessionBudget) {
    InRange(budget.all, 512.0) && InRange(budget.commands, 256.0)
  }

  // A call that touches nothing charges nothing.
  lemma NothingCharged()
    ensures forall b: Bucket, capacity: real, rate: real, now: real {:trigger Charged(b, b, capacity, rate, now, false)} ::
              Charged(b, b, capacity, rate, now, false)
  {
  }

  lemma Uncounted(b: Bucket, b': Bucket, capacity: real, rate: real, now: real, counted: bool)
    requires Charged(b, b', capacity, rate, now, counted)
    ensures Charged(b, b', capacity, rate, now, false)
  {
  }

  // What one call does to the budgets.

  datatype Budgets = Budgets(
    transports: map<TransportId, TransportBudget>, sessions: map<SessionId, SessionBudget>,
    all: Bucket, shared: SharedBudget)

  ghost predicate AllInRange(v: Budgets) {
    && InRange(v.all, 4096.0)
    && InRange(v.shared.create, 128.0) && InRange(v.shared.join, 256.0) && InRange(v.shared.resume, 256.0)
    && (forall id :: id in v.transports ==> TransportInRange(v.transports[id]))
    && (forall id :: id in v.sessions ==> SessionInRange(v.sessions[id]))
  }

  datatype Call = Call(id: TransportId, session: Option<SessionId>, event: Event, known: set<SessionId>, r: Readings)

  datatype SharedBudget = SharedBudget(create: Bucket, join: Bucket, resume: Bucket)

  predicate SharedCharged(b: SharedBudget, b': SharedBudget, event: Event, r: Readings, counted: bool) {
    && Charged(b.create, b'.create, 128.0, 2.0 / SECOND, r.shared, counted && event.RoomCreate?)
    && Charged(b.join, b'.join, 256.0, 4.0 / SECOND, r.shared, counted && event.RoomJoin?)
    && Charged(b.resume, b'.resume, 256.0, 4.0 / SECOND, r.shared, counted && event.SessionResume?)
  }

  predicate OwnCharged(b: TransportBudget, b': TransportBudget, event: Event, r: Readings, counted: bool) {
    && Charged(b.create, b'.create, 6.0, 0.1 / SECOND, r.own, counted && event.RoomCreate?)
    && Charged(b.join, b'.join, 32.0, 32.0 / 60.0 / SECOND, r.own, counted && event.RoomJoin?)
    && Charged(b.resume, b'.resume, 32.0, 32.0 / 60.0 / SECOND, r.own, counted && event.SessionResume?)
  }

  predicate TransportCharged(b: TransportBudget, b': TransportBudget, event: Event, r: Readings, counted: bool) {
    Charged(b.all, b'.all, 512.0, 200.0 / SECOND, r.transport, counted) && OwnCharged(b, b', event, r, counted)
  }

  predicate SessionCharged(b: SessionBudget, b': SessionBudget, event: Event, r: Readings, counted: bool) {
    && Charged(b.all, b'.all, 512.0, 200.0 / SECOND, r.session, counted)
    && Charged(b.commands, b'.commands, 256.0, 100.0 / SECOND, r.commands, counted && event.GameCommand?)
  }

  // What a call does to the budget of one session: it is charged at most once, and counted
  // against if the call is allowed and the session known; it goes only if the session is not
  // known; it comes, full, with the first call of a known session.
  predicate SessionServed(v: map<SessionId, SessionBudget>, v': map<SessionId, SessionBudget>, session: Option<SessionId>,
                          known: set<SessionId>, event: Event, r: Readings, allowed: bool, id: SessionId) {
    var counted := allowed && session == Some(id) && id in known;
    if id in v' then
      if id in v then SessionCharged(v[id], v'[id], event, r, counted)
      else session == Some(id) && id in known && SessionCharged(NewSession(r.created), v'[id], event, r, counted)
    else !counted && (id in v ==> id !in known)
  }

  // Every budget is charged at most once, and an allowed call, which must come over an attached
  // transport, is counted against all of the server's, the transport's, the session's and the
  // event's.
  ghost predicate Served(v: Budgets, v': Budgets, call: Call, allowed: bool) {
    && Charged(v.all, v'.all, 4096.0, 2000.0 / SECOND, call.r.all, allowed)
    && SharedCharged(v.shared, v'.shared, call.event, call.r, allowed)
    && v'.transports.Keys == v.transports.Keys && (allowed ==> call.id in v.transports)
    && (forall id :: id in v.transports ==>
          TransportCharged(v.transports[id], v'.transports[id], call.event, call.r, allowed && id == call.id))
    && (forall id {:trigger SessionServed(v.sessions, v'.sessions, call.session, call.known, call.event, call.r, allowed, id)} ::
          SessionServed(v.sessions, v'.sessions, call.session, call.known, call.event, call.r, allowed, id))
  }

  lemma NothingServed(v: Budgets, event: Event, r: Readings)
    ensures Charged(v.all, v.all, 4096.0, 2000.0 / SECOND, r.all, false)
    ensures SharedCharged(v.shared, v.shared, event, r, false)
    ensures forall id :: id in v.transports ==> TransportCharged(v.transports[id], v.transports[id], event, r, false)
    ensures forall id :: id in v.sessions ==> SessionCharged(v.sessions[id], v.sessions[id], event, r, false)
  {
    hide Take;
  }

  lemma IsServed(v: Budgets, v': Budgets, call: Call, allowed: bool)
    requires Charged(v.all, v'.all, 4096.0, 2000.0 / SECOND, call.r.all, allowed) && SharedCharged(v.shared, v'.shared, call.event, call.r, allowed)
    requires if call.id in v.transports
             then call.id in v'.transports && v'.transports == v.transports[call.id := v'.transports[call.id]]
                  && TransportCharged(v.transports[call.id], v'.transports[call.id], call.event, call.r, allowed)
             else v'.transports == v.transports && !allowed
    requires forall id {:trigger SessionServed(v.sessions, v'.sessions, call.session, call.known, call.event, call.r, allowed, id)} ::
               SessionServed(v.sessions, v'.sessions, call.session, call.known, call.event, call.r, allowed, id)
    ensures Served(v, v', call, allowed)
  {
    hide SharedCharged, SessionServed, OwnCharged;
    NothingServed(v, call.event, call.r);
    forall id | id in v.transports
      ensures TransportCharged(v.transports[id], v'.transports[id], call.event, call.r, allowed && id == call.id)
    {
    }
  }

  // A sweep, and any call that is refused or not the session's, counts nothing against it.
  lemma SweptServed(v: map<SessionId, SessionBudget>, v': map<SessionId, SessionBudget>, session: Option<SessionId>,
                    known: set<SessionId>, event: Event, r: Readings)
    requires v' == v || v' == Known(v, known)
    ensures forall id, allowed {:trigger SessionServed(v, v', session, known, event, r, allowed, id)} ::
              (allowed ==> session.None? || session.value !in known) ==> SessionServed(v, v', session, known, event, r, allowed, id)
  {
    hide Take;
  }

  // A draw on a session's budget, after a sweep or not, found there or given at once.
  lemma ChargedServed(v: map<SessionId, SessionBudget>, given: map<SessionId, SessionBudget>, v': map<SessionId, SessionBudget>,
                      session: SessionId, known: set<SessionId>, event: Event, r: Readings, ok: bool)
    requires session in known && session in given && session in v'
    requires given == v || (session !in v && (given == v[session := NewSession(r.created)]
                                               || given == Known(v, known)[session := NewSession(r.created)]))
    requires v' == given[session := v'[session]] && SessionCharged(given[session], v'[session], event, r, ok)
    ensures forall id {:trigger SessionServed(v, v', Some(session), known, event, r, ok, id)} ::
              SessionServed(v, v', Some(session), known, event, r, ok, id)
  {
    hide SessionCharged;
    forall id ensures SessionServed(v, v', Some(session), known, event, r, ok, id) {
      if id in v {
        BudgetUncharged(v[id], event, r);
      }
    }
  }

  lemma BudgetUncharged(b: SessionBudget, event: Event, r: Readings)
    ensures SessionCharged(b, b, event, r, false)
  {
    hide Take;
  }

  lemma ServedSince(v: map<SessionId, SessionBudget>, swept: map<SessionId, SessionBudget>, v': map<SessionId, SessionBudget>,
                    call: Call, allowed: bool)
    requires swept == v || swept == Known(v, call.known)
    requires forall id {:trigger SessionServed(swept, v', call.session, call.known, call.event, call.r, allowed, id)} ::
               SessionServed(swept, v', call.session, call.known, call.event, call.r, allowed, id)
    ensures forall id {:trigger SessionServed(v, v', call.session, call.known, call.event, call.r, allowed, id)} ::
              SessionServed(v, v', call.session, call.known, call.event, call.r, allowed, id)
  {
    hide SessionCharged;
    forall id ensures SessionServed(v, v', call.session, call.known, call.event, call.r, allowed, id) {
      assert SessionServed(swept, v', call.session, call.known, call.event, call.r, allowed, id);
    }
  }

  lemma OwnIgnoresAll(b: TransportBudget, b': TransportBudget, event: Event, r: Readings)
    requires b' == b.(all := b'.all)
    ensures OwnCharged(b, b', event, r, false)
  {
    hide Take;
  }

  lemma OwnSince(b: TransportBudget, between: TransportBudget, b': TransportBudget, event: Event, r: Readings, counted: bool)
    requires between == b.(all := between.all) && OwnCharged(between, b', event, r, counted)
    ensures OwnCharged(b, b', event, r, counted) && OwnCharged(b, b', event, r, false)
  {
    hide Take;
  }

  lemma SharedUncounted(b: SharedBudget, b': SharedBudget, event: Event, r: Readings, counted: bool)
    requires SharedCharged(b, b', event, r, counted)
    ensures SharedCharged(b, b', event, r, false)
  {
    hide Take;
  }

  // Runs: requests, transports that come and go, sessions that are forgotten, and the end.

  datatype Move =
    | Request(call: Call, allowed: bool)
    | Attach(id: TransportId, now: real)
    | Forget(id: TransportId)
    | Sweep(known: set<SessionId>)
    | Disposal

  ghost predicate Moves(v: Budgets, v': Budgets, move: Move) {
    match move
    case Request(call, allowed) => Served(v, v', call, allowed)
    case Attach(id, now) => id !in v.transports && v' == v.(transports := v.transports[id := NewTransport(now)])
    case Forget(id) => v' == v.(transports := v.transports - {id})
    case Sweep(known) => v' == v.(sessions := Known(v.sessions, known))
    case Disposal => v' == v.(transports := map[], sessions := map[])
  }

  predicate Timely(r: Readings, from: real, to: real) {
    && from <= r.all <= to && from <= r.transport <= to && from <= r.own <= to && from <= r.shared <= to
    && from <= r.session <= to && from <= r.commands <= to
  }

  // A run within a window of time.
  ghost predicate IsRun(states: seq<Budgets>, moves: seq<Move>, from: real, to: real) {
    && |states| == |moves| + 1 && AllInRange(states[0]) && from <= to
    && (forall i :: 0 <= i < |moves| ==> Moves(states[i], states[i + 1], moves[i]))
    && (forall i :: 0 <= i < |moves| && moves[i].Request? ==> Timely(moves[i].call.r, from, to))
  }

  // The calls of one transport, of one session while the server knows it, of one kind.
  datatype Kind = AnyKind | Creating | Joining | Resuming | Commanding

  datatype Filter = Filter(transport: Option<TransportId>, session: Option<SessionId>, kind: Kind)

  predicate IsKind(event: Event, kind: Kind) {
    match kind
    case AnyKind => true
    case Creating => event.RoomCreate?
    case Joining => event.RoomJoin?
    case Resuming => event.SessionResume?
    case Commanding => event.GameCommand?
  }

  predicate Matches(call: Call, f: Filter) {
    && (f.transport.Some? ==> call.id == f.transport.value)
    && (f.session.Some? ==> call.session == f.session && f.session.value in call.known)
    && IsKind(call.event, f.kind)
  }

  function Counted(moves: seq<Move>, f: Filter): seq<bool> {
    seq(|moves|, i requires 0 <= i < |moves| => moves[i].Request? && moves[i].allowed && Matches(moves[i].call, f))
  }

  // How many of the allowed requests the filter lets through.
  function Allowed(moves: seq<Move>, f: Filter): nat {
    Count(Counted(moves, f))
  }

  // At most a full bucket and the refill of the window, for each of so many buckets.
  predicate Fits(moves: seq<Move>, f: Filter, lives: nat, capacity: real, rate: real, elapsed: real) {
    Allowed(moves, f) as real <= Times(lives, Ceiling(capacity, rate, elapsed))
  }

  predicate Draws(b: Bucket, b': Bucket, reading: real, move: Move, f: Filter, capacity: real, rate: real, from: real, to: real) {
    if move.Request? then
      && Charged(b, b', capacity, rate, reading, move.allowed && Matches(move.call, f))
      && from <= reading <= to
    else b' == b
  }

  // One bucket of the server, with the readings its draws use.
  lemma CeilingHolds(buckets: seq<Bucket>, moves: seq<Move>, readings: seq<real>, f: Filter, capacity: real, rate: real, from: real, to: real)
    requires |buckets| == |moves| + 1 && |readings| == |moves| && InRange(buckets[0], capacity)
    requires rate >= 0.0 && capacity >= 0.0 && from <= to
    requires forall i :: 0 <= i < |moves| ==> Draws(buckets[i], buckets[i + 1], readings[i], moves[i], f, capacity, rate, from, to)
    ensures Fits(moves, f, 1, capacity, rate, to - from)
  {
    hide Take, Refill, Matches;
    var within := seq(|moves|, i requires 0 <= i < |moves| => if moves[i].Request? then readings[i] else from);
    var counted := Counted(moves, f);
    forall i | 0 <= i < |moves|
      ensures from <= within[i] <= to && Charged(buckets[i], buckets[i + 1], capacity, rate, within[i], counted[i])
    {
      assert Draws(buckets[i], buckets[i + 1], readings[i], moves[i], f, capacity, rate, from, to);
    }
    ChargesAreBounded(buckets, within, counted, capacity, rate, from, to);
  }

  predicate Renews(b: Option<Bucket>, b': Option<Bucket>, reading: real, created: real, move: Move, f: Filter,
                   capacity: real, rate: real, from: real, to: real) {
    if move.Request? then
      && Renewed(b, b', capacity, rate, reading, move.allowed && Matches(move.call, f), created)
      && from <= reading <= to
    else Renewed(b, b', capacity, rate, from, false, created)
  }

  // A bucket that comes and goes.
  lemma LivesHold(buckets: seq<Option<Bucket>>, moves: seq<Move>, readings: seq<real>, f: Filter,
                  capacity: real, rate: real, from: real, to: real)
    requires |buckets| == |moves| + 1 && |readings| == |moves| && (buckets[0].Some? ==> InRange(buckets[0].value, capacity))
    requires rate >= 0.0 && capacity >= 0.0 && from <= to
    requires forall i :: 0 <= i < |moves| ==>
               Renews(buckets[i], buckets[i + 1], readings[i], CreatedBy(moves[i]), moves[i], f, capacity, rate, from, to)
    ensures Fits(moves, f, Lives(Present(buckets)), capacity, rate, to - from)
  {
    hide Renewed, Matches, Lives, Times, Ceiling;
    var within := seq(|moves|, i requires 0 <= i < |moves| => if moves[i].Request? then readings[i] else from);
    var created := seq(|moves|, i requires 0 <= i < |moves| => CreatedBy(moves[i]));
    var counted := Counted(moves, f);
    forall i | 0 <= i < |moves|
      ensures from <= within[i] <= to && Renewed(buckets[i], buckets[i + 1], capacity, rate, within[i], counted[i], created[i])
    {
      assert Renews(buckets[i], buckets[i + 1], readings[i], CreatedBy(moves[i]), moves[i], f, capacity, rate, from, to);
    }
    RenewalsAreBounded(buckets, within, counted, created, capacity, rate, from, to);
  }

  // When a budget that a move brings was created.
  function CreatedBy(move: Move): real {
    match move
    case Request(call, _) => call.r.created
    case Attach(_, now) => now
    case _ => 0.0
  }

  // The readings of a run, bucket by bucket.
  function ReadingsOf(moves: seq<Move>, of: Clockhand): seq<real> {
    seq(|moves|, i requires 0 <= i < |moves| => if moves[i].Request? then ReadingOf(moves[i].call.r, of) else 0.0)
  }

  datatype Clockhand = All | Transport | Own | Joint | Session | Commands

  function ReadingOf(r: Readings, of: Clockhand): real {
    match of
    case All => r.all
    case Transport => r.transport
    case Own => r.own
    case Joint => r.shared
    case Session => r.session
    case Commands => r.commands
  }

  const SERVER := Filter(None, None, AnyKind)

  predicate ServerFits(moves: seq<Move>, elapsed: real) {
    && Fits(moves, SERVER, 1, 4096.0, 2000.0 / SECOND, elapsed)
    && Fits(moves, SERVER.(kind := Creating), 1, 128.0, 2.0 / SECOND, elapsed)
    && Fits(moves, SERVER.(kind := Joining), 1, 256.0, 4.0 / SECOND, elapsed)
    && Fits(moves, SERVER.(kind := Resuming), 1, 256.0, 4.0 / SECOND, elapsed)
  }

  predicate TransportFits(moves: seq<Move>, id: TransportId, lives: nat, elapsed: real) {
    var f := Filter(Some(id), None, AnyKind);
    && Fits(moves, f, lives, 512.0, 200.0 / SECOND, elapsed)
    && Fits(moves, f.(kind := Creating), lives, 6.0, 0.1 / SECOND, elapsed)
    && Fits(moves, f.(kind := Joining), lives, 32.0, 32.0 / 60.0 / SECOND, elapsed)
    && Fits(moves, f.(kind := Resuming), lives, 32.0, 32.0 / 60.0 / SECOND, elapsed)
  }

  predicate SessionFits(moves: seq<Move>, id: SessionId, lives: nat, elapsed: real) {
    var f := Filter(None, Some(id), AnyKind);
    && Fits(moves, f, lives, 512.0, 200.0 / SECOND, elapsed)
    && Fits(moves, f.(kind := Commanding), lives, 256.0, 100.0 / SECOND, elapsed)
  }

  lemma ServerCeilings(states: seq<Budgets>, moves: seq<Move>, from: real, to: real)
    requires IsRun(states, moves, from, to)
    ensures ServerFits(moves, to - from)
  {
    hide Charged, TransportCharged, SessionServed, Fits;
    var n := |states|;
    assert forall i :: 0 <= i < |moves| ==> Moves(states[i], states[i + 1], moves[i]);
    CeilingHolds(seq(n, i requires 0 <= i < n => states[i].all), moves, ReadingsOf(moves, All), SERVER, 4096.0, 2000.0 / SECOND, from, to);
    CeilingHolds(seq(n, i requires 0 <= i < n => states[i].shared.create), moves, ReadingsOf(moves, Joint), SERVER.(kind := Creating),
                 128.0, 2.0 / SECOND, from, to);
    CeilingHolds(seq(n, i requires 0 <= i < n => states[i].shared.join), moves, ReadingsOf(moves, Joint), SERVER.(kind := Joining),
                 256.0, 4.0 / SECOND, from, to);
    CeilingHolds(seq(n, i requires 0 <= i < n => states[i].shared.resume), moves, ReadingsOf(moves, Joint), SERVER.(kind := Resuming),
                 256.0, 4.0 / SECOND, from, to);
  }

  // How often a transport has been attached, or a session given a budget, counting those that
  // were there at the start.

  function Attachments(states: seq<Budgets>, id: TransportId): nat {
    Lives(seq(|states|, i requires 0 <= i < |states| => id in states[i].transports))
  }

  function Allotments(states: seq<Budgets>, id: SessionId): nat {
    Lives(seq(|states|, i requires 0 <= i < |states| => id in states[i].sessions))
  }

  // A transport's bucket for a kind of call, and what it holds and gains.
  function TransportBucket(v: Budgets, id: TransportId, kind: Kind): Option<Bucket> {
    if id !in v.transports then None
    else
      match kind
      case Creating => Some(v.transports[id].create)
      case Joining => Some(v.transports[id].join)
      case Resuming => Some(v.transports[id].resume)
      case _ => Some(v.transports[id].all)
  }

  function TransportCapacity(kind: Kind): real {
    match kind
    case Creating => 6.0
    case Joining => 32.0
    case Resuming => 32.0
    case _ => 512.0
  }

  function TransportRate(kind: Kind): real {
    match kind
    case Creating => 0.1 / SECOND
    case Joining => 32.0 / 60.0 / SECOND
    case Resuming => 32.0 / 60.0 / SECOND
    case _ => 200.0 / SECOND
  }

  lemma TransportRenews(v: Budgets, v': Budgets, move: Move, reading: real, id: TransportId, kind: Kind, from: real, to: real)
    requires Moves(v, v', move) && (move.Request? ==> Timely(move.call.r, from, to)) && !kind.Commanding?
    requires move.Request? ==> reading == ReadingOf(move.call.r, if kind.AnyKind? then Transport else Own)
    ensures Renews(TransportBucket(v, id, kind), TransportBucket(v', id, kind), reading, CreatedBy(move), move, Filter(Some(id), None, kind),
                   TransportCapacity(kind), TransportRate(kind), from, to)
  {
    hide Charged, SharedCharged, SessionServed;
    NothingCharged();
  }

  lemma TransportCeiling(states: seq<Budgets>, moves: seq<Move>, id: TransportId, kind: Kind, from: real, to: real)
    requires IsRun(states, moves, from, to) && !kind.Commanding?
    ensures Fits(moves, Filter(Some(id), None, kind), Attachments(states, id), TransportCapacity(kind), TransportRate(kind), to - from)
  {
    hide Renews, Fits, Moves, Timely;
    var n, readings := |states|, ReadingsOf(moves, if kind.AnyKind? then Transport else Own);
    var buckets := seq(n, i requires 0 <= i < n => TransportBucket(states[i], id, kind));
    assert Present(buckets) == seq(n, i requires 0 <= i < n => id in states[i].transports);
    forall i | 0 <= i < |moves|
      ensures Renews(buckets[i], buckets[i + 1], readings[i], CreatedBy(moves[i]), moves[i], Filter(Some(id), None, kind),
                     TransportCapacity(kind), TransportRate(kind), from, to)
    {
      assert Moves(states[i], states[i + 1], moves[i]);
      TransportRenews(states[i], states[i + 1], moves[i], readings[i], id, kind, from, to);
    }
    LivesHold(buckets, moves, readings, Filter(Some(id), None, kind), TransportCapacity(kind), TransportRate(kind), from, to);
  }

  // The same for sessions.
  function SessionBucket(v: Budgets, id: SessionId, kind: Kind): Option<Bucket> {
    if id !in v.sessions then None else Some(if kind.Commanding? then v.sessions[id].commands else v.sessions[id].all)
  }

  lemma SessionRenews(v: Budgets, v': Budgets, move: Move, reading: real, id: SessionId, kind: Kind, from: real, to: real)
    requires Moves(v, v', move) && (move.Request? ==> Timely(move.call.r, from, to)) && (kind.AnyKind? || kind.Commanding?)
    requires move.Request? ==> reading == ReadingOf(move.call.r, if kind.AnyKind? then Session else Commands)
    ensures Renews(SessionBucket(v, id, kind), SessionBucket(v', id, kind), reading, CreatedBy(move), move, Filter(None, Some(id), kind),
                   if kind.AnyKind? then 512.0 else 256.0, if kind.AnyKind? then 200.0 / SECOND else 100.0 / SECOND, from, to)
  {
    hide Charged, SharedCharged, TransportCharged;
    NothingCharged();
    if move.Request? {
      var call := move.call;
      assert SessionServed(v.sessions, v'.sessions, call.session, call.known, call.event, call.r, move.allowed, id);
    }
  }

  lemma SessionCeiling(states: seq<Budgets>, moves: seq<Move>, id: SessionId, kind: Kind, from: real, to: real)
    requires IsRun(states, moves, from, to) && (kind.AnyKind? || kind.Commanding?)
    ensures Fits(moves, Filter(None, Some(id), kind), Allotments(states, id),
                 if kind.AnyKind? then 512.0 else 256.0, if kind.AnyKind? then 200.0 / SECOND else 100.0 / SECOND, to - from)
  {
    hide Renews, Fits, Moves, Timely;
    var n, readings := |states|, ReadingsOf(moves, if kind.AnyKind? then Session else Commands);
    var capacity, rate := if kind.AnyKind? then 512.0 else 256.0, if kind.AnyKind? then 200.0 / SECOND else 100.0 / SECOND;
    var buckets := seq(n, i requires 0 <= i < n => SessionBucket(states[i], id, kind));
    assert Present(buckets) == seq(n, i requires 0 <= i < n => id in states[i].sessions);
    forall i | 0 <= i < |moves|
      ensures Renews(buckets[i], buckets[i + 1], readings[i], CreatedBy(moves[i]), moves[i], Filter(None, Some(id), kind), capacity, rate, from, to)
    {
      assert Moves(states[i], states[i + 1], moves[i]);
      SessionRenews(states[i], states[i + 1], moves[i], readings[i], id, kind, from, to);
    }
    LivesHold(buckets, moves, readings, Filter(None, Some(id), kind), capacity, rate, from, to);
  }

  // Who has one budget at most: a transport that is not forgotten, and a session the server
  // knows throughout.

  predicate StaysAttached(moves: seq<Move>, id: TransportId) {
    forall i :: 0 <= i < |moves| ==> moves[i] != Forget(id) && moves[i] != Disposal
  }

  predicate IsKnown(move: Move, id: SessionId) {
    match move
    case Request(call, _) => id in call.known
    case Sweep(known) => id in known
    case Disposal => false
    case _ => true
  }

  predicate StaysKnown(moves: seq<Move>, id: SessionId) {
    forall i :: 0 <= i < |moves| ==> IsKnown(moves[i], id)
  }

  lemma AttachedOnce(states: seq<Budgets>, moves: seq<Move>, id: TransportId, from: real, to: real)
    requires IsRun(states, moves, from, to) && StaysAttached(moves, id)
    ensures Attachments(states, id) <= 1
  {
    hide Served, Timely, AllInRange, Lives;
    forall i | 0 <= i < |moves| && id in states[i].transports ensures id in states[i + 1].transports {
      assert Moves(states[i], states[i + 1], moves[i]);
      AttachmentLasts(states[i], states[i + 1], moves[i], id);
    }
    LivesOnce(seq(|states|, i requires 0 <= i < |states| => id in states[i].transports));
  }

  lemma AttachmentLasts(v: Budgets, v': Budgets, move: Move, id: TransportId)
    requires Moves(v, v', move) && move != Forget(id) && move != Disposal && id in v.transports
    ensures id in v'.transports
  {
    hide Charged, SharedCharged, TransportCharged, SessionServed;
  }

  lemma AllottedOnce(states: seq<Budgets>, moves: seq<Move>, id: SessionId, from: real, to: real)
    requires IsRun(states, moves, from, to) && StaysKnown(moves, id)
    ensures Allotments(states, id) <= 1
  {
    hide Served, Timely, AllInRange, Lives;
    forall i | 0 <= i < |moves| && id in states[i].sessions ensures id in states[i + 1].sessions {
      assert Moves(states[i], states[i + 1], moves[i]) && IsKnown(moves[i], id);
      AllotmentLasts(states[i], states[i + 1], moves[i], id);
    }
    LivesOnce(seq(|states|, i requires 0 <= i < |states| => id in states[i].sessions));
  }

  lemma AllotmentLasts(v: Budgets, v': Budgets, move: Move, id: SessionId)
    requires Moves(v, v', move) && IsKnown(move, id) && id in v.sessions
    ensures id in v'.sessions
  {
    hide Charged, SharedCharged, TransportCharged, SessionCharged;
    if move.Request? {
      var call := move.call;
      assert SessionServed(v.sessions, v'.sessions, call.session, call.known, call.event, call.r, move.allowed, id);
    }
  }

  lemma FitsOnce(moves: seq<Move>, f: Filter, lives: nat, capacity: real, rate: real, elapsed: real)
    requires Fits(moves, f, lives, capacity, rate, elapsed) && lives <= 1 && capacity >= 0.0 && rate >= 0.0 && elapsed >= 0.0
    ensures Fits(moves, f, 1, capacity, rate, elapsed)
  {
    hide Allowed;
    Monotone(rate, 0.0, elapsed);
  }

  // Whatever is requested, by whom and when: within any window of time the requests allowed stay
  // below the ceilings of the server, of every transport and of every session at once, in all
  // and of each limited kind. A transport or a session has its ceiling once for every budget it
  // was given; one that is not forgotten in the window has it once. Being idle before the window
  // earns nothing beyond a full bucket.
  lemma EveryCeilingHolds(states: seq<Budgets>, moves: seq<Move>, from: real, to: real)
    requires IsRun(states, moves, from, to)
    ensures ServerFits(moves, to - from)
    ensures forall id :: TransportFits(moves, id, Attachments(states, id), to - from)
    ensures forall id :: SessionFits(moves, id, Allotments(states, id), to - from)
    ensures forall id :: StaysAttached(moves, id) ==> TransportFits(moves, id, 1, to - from)
    ensures forall id :: StaysKnown(moves, id) ==> SessionFits(moves, id, 1, to - from)
  {
    hide IsRun, Fits, ServerFits, Attachments, Allotments, StaysAttached, StaysKnown;
    ServerCeilings(states, moves, from, to);
    forall id
      ensures TransportFits(moves, id, Attachments(states, id), to - from)
      ensures StaysAttached(moves, id) ==> TransportFits(moves, id, 1, to - from)
    {
      TransportCeilings(states, moves, id, from, to);
    }
    forall id
      ensures SessionFits(moves, id, Allotments(states, id), to - from)
      ensures StaysKnown(moves, id) ==> SessionFits(moves, id, 1, to - from)
    {
      SessionCeilings(states, moves, id, from, to);
    }
  }

  lemma TransportCeilings(states: seq<Budgets>, moves: seq<Move>, id: TransportId, from: real, to: real)
    requires IsRun(states, moves, from, to)
    ensures TransportFits(moves, id, Attachments(states, id), to - from)
    ensures StaysAttached(moves, id) ==> TransportFits(moves, id, 1, to - from)
  {
    hide Fits, Attachments, StaysAttached, Moves;
    forall kind: Kind | !kind.Commanding?
      ensures Fits(moves, Filter(Some(id), None, kind), Attachments(states, id), TransportCapacity(kind), TransportRate(kind), to - from)
      ensures StaysAttached(moves, id) ==>
                Fits(moves, Filter(Some(id), None, kind), 1, TransportCapacity(kind), TransportRate(kind), to - from)
    {
      TransportCeiling(states, moves, id, kind, from, to);
      if StaysAttached(moves, id) {
        AttachedOnce(states, moves, id, from, to);
        FitsOnce(moves, Filter(Some(id), None, kind), Attachments(states, id), TransportCapacity(kind), TransportRate(kind), to - from);
      }
    }
  }

  lemma SessionCeilings(states: seq<Budgets>, moves: seq<Move>, id: SessionId, from: real, to: real)
    requires IsRun(states, moves, from, to)
    ensures SessionFits(moves, id, Allotments(states, id), to - from)
    ensures StaysKnown(moves, id) ==> SessionFits(moves, id, 1, to - from)
  {
    hide Fits, Allotments, StaysKnown, Moves;
    SessionCeiling(states, moves, id, AnyKind, from, to);
    SessionCeiling(states, moves, id, Commanding, from, to);
    if StaysKnown(moves, id) {
      AllottedOnce(states, moves, id, from, to);
      FitsOnce(moves, Filter(None, Some(id), AnyKind), Allotments(states, id), 512.0, 200.0 / SECOND, to - from);
      FitsOnce(moves, Filter(None, Some(id), Commanding), Allotments(states, id), 256.0, 100.0 / SECOND, to - from);
    }
  }
}
