/** The in-process sorted sets with expiry (app/redis_client.py) and the sliding-window limiter on top
    of them (app/middleware/rate_limiter.py). */
module RedisStore {
  import opened Common

  type Time = real

  /** One key: its sorted set (member to score) and the moment it expires. */
  datatype Slot = Slot(zset: Option<map<Id, Time>>, expiry: Option<Time>)

  const EMPTY := Slot(None, None)

  predicate Expired(slot: Slot, now: Time) { slot.expiry.Some? && slot.expiry.value < now }

  datatype Command = ZRemRangeByScore(lo: Time, hi: Time) | ZAdd(member: Id,
                                      score: Time) | ZCard | Expire(seconds: Time)

  function Kept(z: map<Id, Time>, lo: Time, hi: Time): map<Id, Time> { map m | m in z && !(lo <= z[m] <= hi) :: z[m] }

  function Pruned(slot: Slot, now: Time): Slot { if Expired(slot, now) then EMPTY else slot }

  /** The slot a command leaves behind. Only `zcard` and `expire` look at the clock. */
  function Exec(slot: Slot, command: Command, now: Time): Slot {
    match command
    case ZRemRangeByScore(lo, hi) => if slot.zset.Some? then slot.(zset := Some(Kept(slot.zset.value, lo, hi))) else slot
    case ZAdd(member, score) =>
      var z: map<Id, Time> := if slot.zset.Some? then slot.zset.value else map[];
      slot.(zset := Some(z[member := score]))
    case ZCard => Pruned(slot, now)
    case Expire(seconds) =>
      var pruned := Pruned(slot, now);
      if pruned.zset.Some? then pruned.(expiry := Some(now + seconds)) else pruned
  }

  function Size(slot: Slot): nat { if slot.zset.Some? then |slot.zset.value| else 0 }

  function ExecAll(slot: Slot, commands: seq<Command>, now: Time): Slot {
    if commands == [] then slot
    else Exec(ExecAll(slot, commands[..|commands| - 1], now), commands[|commands| - 1], now)
  }

  class InMemoryRedis {
    var zsets: map<Id, map<Id, Time>>
    var expiry: map<Id, Time>

    function SlotOf(key: Id): Slot
      reads this
    {
      Slot(if key in zsets then Some(zsets[key]) else None, if key in expiry then Some(expiry[key]) else None)
    }

    method Live(key: Id, now: Time) returns (live: bool)
      modifies this
      ensures SlotOf(key) == Pruned(old(SlotOf(key)), now) && live == SlotOf(key).zset.Some?
      ensures if key in old(expiry) && old(expiry)[key] < now
              then !live && zsets == old(zsets) - {key} && expiry == old(expiry) - {key}
              else zsets == old(zsets) && expiry == old(expiry) && (live <==> key in zsets)
      ensures forall k :: k != key ==> SlotOf(k) == old(SlotOf(k))
    {
      if key in expiry && expiry[key] < now {
        zsets := zsets - {key};
        expiry := expiry - {key};
        return false;
      }
      return key in zsets;
    }

    method ZRemRange(key: Id, lo: Time, hi: Time) returns (removed: nat)
      modifies this
      ensures SlotOf(key) == Exec(old(SlotOf(key)), ZRemRangeByScore(lo, hi), 0.0)
      ensures expiry == old(expiry) && (key !in old(zsets) ==> zsets == old(zsets) && removed == 0)
      ensures key in old(zsets) ==> key in zsets && forall m ::
                && (m in zsets[key] <==> m in old(zsets)[key] && (old(zsets)[key][m] < lo || hi < old(zsets)[key][m]))
                && (m in zsets[key] ==> zsets[key][m] == old(zsets)[key][m])
      ensures removed + Size(SlotOf(key)) == Size(old(SlotOf(key)))
      ensures forall k :: k != key ==> SlotOf(k) == old(SlotOf(k))
    {
      removed := 0;
      if key in zsets {
        var kept := Kept(zsets[key], lo, hi);
        assert kept.Keys <= zsets[key].Keys;
        Subsize(kept.Keys, zsets[key].Keys);
        removed := |zsets[key]| - |kept|;
        zsets := zsets[key := kept];
      }
    }

    method Add(key: Id, member: Id, score: Time) returns (added: nat)
      modifies this
      ensures SlotOf(key) == Exec(old(SlotOf(key)), ZAdd(member, score), 0.0)
      ensures expiry == old(expiry) && key in zsets && member in zsets[key] && zsets[key][member] == score
      ensures forall m :: m in zsets[key] && m != member ==>
                key in old(zsets) && m in old(zsets)[key] && zsets[key][m] == old(zsets)[key][m]
      ensures key in old(zsets) ==> old(zsets)[key].Keys <= zsets[key].Keys
      ensures Size(SlotOf(key)) == Size(old(SlotOf(key))) + added
      ensures forall k :: k != key ==> SlotOf(k) == old(SlotOf(k))
    {
      var zset: map<Id, Time> := if key in zsets then zsets[key] else map[];
      added := if member in zset then 0 else 1;
      assert zset[member := score].Keys == zset.Keys + {member};
      zsets := zsets[key := zset[member := score]];
    }

    method Card(key: Id, now: Time) returns (count: nat)
      modifies this
      ensures SlotOf(key) == Exec(old(SlotOf(key)), ZCard, now) && count == Size(SlotOf(key))
      ensures count == if key !in old(zsets) || (key in old(expiry) && old(expiry)[key] < now) then 0
                       else |old(zsets)[key]|
      ensures forall k :: k != key ==> SlotOf(k) == old(SlotOf(k))
    {
      var _ := Live(key, now);
      return if key in zsets then |zsets[key]| else 0;
    }

    method ExpireIn(key: Id, seconds: Time, now: Time) returns (ok: bool)
      modifies this
      ensures SlotOf(key) == Exec(old(SlotOf(key)), Expire(seconds), now)
      ensures ok == Pruned(old(SlotOf(key)), now).zset.Some?
      ensures ok <==> key in old(zsets) && !(key in old(expiry) && old(expiry)[key] < now)
      ensures ok ==> zsets == old(zsets) && expiry == old(expiry)[key := now + seconds]
      ensures forall k :: k != key ==> SlotOf(k) == old(SlotOf(k))
    {
      ok := Live(key, now);
      if ok { expiry := expiry[key := now + seconds]; }
    }
  }

  lemma Subsize(a: set<Id>, b: set<Id>)
    requires a <= b
    ensures |a| <= |b|
  {
    assert b == a + (b - a);
    assert |b| == |a| + |b - a|;
  }

  /** Queues commands on one key and replays them in order. */
  class Pipeline {
    const redis: InMemoryRedis
    const key: Id
    var commands: seq<Command>

    constructor (redis: InMemoryRedis, key: Id)
      ensures this.redis == redis && this.key == key && commands == []
    {
      this.redis, this.key, commands := redis, key, [];
    }

    method Queue(command: Command)
      modifies this
      ensures commands == old(commands) + [command]
    {
      commands := commands + [command];
    }

    /** `counts` holds, for each queued zcard, the size it saw. */
    method Execute(now: Time) returns (counts: seq<nat>)
      modifies redis
      ensures redis.SlotOf(key) == ExecAll(old(redis.SlotOf(key)), commands, now)
      ensures forall k :: k != key ==> redis.SlotOf(k) == old(redis.SlotOf(k))
      ensures |counts| == |commands|
      ensures forall i :: 0 <= i < |commands| && commands[i].ZCard? ==>
                counts[i] == Size(ExecAll(old(redis.SlotOf(key)), commands[..i + 1], now))
    {
      counts := [];
      for i := 0 to |commands|
        invariant redis.SlotOf(key) == ExecAll(old(redis.SlotOf(key)), commands[..i], now)
        invariant forall k :: k != key ==> redis.SlotOf(k) == old(redis.SlotOf(k))
        invariant |counts| == i
        invariant forall j :: 0 <= j < i && commands[j].ZCard? ==>
                    counts[j] == Size(ExecAll(old(redis.SlotOf(key)), commands[..j + 1], now))
      {
        assert commands[..i + 1][..i] == commands[..i];
        var result := 0;
        match commands[i] {
          case ZRemRangeByScore(lo, hi) => result := redis.ZRemRange(key, lo, hi);
          case ZAdd(member, score) => result := redis.Add(key, member, score);
          case ZCard => result := redis.Card(key, now);
          case Expire(seconds) => var ok := redis.ExpireIn(key, seconds, now); result := if ok then 1 else 0;
        }
        counts := counts + [result];
      }
      assert commands[..|commands|] == commands;
    }
  }
}

module RateLimiter {
  import opened Common
  import opened RedisStore

  function Touch(member: Id, now: Time, window: Time): seq<Command> {
    [ZRemRangeByScore(0.0, now - window), ZAdd(member, now), ZCard, Expire(window)]
  }

  /** What one request leaves behind and what it counts. With `dropFirst` an expired key goes before the first
      command. */
  function Serve(slot: Slot, member: Id, now: Time, window: Time, dropFirst: bool): (Slot, nat) {
    var start := if dropFirst then Pruned(slot, now) else slot;
    var commands := Touch(member, now, window);
    (ExecAll(start, commands, now), Size(ExecAll(start, commands[..3], now)))
  }

  method CheckRateLimit(redis: InMemoryRedis, key: Id, member: Id, now: Time, window: Time, limit: int)
    returns (admitted: bool)
    modifies redis
    ensures redis.SlotOf(key) == Serve(old(redis.SlotOf(key)), member, now, window, false).0
    ensures admitted <==> Serve(old(redis.SlotOf(key)), member, now, window, false).1 <= limit
    ensures forall k :: k != key ==> redis.SlotOf(k) == old(redis.SlotOf(k))
  {
    var pipe := new Pipeline(redis, key);
    pipe.Queue(ZRemRangeByScore(0.0, now - window));
    pipe.Queue(ZAdd(member, now));
    pipe.Queue(ZCard);
    pipe.Queue(Expire(window));
    hide Exec, ExecAll, Size;
    assert pipe.commands == Touch(member, now, window);
    var counts := pipe.Execute(now);
    return counts[2] <= limit;
  }

  // ── runs: request number i arrives at times[i], its number is its unique member ─────────────

  ghost predicate Arrivals(times: seq<Time>) {
    && (forall i :: 0 <= i < |times| ==> 0.0 <= times[i])
    && (forall i, j :: 0 <= i <= j < |times| ==> times[i] <= times[j])
  }

  /** The key after the first n requests. */
  function After(times: seq<Time>, n: nat, window: Time, dropFirst: bool): Slot
    requires n <= |times|
  {
    if n == 0 then EMPTY else Serve(After(times, n - 1, window, dropFirst), n - 1, times[n - 1], window, dropFirst).0
  }

  function Count(times: seq<Time>, i: nat, window: Time, dropFirst: bool): nat
    requires i < |times|
  {
    Serve(After(times, i, window, dropFirst), i, times[i], window, dropFirst).1
  }

  /** The request found its key expired and was dropped together with it. */
  predicate Lost(times: seq<Time>, i: nat, window: Time, dropFirst: bool)
    requires i < |times|
  {
    !dropFirst && Expired(After(times, i, window, dropFirst), times[i])
  }

  /** The earlier requests on record that are younger than the window when request k arrives. */
  ghost function Recent(times: seq<Time>, n: nat, now: Time, window: Time, dropFirst: bool): set<nat>
    requires n <= |times|
  {
    set i: nat | 0 <= i < n && !Lost(times, i, window, dropFirst) && times[i] > now - window
  }

  ghost predicate Holds(slot: Slot, times: seq<Time>, n: nat, now: Time, window: Time, dropFirst: bool)
    requires n <= |times|
  {
    slot.zset.Some? && slot.zset.value.Keys == Recent(times, n, now, window, dropFirst)
    && forall i :: i in slot.zset.value ==> i < n && slot.zset.value[i] == times[i]
  }

  lemma ServeKeeps(slot: Slot, member: Id, now: Time, window: Time, dropFirst: bool)
    requires !(!dropFirst && Expired(slot, now)) && window > 0.0
    ensures var z := Stays(slot, now, window, dropFirst);
            Serve(slot, member, now, window, dropFirst)
            == (Slot(Some(z[member := now]), Some(now + window)), |z[member := now]|)
  {
    var start := if dropFirst then Pruned(slot, now) else slot;
    Unroll(start, Touch(member, now, window), now);
  }

  lemma ServeLoses(slot: Slot, member: Id, now: Time, window: Time)
    requires Expired(slot, now)
    ensures Serve(slot, member, now, window, false) == (EMPTY, 0)
  {
    Unroll(slot, Touch(member, now, window), now);
  }

  lemma Unroll(slot: Slot, c: seq<Command>, now: Time)
    requires |c| == 4
    ensures ExecAll(slot, c[..3], now) == Exec(Exec(Exec(slot, c[0], now), c[1], now), c[2], now)
    ensures ExecAll(slot, c, now) == Exec(ExecAll(slot, c[..3], now), c[3], now)
  {
    hide Exec;
    assert c[..3][..2] == c[..2] && c[..2][..1] == c[..1] && c[..1][..0] == [];
    assert ExecAll(slot, c[..1], now) == Exec(slot, c[0], now);
    assert ExecAll(slot, c[..2], now) == Exec(Exec(slot, c[0], now), c[1], now);
  }

  /** After a lost request nothing is stored, and the one before it was on record and is older than the window;
      otherwise exactly the recorded requests of the last window are stored. */
  ghost predicate Settled(times: seq<Time>, n: nat, window: Time, dropFirst: bool)
    requires 0 < n <= |times|
  {
    var slot := After(times, n, window, dropFirst);
    if Lost(times, n - 1, window, dropFirst)
    then slot == EMPTY && 1 < n && !Lost(times, n - 2, window, dropFirst) && times[n - 2] + window < times[n - 1]
    else Holds(slot, times, n, times[n - 1], window, dropFirst) && slot.expiry == Some(times[n - 1] + window)
  }

  lemma {:induction false} StoreIsTheWindow(times: seq<Time>, n: nat, window: Time, dropFirst: bool)
    requires Arrivals(times) && window > 0.0 && 0 < n <= |times|
    ensures Settled(times, n, window, dropFirst)
    ensures Count(times, n - 1, window, dropFirst) == Size(After(times, n, window, dropFirst))
  {
    hide Serve, Recent, Holds, Stays, Arrivals;
    var now := times[n - 1];
    var before := After(times, n - 1, window, dropFirst);
    if n > 1 { StoreIsTheWindow(times, n - 1, window, dropFirst); }
    if Lost(times, n - 1, window, dropFirst) {
      ServeLoses(before, n - 1, now, window);
    } else {
      ServeKeeps(before, n - 1, now, window, dropFirst);
      WindowMoves(times, n, window, dropFirst);
    }
  }

  function Stays(slot: Slot, now: Time, window: Time, dropFirst: bool): map<Id, Time> {
    var start := if dropFirst then Pruned(slot, now) else slot;
    if start.zset.Some? then Kept(start.zset.value, 0.0, now - window) else map[]
  }

  lemma WindowMoves(times: seq<Time>, n: nat, window: Time, dropFirst: bool)
    requires Arrivals(times) && window > 0.0 && 0 < n <= |times| && !Lost(times, n - 1, window, dropFirst)
    requires n > 1 ==> Settled(times, n - 1, window, dropFirst)
    ensures var now := times[n - 1];
            var z := Stays(After(times, n - 1, window, dropFirst), now, window, dropFirst);
            Holds(Slot(Some(z[n - 1 := now]), Some(now + window)), times, n, now, window, dropFirst)
  {
    hide Lost, Recent, Stays, Serve;
    var slot, now := After(times, n - 1, window, dropFirst), times[n - 1];
    if n == 1 {
      NoneRecent(times, 0, now, window, dropFirst);
      NothingStays(now, window, dropFirst);
    } else if Lost(times, n - 2, window, dropFirst) {
      assert forall i :: 0 <= i < n - 2 ==> times[i] <= times[n - 3];
      NoneRecent(times, n - 1, now, window, dropFirst);
      NothingStays(now, window, dropFirst);
    } else {
      RecentStays(slot, times, n - 1, now, window, dropFirst);
    }
    OneMoreRecent(times, n, window, dropFirst);
  }

  lemma NothingStays(now: Time, window: Time, dropFirst: bool)
    ensures Stays(EMPTY, now, window, dropFirst) == map[]
  {
  }

  lemma NoneRecent(times: seq<Time>, n: nat, now: Time, window: Time, dropFirst: bool)
    requires n <= |times|
    requires forall i :: 0 <= i < n ==> Lost(times, i, window, dropFirst) || times[i] <= now - window
    ensures Recent(times, n, now, window, dropFirst) == {}
  {
  }

  lemma OneMoreRecent(times: seq<Time>, n: nat, window: Time, dropFirst: bool)
    requires window > 0.0 && 0 < n <= |times| && !Lost(times, n - 1, window, dropFirst)
    ensures Recent(times, n, times[n - 1], window, dropFirst)
              == Recent(times, n - 1, times[n - 1], window, dropFirst) + {n - 1}
  {
    hide Lost;
  }

  lemma RecentStays(slot: Slot, times: seq<Time>, n: nat, now: Time, window: Time, dropFirst: bool)
    requires Arrivals(times) && window > 0.0 && 0 < n <= |times| && times[n - 1] <= now
    requires Holds(slot, times, n, times[n - 1], window, dropFirst) && slot.expiry == Some(times[n - 1] + window)
    ensures var z := Stays(slot, now, window, dropFirst);
            && z.Keys == Recent(times, n, now, window, dropFirst)
            && forall i :: i in z ==> i < n && z[i] == times[i]
  {
    hide Lost;
    var z := Stays(slot, now, window, dropFirst);
    if dropFirst && Expired(slot, now) {
      NoneRecent(times, n, now, window, dropFirst);
    } else {
      var all := slot.zset.value;
      assert z == Kept(all, 0.0, now - window);
      forall i ensures i in z.Keys <==> i in Recent(times, n, now, window, dropFirst) {
        if i in all { assert all[i] == times[i]; }
      }
    }
  }

  // ── how many get through ───────────────────────────────────────────────────

  predicate Admitted(times: seq<Time>, i: nat, window: Time, limit: int, dropFirst: bool)
    requires i < |times|
  {
    Count(times, i, window, dropFirst) <= limit
  }

  /** The requests admitted in the half-open interval of one window length from `from`. */
  ghost function AdmittedIn(times: seq<Time>, from: Time, window: Time, limit: int, dropFirst: bool): set<nat> {
    set i: nat | 0 <= i < |times| && from <= times[i] < from + window && Admitted(times, i, window, limit, dropFirst)
  }

  ghost function LostIn(times: seq<Time>, from: Time, window: Time, dropFirst: bool): set<nat> {
    set i: nat | 0 <= i < |times| && from <= times[i] < from + window && Lost(times, i, window, dropFirst)
  }

  /** A request on record is admitted exactly when it and the recorded requests of the window before it
      are at most `limit`; a lost one whenever the limit is not negative. */
  lemma AdmittedIff(times: seq<Time>, i: nat, window: Time, limit: int, dropFirst: bool)
    requires Arrivals(times) && window > 0.0 && i < |times|
    ensures !Lost(times, i, window, dropFirst) ==>
              (Admitted(times, i, window, limit, dropFirst) <==>
               |Recent(times, i + 1, times[i], window, dropFirst)| <= limit)
    ensures Lost(times, i, window, dropFirst) ==> (Admitted(times, i, window, limit, dropFirst) <==> 0 <= limit)
  {
    hide Recent, After, Serve, Exec, ExecAll;
    StoreIsTheWindow(times, i + 1, window, dropFirst);
  }

  /** Two lost requests are more than a window apart. */
  lemma LostAreFarApart(times: seq<Time>, i: nat, j: nat, window: Time)
    requires Arrivals(times) && window > 0.0 && i < j < |times|
    requires Lost(times, i, window, false) && Lost(times, j, window, false)
    ensures times[i] + window < times[j]
  {
    hide Holds, After, Serve, Lost;
    StoreIsTheWindow(times, j + 1, window, false);
    assert times[i] <= times[j - 1];
  }

  lemma AtMostOneLost(times: seq<Time>, from: Time, window: Time, dropFirst: bool)
    requires Arrivals(times) && window > 0.0
    ensures |LostIn(times, from, window, dropFirst)| <= if dropFirst then 0 else 1
  {
    hide Lost;
    var lost := LostIn(times, from, window, dropFirst);
    if lost != {} {
      var k :| k in lost;
      assert !dropFirst by { assert Lost(times, k, window, dropFirst); NoneLost(times, k, window); }
      forall i | i in lost ensures i == k {
        if i < k { LostAreFarApart(times, i, k, window); }
        if k < i { LostAreFarApart(times, k, i, window); }
      }
      assert lost == {k};
    }
  }

  lemma NoneLost(times: seq<Time>, i: nat, window: Time)
    requires i < |times|
    ensures !Lost(times, i, window, true)
  {
  }

  lemma {:induction false} RecordedAreBounded(times: seq<Time>, from: Time, window: Time, limit: nat, dropFirst: bool,
      rest: set<nat>)
    requires Arrivals(times) && window > 0.0
    requires rest == AdmittedIn(times, from, window, limit, dropFirst) - LostIn(times, from, window, dropFirst)
    ensures |rest| <= limit
  {
    hide Admitted, Lost;
    if rest != {} {
      var k := Latest(rest);
      AdmittedIff(times, k, window, limit, dropFirst);
      var recent := Recent(times, k + 1, times[k], window, dropFirst);
      forall i | i in rest ensures i in recent {}
      Subsize(rest, recent);
    }
  }

  lemma {:induction false} Latest(s: set<nat>) returns (k: nat)
    requires s != {}
    ensures k in s && forall i :: i in s ==> i <= k
    decreases s
  {
    var x :| x in s;
    k := x;
    if s != {x} {
      var m := Latest(s - {x});
      k := if m > x then m else x;
      assert forall i :: i in s ==> i == x || i in s - {x};
    }
  }

  /** No interval of one window length lets through more than limit + 1 requests; limit when it has no lost request,
      as when an expired key is dropped first. A negative limit admits nothing. */
  lemma AtMostOneOver(times: seq<Time>, from: Time, window: Time, limit: int, dropFirst: bool)
    requires Arrivals(times)
    ensures var admitted := |AdmittedIn(times, from, window, limit, dropFirst)|;
            && admitted <= (if limit < 0 then 0 else if dropFirst then limit else limit + 1)
            && (LostIn(times, from, window, dropFirst) == {} ==> admitted <= if limit < 0 then 0 else limit)
  {
    var all := AdmittedIn(times, from, window, limit, dropFirst);
    if limit < 0 || window <= 0.0 {
      assert all == {};
    } else {
      hide AdmittedIn, LostIn;
      var lost := LostIn(times, from, window, dropFirst);
      RecordedAreBounded(times, from, window, limit, dropFirst, all - lost);
      AtMostOneLost(times, from, window, dropFirst);
      assert all == (all - lost) + (all * lost);
      Subsize(all * lost, lost);
      assert |all| == |all - lost| + |all * lost|;
    }
  }

  // ── the bound is reached ───────────────────────────────────────────────────

  /** One request, a pause longer than the window, then a burst. */
  function PauseThenBurst(window: Time, burst: nat): seq<Time>
    requires window > 0.0
  {
    [0.0] + seq(burst, _ => window + 1.0)
  }

  /** The first request of the burst is lost, and no other. */
  lemma {:induction false} FirstOfBurstIsLost(window: Time, burst: nat, i: nat)
    requires window > 0.0 && i < |PauseThenBurst(window, burst)|
    ensures Lost(PauseThenBurst(window, burst), i, window, false) <==> i == 1
  {
    hide Serve, Holds;
    var times := PauseThenBurst(window, burst);
    if i > 0 {
      FirstOfBurstIsLost(window, burst, i - 1);
      StoreIsTheWindow(times, i, window, false);
    }
  }

  /** limit + 1 requests of the burst are admitted, whatever the limit. */
  lemma OneOverIsReached(window: Time, limit: nat)
    requires window > 0.0
    ensures var times := PauseThenBurst(window, limit + 1);
            Arrivals(times) && |AdmittedIn(times, window + 1.0, window, limit, false)| == limit + 1
  {
    var times := PauseThenBurst(window, limit + 1);
    var admitted := AdmittedIn(times, window + 1.0, window, limit, false);
    hide Admitted, Lost;
    forall i: nat ensures i in admitted <==> i in Range(1, limit + 2) {
      assert i in Range(1, limit + 2) <==> Between(1, i, limit + 2);
      if 1 <= i < limit + 2 { BurstIsAdmitted(window, limit, i); }
    }
    assert admitted == Range(1, limit + 2);
    RangeSize(1, limit + 2);
  }

  lemma BurstIsAdmitted(window: Time, limit: nat, i: nat)
    requires window > 0.0 && 1 <= i < limit + 2
    ensures Admitted(PauseThenBurst(window, limit + 1), i, window, limit, false)
  {
    hide Admitted, Lost;
    var times := PauseThenBurst(window, limit + 1);
    FirstOfBurstIsLost(window, limit + 1, i);
    AdmittedIff(times, i, window, limit, false);
    if i > 1 {
      var recent := Recent(times, i + 1, times[i], window, false);
      FirstOfBurstIsLost(window, limit + 1, 1);
      forall k | k in recent ensures k in Range(2, i + 1) { assert Between(2, k, i + 1); }
      Subsize(recent, Range(2, i + 1));
      RangeSize(2, i + 1);
    }
  }

  predicate Between(lo: nat, k: nat, hi: nat) { lo <= k < hi }

  function Range(lo: nat, hi: nat): set<nat> { set k: nat | k < hi && Between(lo, k, hi) }

  lemma {:induction false} RangeSize(lo: nat, hi: nat)
    requires lo <= hi
    ensures |Range(lo, hi)| == hi - lo
    decreases hi
  {
    if lo < hi {
      RangeSize(lo, hi - 1);
      assert forall k: nat :: Between(lo, k, hi) <==> Between(lo, k, hi - 1) || k == hi - 1;
      assert Range(lo, hi) == Range(lo, hi - 1) + {hi - 1};
    }
  }
}
