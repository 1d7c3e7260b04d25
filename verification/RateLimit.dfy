/** The fixed-window limiter: a pruned map of buckets that must agree with counting
    the whole history of calls, and its bounds when Redis fails at arbitrary times. */
module RateLimit {
  import opened Outcomes

  datatype Bucket = Bucket(window: int, count: nat)

  type Local = map<string, Bucket>

  /** One call that reached the local counter, in minute `window`. */
  datatype Hit = Hit(key: string, window: int)

  const PRUNE_AT := 512

  function MinuteOf(seconds: int): int {
    seconds / 60
  }

  // ------------------------------------------------------------- the local counter

  function Pruned(local: Local, window: int): Local {
    if |local| < PRUNE_AT then local
    else map k | k in local && window <= local[k].window :: local[k]
  }

  /** The count answered to a call. */
  function Answer(local: Local, h: Hit): nat {
    if h.key in local && local[h.key].window == h.window then local[h.key].count + 1 else 1
  }

  function Counted(local: Local, h: Hit): Local {
    Pruned(local, h.window)[h.key := Bucket(h.window, Answer(Pruned(local, h.window), h))]
  }

  /** The buckets after a history of calls. */
  function After(history: seq<Hit>): Local {
    if history == [] then map[]
    else Counted(After(history[..|history| - 1]), history[|history| - 1])
  }

  /** What the counter is meant to be: the calls of a key in a minute. */
  function Seen(history: seq<Hit>, key: string, window: int): nat {
    if history == [] then 0
    else
      Seen(history[..|history| - 1], key, window)
      + if history[|history| - 1] == Hit(key, window) then 1 else 0
  }

  /** The clock does not go back. */
  predicate Ordered(history: seq<Hit>) {
    forall i, j :: 0 <= i < j < |history| ==> history[i].window <= history[j].window
  }

  lemma AfterPush(history: seq<Hit>, h: Hit)
    ensures After(history + [h]) == Counted(After(history), h)
  {
    assert (history + [h])[..|history|] == history;
  }

  lemma SeenPush(history: seq<Hit>, h: Hit, key: string, window: int)
    ensures Seen(history + [h], key, window) == Seen(history, key, window) + if h == Hit(key, window) then 1 else 0
  {
    assert (history + [h])[..|history + [h]| - 1] == history;
  }

  /** The count held for a key in a minute. */
  function Held(local: Local, key: string, m: int): nat {
    if key in local && local[key].window == m then local[key].count else 0
  }

  /** Call `j` drops what is held for `key` in minute `m`: it restarts the bucket of the
      key in another minute, or prunes the map in a later one. */
  predicate Forgets(history: seq<Hit>, j: nat, key: string, m: int)
    requires j < |history|
  {
    || (history[j].key == key && history[j].window != m)
    || (512 <= |After(history[..j])| && m < history[j].window)
  }

  /** No call of `key` in minute `m` has been forgotten since. */
  predicate NeverForgotten(history: seq<Hit>, key: string, m: int) {
    forall i, j :: 0 <= i < j < |history| && history[i] == Hit(key, m) ==> !Forgets(history, j, key, m)
  }

  lemma HeldStep(local: Local, h: Hit, key: string, m: int)
    ensures Held(Counted(local, h), key, m) ==
            if h == Hit(key, m) then Held(local, key, m) + 1
            else if h.key == key || (PRUNE_AT <= |local| && m < h.window) then 0
            else Held(local, key, m)
  {
  }

  lemma {:induction false} SeenIff(history: seq<Hit>, key: string, m: int)
    ensures 0 < Seen(history, key, m) <==> exists i :: 0 <= i < |history| && history[i] == Hit(key, m)
    decreases |history|
  {
    if history == [] {
    } else {
      var n := |history| - 1;
      var init := history[..n];
      SeenIff(init, key, m);
      if i :| 0 <= i < n && history[i] == Hit(key, m) { assert init[i] == Hit(key, m); }
    }
  }

  lemma NeverForgottenPush(history: seq<Hit>, n: nat, key: string, m: int)
    requires n + 1 == |history|
    ensures NeverForgotten(history, key, m) <==>
            NeverForgotten(history[..n], key, m) && (0 < Seen(history[..n], key, m) ==> !Forgets(history, n, key, m))
  {
    var init := history[..n];
    SeenIff(init, key, m);
    forall j | 0 <= j < n ensures Forgets(init, j, key, m) <==> Forgets(history, j, key, m) {
      assert init[..j] == history[..j];
    }
    if NeverForgotten(history, key, m) {
      forall i, j | 0 <= i < j < n && init[i] == Hit(key, m) ensures !Forgets(init, j, key, m) {
        assert history[i] == Hit(key, m);
      }
      if i :| 0 <= i < n && init[i] == Hit(key, m) { assert history[i] == Hit(key, m); }
    } else {
      var i, j :| 0 <= i < j < |history| && history[i] == Hit(key, m) && Forgets(history, j, key, m);
      assert init[i] == Hit(key, m);
    }
  }

  /** What is held is never too much, and exact just when nothing was forgotten. */
  lemma {:induction false} HeldIsSeenIff(history: seq<Hit>, key: string, m: int)
    ensures Held(After(history), key, m) <= Seen(history, key, m)
    ensures Held(After(history), key, m) == Seen(history, key, m) <==> NeverForgotten(history, key, m)
    decreases |history|
  {
    if history == [] {
    } else {
      hide NeverForgotten, Counted, Held;
      var n := |history| - 1;
      HeldIsSeenIff(history[..n], key, m);
      NeverForgottenPush(history, n, key, m);
      HeldStep(After(history[..n]), history[n], key, m);
    }
  }

  lemma AnswerIsHeld(local: Local, h: Hit)
    ensures Answer(Pruned(local, h.window), h) == 1 + Held(local, h.key, h.window)
  {
  }

  /** Exactly when the pruned map answers right, for every history: the answer is one
      more than the number of earlier calls of the key in the same minute if and only
      if no call in between restarted its bucket or pruned it. */
  lemma LocalCountsHistoryIff(history: seq<Hit>, h: Hit)
    ensures Answer(Pruned(After(history), h.window), h) == 1 + Seen(history, h.key, h.window) <==>
            NeverForgotten(history, h.key, h.window)
  {
    HeldIsSeenIff(history, h.key, h.window);
    AnswerIsHeld(After(history), h);
  }

  lemma OrderedInit(history: seq<Hit>, n: nat)
    requires Ordered(history) && n < |history|
    ensures Ordered(history[..n])
    ensures forall i :: 0 <= i <= n ==> history[i].window <= history[n].window
  {
    forall i, j | 0 <= i < j < n ensures history[..n][i].window <= history[..n][j].window {
      assert history[i].window <= history[j].window;
    }
  }

  /** A clock that never goes back forgets nothing of the minute it stands in. */
  lemma OrderedForgetsNothing(history: seq<Hit>, h: Hit)
    requires Ordered(history + [h])
    ensures NeverForgotten(history, h.key, h.window)
  {
    var all := history + [h];
    forall i, j | 0 <= i < j < |history| && history[i] == Hit(h.key, h.window)
      ensures !Forgets(history, j, h.key, h.window)
    {
      assert all[i].window <= all[j].window <= all[|history|].window;
    }
  }

  /** With a clock that never goes back, the pruned map answers exactly one more than
      the number of earlier calls of the key in the same minute, for every history. */
  lemma LocalCountsHistory(history: seq<Hit>, h: Hit)
    requires Ordered(history + [h])
    ensures Answer(Pruned(After(history), h.window), h) == 1 + Seen(history, h.key, h.window)
  {
    OrderedForgetsNothing(history, h);
    LocalCountsHistoryIff(history, h);
  }

  /** The keys that called in a minute. */
  function KeysIn(history: seq<Hit>, window: int): set<string> {
    set i | 0 <= i < |history| && history[i].window == window :: history[i].key
  }

  /** The keys that called in a minute or a later one. */
  function KeysFrom(history: seq<Hit>, window: int): set<string> {
    set i | 0 <= i < |history| && window <= history[i].window :: history[i].key
  }

  lemma SubsetSize<T>(a: set<T>, b: set<T>)
    requires a <= b
    ensures |a| <= |b|
    decreases |b|
  {
    if x :| x in b {
      SubsetSize(a - {x}, b - {x});
    }
  }

  lemma {:induction false} CountsArePositive(history: seq<Hit>)
    ensures forall k :: k in After(history) ==> 0 < After(history)[k].count
  {
    if history == [] {
    } else {
      CountsArePositive(history[..|history| - 1]);
    }
  }

  /** Every bucket counts a call of its key in its minute. */
  lemma BucketsAreCalls(history: seq<Hit>, k: string)
    requires k in After(history)
    ensures exists i :: 0 <= i < |history| && history[i] == Hit(k, After(history)[k].window)
  {
    var m := After(history)[k].window;
    CountsArePositive(history);
    HeldIsSeenIff(history, k, m);
    SeenIff(history, k, m);
  }

  /** After a call the map holds at most 512 entries, or only keys of this minute or
      later ones, whatever the clock does; so only keys of this minute, if the clock
      never goes back. */
  lemma LocalStaysSmall(history: seq<Hit>, h: Hit)
    ensures var all := history + [h];
            || |After(all)| <= 512
            || (After(all).Keys <= KeysFrom(all, h.window) && |After(all)| <= |KeysFrom(all, h.window)|)
    ensures Ordered(history + [h]) ==> KeysFrom(history + [h], h.window) == KeysIn(history + [h], h.window)
  {
    var all := history + [h];
    assert all[..|history|] == history;
    var before := After(history);
    var pruned := Pruned(before, h.window);
    assert After(all).Keys == pruned.Keys + {h.key};
    assert |After(all)| == |After(all).Keys|;
    if PRUNE_AT <= |before| {
      forall k | k in After(all).Keys ensures k in KeysFrom(all, h.window) {
        if k == h.key {
          assert all[|history|] == h;
        } else {
          BucketsAreCalls(history, k);
          var i :| 0 <= i < |history| && history[i] == Hit(k, before[k].window);
          assert all[i] == history[i];
        }
      }
      SubsetSize(After(all).Keys, KeysFrom(all, h.window));
    } else {
      assert |pruned.Keys| == |pruned|;
    }
    if Ordered(all) { OrderedKeys(all, h.window); }
  }

  lemma OrderedKeys(history: seq<Hit>, window: int)
    requires Ordered(history) && history != [] && history[|history| - 1].window == window
    ensures KeysFrom(history, window) == KeysIn(history, window)
  {
    assert forall i :: 0 <= i < |history| ==> history[i].window <= window;
  }

  /** The clock matters: once it goes back and forth, a bucket can be started again and
      an earlier call of the same minute is forgotten. */
  lemma BackwardClockForgets()
    ensures var history := [Hit("ip:/path", 1), Hit("ip:/path", 0)];
            var h := Hit("ip:/path", 1);
            Seen(history, h.key, h.window) == 1 && Answer(Pruned(After(history), h.window), h) == 1
  {
    var one, zero := Hit("ip:/path", 1), Hit("ip:/path", 0);
    var history := [one, zero];
    assert history[..1] == [one] && [one][..0] == [];
    assert After([one]) == map["ip:/path" := Bucket(1, 1)];
    assert After(history) == map["ip:/path" := Bucket(0, 1)];
    assert Seen([one], "ip:/path", 1) == 1;
  }

  // ------------------------------------------------------------ Redis and fallback

  /** One request: the minute its Redis counter is named after, what Redis answered if
      it answered at all, and the minute of the local clock read after a failure. */
  datatype Call = Call(key: string, asked: int, reply: Option<int>, window: int)

  /** The calls that reached the local counter. */
  function Hits(trace: seq<Call>): seq<Hit> {
    if trace == [] then []
    else
      var c := trace[|trace| - 1];
      Hits(trace[..|trace| - 1]) + if c.reply.None? then [Hit(c.key, c.window)] else []
  }

  /** What `INCR` promises: answers start at one. */
  predicate Positive(trace: seq<Call>) {
    forall i :: 0 <= i < |trace| && trace[i].reply.Some? ==> 1 <= trace[i].reply.value
  }

  /** The count the last request of a trace is judged by. */
  function CountOf(trace: seq<Call>): int
    requires trace != []
  {
    var c := trace[|trace| - 1];
    if c.reply.Some? then c.reply.value
    else Answer(Pruned(After(Hits(trace[..|trace| - 1])), c.window), Hit(c.key, c.window))
  }

  /** Whether a request counts against key `key` and minute `m` of the Redis or of the
      local counter. */
  predicate Against(c: Call, viaRedis: bool, key: string, m: int) {
    c.key == key && c.reply.Some? == viaRedis && m == if viaRedis then c.asked else c.window
  }

  /** Requests admitted through one of the two counters. */
  function Admits(limit: int, trace: seq<Call>, viaRedis: bool, key: string, m: int): nat {
    if trace == [] then 0
    else
      Admits(limit, trace[..|trace| - 1], viaRedis, key, m)
      + if Against(trace[|trace| - 1], viaRedis, key, m) && CountOf(trace) <= limit then 1 else 0
  }

  function Cap(limit: int): nat {
    if limit < 0 then 0 else limit
  }

  function Min(a: int, b: int): int {
    if a < b then a else b
  }

  /** How often the Redis counter of key `key` and minute `m` has answered `v` to this
      process. */
  function Times(trace: seq<Call>, key: string, m: int, v: int): nat {
    if trace == [] then 0
    else
      var c := trace[|trace| - 1];
      Times(trace[..|trace| - 1], key, m, v) + if Against(c, true, key, m) && c.reply.value == v then 1 else 0
  }

  lemma {:induction false} NoneBelowOne(limit: int, trace: seq<Call>, key: string, m: int)
    requires limit <= 0 && Positive(trace)
    ensures Admits(limit, trace, true, key, m) == 0
    decreases |trace|
  {
    if trace == [] {
    } else {
      NoneBelowOne(limit, trace[..|trace| - 1], key, m);
    }
  }

  /** Raising the limit by one admits the requests that were answered the new limit. */
  lemma {:induction false} OneMore(limit: int, trace: seq<Call>, key: string, m: int)
    ensures Admits(limit, trace, true, key, m) ==
            Admits(limit - 1, trace, true, key, m) + Times(trace, key, m, limit)
    decreases |trace|
  {
    if trace == [] {
    } else {
      OneMore(limit, trace[..|trace| - 1], key, m);
    }
  }

  /** In whatever order answers arrive, and whoever else uses the counter: if no answer
      within the limit is given more than `times` times, at most `times` times the
      limit is admitted. */
  lemma {:induction false} RedisAdmits(limit: int, trace: seq<Call>, key: string, m: int, times: nat)
    requires Positive(trace)
    requires forall v :: 1 <= v <= limit ==> Times(trace, key, m, v) <= times
    ensures Admits(limit, trace, true, key, m) <= times * Cap(limit)
    decreases Cap(limit)
  {
    if limit <= 0 {
      NoneBelowOne(limit, trace, key, m);
    } else {
      RedisAdmits(limit - 1, trace, key, m, times);
      OneMore(limit, trace, key, m);
      assert times * Cap(limit) == times * Cap(limit - 1) + times;
    }
  }

  /** Every call of `key` in minute `m` was answered before anything was forgotten. */
  predicate CountsKept(history: seq<Hit>, key: string, m: int) {
    forall n :: 0 <= n < |history| && history[n] == Hit(key, m) ==> NeverForgotten(history[..n], key, m)
  }

  lemma CountsKeptPrefix(history: seq<Hit>, n: nat, key: string, m: int)
    requires CountsKept(history, key, m) && n < |history|
    ensures CountsKept(history[..n], key, m)
    ensures history[n] == Hit(key, m) ==> NeverForgotten(history[..n], key, m)
  {
    forall k | 0 <= k < n && history[..n][k] == Hit(key, m) ensures NeverForgotten(history[..n][..k], key, m) {
      assert history[..n][..k] == history[..k];
    }
  }

  lemma OrderedKeepsCounts(history: seq<Hit>, key: string, m: int)
    requires Ordered(history)
    ensures CountsKept(history, key, m)
  {
    forall n | 0 <= n < |history| && history[n] == Hit(key, m) ensures NeverForgotten(history[..n], key, m) {
      assert history[..n] + [history[n]] == history[..n + 1];
      if n + 1 < |history| { OrderedInit(history, n + 1); } else { assert history[..n + 1] == history; }
      OrderedForgetsNothing(history[..n], history[n]);
    }
  }

  /** The local counter admits exactly the first `limit` calls of a key in a minute, as
      long as none was forgotten when the next was answered. */
  lemma {:induction false} LocalAdmits(limit: int, trace: seq<Call>, key: string, m: int)
    requires CountsKept(Hits(trace), key, m)
    ensures Admits(limit, trace, false, key, m) == Min(Seen(Hits(trace), key, m), Cap(limit))
    decreases |trace|
  {
    if trace == [] {
    } else {
      hide NeverForgotten, CountsKept, Answer, Pruned, After, Seen;
      var init, c := trace[..|trace| - 1], trace[|trace| - 1];
      if c.reply.None? {
        var h := Hit(c.key, c.window);
        assert Hits(trace) == Hits(init) + [h];
        assert Hits(trace)[..|Hits(init)|] == Hits(init);
        CountsKeptPrefix(Hits(trace), |Hits(init)|, key, m);
        LocalAdmits(limit, init, key, m);
        LocalCountsHistoryIff(Hits(init), h);
        SeenPush(Hits(init), h, key, m);
      } else {
        assert Hits(trace) == Hits(init);
        LocalAdmits(limit, init, key, m);
      }
    }
  }

  /** A counter that is never lost gives each answer once. */
  ghost predicate AnswersOnce(trace: seq<Call>) {
    forall i, j :: 0 <= i < j < |trace| && trace[i].reply.Some? && trace[j].reply.Some?
                   && trace[i].key == trace[j].key && trace[i].asked == trace[j].asked ==>
      trace[i].reply.value != trace[j].reply.value
  }

  lemma {:induction false} NotAnswered(trace: seq<Call>, key: string, m: int, v: int)
    requires forall i :: 0 <= i < |trace| && Against(trace[i], true, key, m) ==> trace[i].reply.value != v
    ensures Times(trace, key, m, v) == 0
    decreases |trace|
  {
    if trace == [] {
    } else {
      NotAnswered(trace[..|trace| - 1], key, m, v);
    }
  }

  lemma {:induction false} AnsweredOnce(trace: seq<Call>, key: string, m: int, v: int)
    requires AnswersOnce(trace)
    ensures Times(trace, key, m, v) <= 1
    decreases |trace|
  {
    if trace == [] {
    } else {
      var n := |trace| - 1;
      if Against(trace[n], true, key, m) && trace[n].reply.value == v {
        NotAnswered(trace[..n], key, m, v);
      } else {
        AnsweredOnce(trace[..n], key, m, v);
      }
    }
  }

  /** However often Redis fails, and whatever it had counted when an answer was lost:
      for one key and minute the process admits at most `limit` requests through each
      counter, so at most twice the limit in all. `CountsKept` holds of every clock
      that never goes back (`OrderedKeepsCounts`). */
  lemma AdmitsAtMostTwiceTheLimit(limit: int, trace: seq<Call>, key: string, m: int)
    requires Positive(trace) && AnswersOnce(trace) && CountsKept(Hits(trace), key, m)
    ensures Admits(limit, trace, true, key, m) <= Cap(limit)
    ensures Admits(limit, trace, false, key, m) <= Cap(limit)
    ensures Admits(limit, trace, true, key, m) + Admits(limit, trace, false, key, m) <= 2 * Cap(limit)
  {
    forall v ensures Times(trace, key, m, v) <= 1 { AnsweredOnce(trace, key, m, v); }
    RedisAdmits(limit, trace, key, m, 1);
    LocalAdmits(limit, trace, key, m);
  }

  /** If Redis also loses its counter and starts again, answers repeat: each time they
      may, the limit is admitted once more. */
  lemma AdmitsWithLostCounters(limit: int, trace: seq<Call>, key: string, m: int, times: nat)
    requires Positive(trace) && CountsKept(Hits(trace), key, m)
    requires forall v :: 1 <= v <= limit ==> Times(trace, key, m, v) <= times
    ensures Admits(limit, trace, true, key, m) + Admits(limit, trace, false, key, m) <= (times + 1) * Cap(limit)
  {
    hide Times, CountsKept, Positive, Admits, Seen;
    RedisAdmits(limit, trace, key, m, times);
    LocalAdmits(limit, trace, key, m);
    OneShareMore(times, Cap(limit));
  }

  lemma OneShareMore(times: nat, share: nat)
    ensures times * share + share == (times + 1) * share
  {
  }

  // ----------------------------------------------------------------- sixty-second minutes

  /** A clock reading, in seconds, of a call that reached the local counter. */
  datatype Reading = Reading(key: string, seconds: int)

  /** One request: when its Redis counter was named, what Redis answered if it answered
      at all, and when the local clock was read after a failure. */
  datatype Visit = Visit(key: string, asked: int, reply: Option<int>, read: int)

  lemma MinuteHasSixtySeconds(seconds: int, m: int)
    ensures MinuteOf(seconds) == m <==> 60 * m <= seconds < 60 * m + 60
  {
  }

  function HitOf(r: Reading): Hit {
    Hit(r.key, MinuteOf(r.seconds))
  }

  function ByMinute(readings: seq<Reading>): seq<Hit> {
    seq(|readings|, i requires 0 <= i < |readings| => HitOf(readings[i]))
  }

  /** The calls of a key from second `lo` up to but not including second `hi`. */
  function Between(readings: seq<Reading>, key: string, lo: int, hi: int): nat {
    if readings == [] then 0
    else
      var r := readings[|readings| - 1];
      Between(readings[..|readings| - 1], key, lo, hi) + if r.key == key && lo <= r.seconds < hi then 1 else 0
  }

  /** The clock does not go back. */
  predicate Forward(readings: seq<Reading>) {
    forall i, j :: 0 <= i < j < |readings| ==> readings[i].seconds <= readings[j].seconds
  }

  lemma {:induction false} SeenIsBetween(readings: seq<Reading>, key: string, m: int)
    ensures Seen(ByMinute(readings), key, m) == Between(readings, key, 60 * m, 60 * m + 60)
    decreases |readings|
  {
    if readings == [] {
    } else {
      var n := |readings| - 1;
      assert ByMinute(readings)[..n] == ByMinute(readings[..n]);
      SeenIsBetween(readings[..n], key, m);
      MinuteHasSixtySeconds(readings[n].seconds, m);
    }
  }

  lemma ForwardIsOrdered(readings: seq<Reading>)
    requires Forward(readings)
    ensures Ordered(ByMinute(readings))
  {
    forall i, j | 0 <= i < j < |readings| ensures ByMinute(readings)[i].window <= ByMinute(readings)[j].window {
      assert readings[i].seconds <= readings[j].seconds;
    }
  }

  /** The keys that called from second `lo` up to but not including second `hi`. */
  function KeysBetween(readings: seq<Reading>, lo: int, hi: int): set<string> {
    set i | 0 <= i < |readings| && lo <= readings[i].seconds < hi :: readings[i].key
  }

  lemma KeysInIsBetween(readings: seq<Reading>, m: int)
    ensures KeysIn(ByMinute(readings), m) == KeysBetween(readings, 60 * m, 60 * m + 60)
  {
    var hits := ByMinute(readings);
    forall k ensures k in KeysIn(hits, m) <==> k in KeysBetween(readings, 60 * m, 60 * m + 60) {
      if i :| 0 <= i < |hits| && hits[i].window == m && hits[i].key == k {
        MinuteHasSixtySeconds(readings[i].seconds, m);
      }
      if i :| 0 <= i < |readings| && 60 * m <= readings[i].seconds < 60 * m + 60 && readings[i].key == k {
        MinuteHasSixtySeconds(readings[i].seconds, m);
        assert hits[i].window == m;
      }
    }
  }

  function CallOf(v: Visit): Call {
    Call(v.key, MinuteOf(v.asked), v.reply, MinuteOf(v.read))
  }

  function Calls(visits: seq<Visit>): seq<Call> {
    seq(|visits|, i requires 0 <= i < |visits| => CallOf(visits[i]))
  }

  /** The readings of the requests that Redis did not answer. */
  function Unanswered(visits: seq<Visit>): seq<Reading> {
    if visits == [] then []
    else
      var v := visits[|visits| - 1];
      Unanswered(visits[..|visits| - 1]) + if v.reply.None? then [Reading(v.key, v.read)] else []
  }

  lemma {:induction false} UnansweredAreHits(visits: seq<Visit>)
    ensures Hits(Calls(visits)) == ByMinute(Unanswered(visits))
    decreases |visits|
  {
    if visits == [] {
    } else {
      var n := |visits| - 1;
      assert Calls(visits)[..n] == Calls(visits[..n]);
      UnansweredAreHits(visits[..n]);
    }
  }

  /** Requests admitted through one of the two counters, by a clock reading from second
      `lo` up to but not including second `hi`. */
  function AdmittedBetween(limit: int, visits: seq<Visit>, viaRedis: bool, key: string, lo: int, hi: int): nat {
    if visits == [] then 0
    else
      var v := visits[|visits| - 1];
      var clock := if viaRedis then v.asked else v.read;
      AdmittedBetween(limit, visits[..|visits| - 1], viaRedis, key, lo, hi)
      + if v.key == key && v.reply.Some? == viaRedis && lo <= clock < hi
          && CountOf(Calls(visits)) <= limit then 1 else 0
  }

  lemma {:induction false} AdmittedIsAdmits(limit: int, visits: seq<Visit>, viaRedis: bool, key: string, m: int)
    ensures AdmittedBetween(limit, visits, viaRedis, key, 60 * m, 60 * m + 60) ==
            Admits(limit, Calls(visits), viaRedis, key, m)
    decreases |visits|
  {
    if visits == [] {
    } else {
      hide CountOf;
      var n := |visits| - 1;
      assert Calls(visits)[..n] == Calls(visits[..n]);
      AdmittedIsAdmits(limit, visits[..n], viaRedis, key, m);
      MinuteHasSixtySeconds(visits[n].asked, m);
      MinuteHasSixtySeconds(visits[n].read, m);
    }
  }

  /** However often Redis fails to answer: with a clock that does not go back, of the
      requests of a key in the sixty seconds of a minute at most `limit` are admitted
      through each counter, as long as Redis keeps its own. */
  lemma AdmitsPerMinute(limit: int, visits: seq<Visit>, key: string, m: int)
    requires Positive(Calls(visits)) && AnswersOnce(Calls(visits)) && Forward(Unanswered(visits))
    ensures AdmittedBetween(limit, visits, true, key, 60 * m, 60 * m + 60) <= if limit < 0 then 0 else limit
    ensures AdmittedBetween(limit, visits, false, key, 60 * m, 60 * m + 60) ==
            var calls := Between(Unanswered(visits), key, 60 * m, 60 * m + 60);
            if limit < 0 then 0 else if calls < limit then calls else limit
  {
    UnansweredAreHits(visits);
    ForwardIsOrdered(Unanswered(visits));
    OrderedKeepsCounts(Hits(Calls(visits)), key, m);
    AdmitsAtMostTwiceTheLimit(limit, Calls(visits), key, m);
    LocalAdmits(limit, Calls(visits), key, m);
    SeenIsBetween(Unanswered(visits), key, m);
    AdmittedIsAdmits(limit, visits, true, key, m);
    AdmittedIsAdmits(limit, visits, false, key, m);
  }

  // --------------------------------------------------------------------- the limiter

  class Limiter {
    const limit: int
    var local: Local
    ghost var readings: seq<Reading>
    ghost var visits: seq<Visit>

    ghost predicate Valid()
      reads this
    {
      local == After(ByMinute(readings))
    }

    constructor (limit: int)
      ensures Valid() && this.limit == limit && readings == [] && visits == [] && local == map[]
    {
      this.limit := limit;
      local, readings, visits := map[], [], [];
    }

    /** Once there are 512 entries, those of earlier minutes are deleted. */
    method CleanupLocal(currentWindow: int)
      modifies this`local
      ensures local == Pruned(old(local), currentWindow)
      ensures |old(local)| < 512 ==> local == old(local)
      ensures 512 <= |old(local)| ==>
        local == map k | k in old(local) && currentWindow <= old(local)[k].window :: old(local)[k]
    {
      if |local| < PRUNE_AT { return; }
      var keys := local.Keys;
      while keys != {}
        invariant keys <= old(local).Keys
        invariant local == map k | k in old(local)
          && (k in keys || currentWindow <= old(local)[k].window) :: old(local)[k]
        decreases |keys|
      {
        var key :| key in keys;
        keys := keys - {key};
        if local[key].window < currentWindow { local := local - {key}; }
      }
    }

    /** The answer is the true count of the key in this minute exactly if none of its
        calls was forgotten, as none is if the clock has never gone back. */
    method IncrementLocal(key: string, seconds: int) returns (count: nat)
      requires Valid()
      modifies this`local, this`readings
      ensures Valid() && readings == old(readings) + [Reading(key, seconds)]
      ensures count == Answer(Pruned(old(local), MinuteOf(seconds)), Hit(key, MinuteOf(seconds)))
      ensures var start := seconds - seconds % 60;  // the first second of the minute
              var earlier := Between(old(readings), key, start, start + 60);
              && (count == 1 + earlier <==> NeverForgotten(ByMinute(old(readings)), key, MinuteOf(seconds)))
              && (Forward(readings) ==> count == 1 + earlier)
              && (Forward(readings) ==> |local| <= 512 || |local| <= |KeysBetween(readings, start, start + 60)|)
    {
      hide Forward, NeverForgotten, Between, KeysBetween, After;
      var now := MinuteOf(seconds);
      ghost var h := Hit(key, now);
      CleanupLocal(now);
      var value := if key in local then local[key] else Bucket(now, 0);
      if value.window != now { value := Bucket(now, 0); }
      value := value.(count := value.count + 1);
      local := local[key := value];
      count := value.count;
      readings := readings + [Reading(key, seconds)];
      assert ByMinute(readings) == ByMinute(old(readings)) + [h];
      AfterPush(ByMinute(old(readings)), h);
      CountedThisMinute(old(readings), key, seconds);
    }

    /** Admission of one request. `reply` is what Redis answered for the counter named
        at second `asked`, if it answered; `seconds` is the clock read after a failure. */
    method Middleware(key: string, asked: int, reply: Option<int>, seconds: int) returns (admitted: bool)
      requires Valid() && readings == Unanswered(visits)
      modifies this
      ensures Valid() && readings == Unanswered(visits)
      ensures visits == old(visits) + [Visit(key, asked, reply, seconds)]
      ensures admitted <==> CountOf(Calls(visits)) <= limit
      ensures reply.Some? ==> (admitted <==> reply.value <= limit)
      ensures reply.None? && Forward(readings) ==>
        var start := seconds - seconds % 60;
        admitted <==> 1 + Between(old(readings), key, start, start + 60) <= limit
    {
      hide Forward, NeverForgotten, Between, KeysBetween;
      ghost var before := visits;
      visits := visits + [Visit(key, asked, reply, seconds)];
      assert visits[..|visits| - 1] == before;
      assert Calls(visits)[..|visits| - 1] == Calls(before);
      UnansweredAreHits(before);
      var count;
      if reply.Some? {
        count := reply.value;
      } else {
        count := IncrementLocal(key, seconds);
      }
      admitted := !(count > limit);
    }
  }

  /** What the local counter answers and holds after a call, in the seconds of its minute. */
  lemma CountedThisMinute(readings: seq<Reading>, key: string, seconds: int)
    ensures var m := MinuteOf(seconds);
            var h := Hit(key, m);
            var hits := ByMinute(readings);
            var all := readings + [Reading(key, seconds)];
            var start := seconds - seconds % 60;
            var earlier := Between(readings, key, start, start + 60);
            && (Answer(Pruned(After(hits), m), h) == 1 + earlier <==> NeverForgotten(hits, key, m))
            && (Forward(all) ==> NeverForgotten(hits, key, m))
            && (Forward(all) ==>
                  |After(hits + [h])| <= 512 || |After(hits + [h])| <= |KeysBetween(all, start, start + 60)|)
  {
    var m := MinuteOf(seconds);
    var h := Hit(key, m);
    var hits := ByMinute(readings);
    var all := readings + [Reading(key, seconds)];
    assert 60 * m == seconds - seconds % 60;
    assert ByMinute(all) == hits + [h];
    LocalCountsHistoryIff(hits, h);
    SeenIsBetween(readings, key, m);
    LocalStaysSmall(hits, h);
    KeysInIsBetween(all, m);
    if Forward(all) {
      ForwardIsOrdered(all);
      OrderedForgetsNothing(hits, h);
    }
  }
}
