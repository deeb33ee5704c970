/**
  When cached keys expire, over every history of script calls, rebuilds and reads.
 */
module Expiry {
  import opened Ids
  import opened Durable
  import opened Redis

  datatype Call =
    | Attack(player: PlayerId, damage: int)
    | Compensate(player: PlayerId, amount: int)
    | Rebuild(rec: Recovery, totals: map<PlayerId, int>)
    | Read

  datatype Timed = Timed(call: Call, at: nat)

  /** The keys, with the instants of the last write and of the last hit that landed. */
  datatype Clocked = Clocked(keys: Keys, written: Option<nat>, struck: Option<nat>)

  function Perform(c: Clocked, t: Timed, ttlMs: nat): Clocked {
    match t.call
    case Attack(player, damage) =>
      var (k, r) := DamageScript(c.keys, player, damage, TtlSeconds(ttlMs), t.at);
      if r.verdict == Landed then Clocked(k, Some(t.at), Some(t.at)) else c.(keys := k)
    case Compensate(player, amount) =>
      var k := CompensateScript(c.keys, player, amount, TtlSeconds(ttlMs), t.at);
      if View(c.keys, t.at).Some? && amount > 0 then c.(keys := k, written := Some(t.at)) else c.(keys := k)
    case Rebuild(rec, totals) =>
      c.(keys := RebuildKeys(rec, totals, ttlMs, t.at), written := Some(t.at))
    case Read => c.(keys := Sweep(c.keys, t.at))
  }

  function Play(history: seq<Timed>, ttlMs: nat): Clocked {
    if history == [] then Clocked(NO_KEYS, None, None) else
      Perform(Play(history[..|history| - 1], ttlMs), history[|history| - 1], ttlMs)
  }

  predicate Ordered(history: seq<Timed>) {
    forall i, j :: 0 <= i < j < |history| ==> history[i].at <= history[j].at
  }

  /** Nothing in the history happened after `now`. */
  predicate UpTo(history: seq<Timed>, now: nat) {
    forall i :: 0 <= i < |history| ==> history[i].at <= now
  }

  /** Within one ttl of the last write, or forever without a ttl. */
  predicate Recent(c: Clocked, ttlMs: nat, now: nat) {
    c.written.Some? && (ttlMs == 0 || now < c.written.value + ttlMs)
  }

  predicate OnSchedule(c: Clocked, ttlMs: nat, now: nat) {
    && Steady(c.keys)
    && (c.keys.hp.Some? ==>
          c.written.Some? && c.keys.hp.value.expires == if ttlMs > 0 then Some(c.written.value + ttlMs) else None)
    && (Recent(c, ttlMs, now) ==> c.keys.hp.Some?)
    && (c.written.Some? ==> c.written.value <= now)
    && (c.struck.Some? ==> c.written.Some? && c.struck.value <= c.written.value)
  }

  lemma PerformOnSchedule(c: Clocked, t: Timed, ttlMs: nat)
    requires ttlMs % 1000 == 0 && OnSchedule(c, ttlMs, t.at)
    ensures OnSchedule(Perform(c, t, ttlMs), ttlMs, t.at)
  {
    assert 1000 * TtlSeconds(ttlMs) == ttlMs;
    match t.call
    case Attack(player, damage) => DamageScriptRefines(c.keys, player, damage, TtlSeconds(ttlMs), t.at);
    case Compensate(player, amount) => CompensateScriptRefines(c.keys, player, amount, TtlSeconds(ttlMs), t.at);
    case Rebuild(rec, totals) => RebuildRefines(rec, totals, ttlMs, t.at);
    case Read =>
  }

  lemma {:induction false} PlayOnSchedule(history: seq<Timed>, ttlMs: nat, now: nat)
    requires ttlMs % 1000 == 0 && Ordered(history) && UpTo(history, now)
    ensures OnSchedule(Play(history, ttlMs), ttlMs, now)
  {
    if history != [] {
      var last := |history| - 1;
      PlayOnSchedule(history[..last], ttlMs, history[last].at);
      PerformOnSchedule(Play(history[..last], ttlMs), history[last], ttlMs);
    }
  }

  /**
    Under a whole-second ttl a boss is loaded exactly within one ttl of its last write, and HP,
    state and any leaderboard expire together. In particular it is loaded for a full ttl after
    every hit, so a hit resolved within the ttl is never in flight at a natural expiry.
   */
  lemma LoadedForOneTtl(history: seq<Timed>, ttlMs: nat, now: nat)
    requires ttlMs % 1000 == 0 && Ordered(history) && UpTo(history, now)
    ensures var c := Play(history, ttlMs);
            && Steady(c.keys)
            && (View(c.keys, now).Some? <==> Recent(c, ttlMs, now))
            && (c.struck.Some? && (ttlMs == 0 || now < c.struck.value + ttlMs) ==> View(c.keys, now).Some?)
  {
    PlayOnSchedule(history, ttlMs, now);
  }

  /** Attacks on a dead boss and reads write nothing. */
  lemma {:induction false} OnlookersWriteNothing(history: seq<Timed>, tail: seq<Timed>, ttlMs: nat)
    requires ttlMs % 1000 == 0 && Ordered(history + tail)
    requires forall i :: 0 <= i < |tail| ==> tail[i].call.Attack? || tail[i].call.Read?
    requires var k := Play(history, ttlMs).keys; k.hp.Some? ==> k.hp.value.value <= 0
    ensures var c, c' := Play(history, ttlMs), Play(history + tail, ttlMs);
            && c'.written == c.written
            && (c'.keys.hp.Some? ==> c'.keys.hp.value.value <= 0)
  {
    if tail == [] {
      assert history + tail == history;
    } else {
      var last := |tail| - 1;
      assert (history + tail)[..|history + tail| - 1] == history + tail[..last];
      OnlookersWriteNothing(history, tail[..last], ttlMs);
    }
  }

  /** A 0-HP entry that only attackers and readers see is gone one ttl after its last write. */
  lemma DeadEntryExpires(history: seq<Timed>, tail: seq<Timed>, ttlMs: nat, now: nat)
    requires ttlMs % 1000 == 0 && ttlMs > 0 && Ordered(history + tail) && UpTo(history + tail, now)
    requires forall i :: 0 <= i < |tail| ==> tail[i].call.Attack? || tail[i].call.Read?
    requires var c := Play(history, ttlMs);
             c.keys.hp.Some? && c.keys.hp.value.value == 0 && c.written.Some? && now >= c.written.value + ttlMs
    ensures View(Play(history + tail, ttlMs).keys, now) == None
  {
    OnlookersWriteNothing(history, tail, ttlMs);
    LoadedForOneTtl(history + tail, ttlMs, now);
  }

  /**
    The keys of a boss share one expiry in every history exactly when the ttl is a whole number
    of seconds. With any other ttl one rebuild of a boss with a contributor already splits them.
   */
  lemma SharedExpiryIffWholeSeconds(ttlMs: nat)
    ensures (forall history: seq<Timed> :: Ordered(history) ==> Steady(Play(history, ttlMs).keys))
            <==> ttlMs % 1000 == 0
  {
    var one := Timed(Rebuild(Recovery(2, 1, Alive), map["veteran" := 1]), 0);
    assert [one][..0] == [];
    assert Play([one], ttlMs) == Perform(Play([], ttlMs), one, ttlMs);
    RebuildRefines(one.call.rec, one.call.totals, ttlMs, 0);
    assert "veteran" in one.call.totals;
    assert Ordered([one]);
    assert Steady(Play([one], ttlMs).keys) <==> ttlMs % 1000 == 0;
    if ttlMs % 1000 == 0 {
      forall history: seq<Timed> | Ordered(history) ensures Steady(Play(history, ttlMs).keys) {
        var now := if history == [] then 0 else history[|history| - 1].at;
        PlayOnSchedule(history, ttlMs, now);
      }
    }
  }
}
