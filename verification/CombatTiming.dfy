/** How long clients get to replay a battle, and how long its result is kept: backend/src/runtime/combat-timing.ts. */
module CombatTiming {
  import opened GameTypes
  import opened BattleSpec
  import opened BattleSlows
  import BattleLog

  const REAL_TIMEOUT_MS := 60000
  const PLAYBACK_MS := 800
  const GRACE_MS := 5000

  /** The configured timeout; None stands for a blank or non-integer setting. */
  function ConfiguredTimeout(raw: Option<int>): int {
    if raw.Some? && 250 <= raw.value <= 300000 then raw.value else REAL_TIMEOUT_MS
  }

  function TimeoutFor(eventCount: int, configured: int): int {
    if configured != REAL_TIMEOUT_MS then configured
    else Max(REAL_TIMEOUT_MS, Max(0, eventCount) * PLAYBACK_MS + GRACE_MS)
  }

  /** ceil(timeout / 1000) + 30, in seconds. */
  function ResultTtl(timeoutMs: int): int {
    (timeoutMs + 999) / 1000 + 30
  }

  /** The events that a client plays. */
  function Visible(events: seq<Event>): nat {
    if events == [] then 0
    else (if events[0].CycleEnd? || events[0].BattleEnd? || events[0].Death? then 0 else 1) + Visible(events[1..])
  }

  lemma {:induction false} VisibleBound(events: seq<Event>)
    ensures Visible(events) <= |events|
    decreases |events|
  {
    if events != [] {
      VisibleBound(events[1..]);
    }
  }

  /** What a client plays: everything but deaths and the two kinds of closing events. */
  predicate Shown(e: Event) {
    e.Attack? || e.Revive? || e.Heal? || e.Lifesteal? || e.Pierce? || e.Slow?
  }

  ghost function ShownAmong(events: seq<Event>): set<int> {
    set i | 0 <= i < |events| && Shown(events[i])
  }

  lemma {:induction false} VisibleCounts(events: seq<Event>)
    ensures Visible(events) == |ShownAmong(events)|
    decreases |events|
  {
    if events != [] {
      var n := |events| - 1;
      VisibleCounts(events[..n]);
      VisibleSnoc(events[..n], events[n]);
      assert events == events[..n] + [events[n]];
      var before := ShownAmong(events[..n]);
      assert ShownAmong(events) == if Shown(events[n]) then before + {n} else before;
    }
  }

  lemma {:induction false} VisibleSnoc(events: seq<Event>, e: Event)
    ensures Visible(events + [e]) == Visible(events) + if Shown(e) then 1 else 0
    decreases |events|
  {
    if events != [] {
      VisibleSnoc(events[1..], e);
      assert (events + [e])[1..] == events[1..] + [e];
    }
  }

  /** A setting from 250 to 300000 ms other than 60000 is used as it is; otherwise the log decides. */
  lemma TimeoutIs(events: seq<Event>, raw: Option<int>)
    ensures
      var timeout := TimeoutFor(Visible(events), ConfiguredTimeout(raw));
      if raw.Some? && raw.value != 60000 && 250 <= raw.value <= 300000 then timeout == raw.value
      else timeout == if |ShownAmong(events)| > 68 then |ShownAmong(events)| * 800 + 5000 else 60000
  {
    VisibleCounts(events);
  }

  /**
   * For the battle of any n units: the cached result outlives the timeout by at least 30
   * seconds and less than 31; without an override every visible event can be played in time,
   * and nobody waits longer than the largest possible log takes.
   */
  lemma BattleTiming(b: Board, layout: seq<Pos>, initSide: Side, raw: Option<int>)
    requires SlowsSound(b)
    ensures
      var visible := Visible(AllEvents(Battle(b, layout, initSide)));
      var timeout := TimeoutFor(visible, ConfiguredTimeout(raw));
      && timeout + 30000 <= ResultTtl(timeout) * 1000 < timeout + 31000
      && (ConfiguredTimeout(raw) == REAL_TIMEOUT_MS ==>
        && timeout >= visible * PLAYBACK_MS + GRACE_MS && timeout >= REAL_TIMEOUT_MS
        && timeout <= Max(REAL_TIMEOUT_MS, (480 * |b| + 31) * PLAYBACK_MS + GRACE_MS))
      && (ConfiguredTimeout(raw) != REAL_TIMEOUT_MS ==> 250 <= timeout <= 300000)
  {
    VisibleBound(AllEvents(Battle(b, layout, initSide)));
    BattleLog.BattleSize(b, layout, initSide);
  }
}
