/**
 * The prompt scheduler of a motion-sensor step: each spoken instruction is
 * registered under a whole-second key, and a cache of keys already spoken
 * makes every instruction fire at most once between two countdown resets.
 */
module Prompts {
  import opened Wrappers

  /** Swift's `Int(_:)` on a floating-point value: truncation toward zero. */
  function Trunc(x: real): (r: int)
    ensures 0.0 <= x ==> 0 <= r && r as real <= x < r as real + 1.0
    ensures x < 0.0 ==> r <= 0 && r as real - 1.0 < x <= r as real
  {
    if x >= 0.0 then x.Floor else -((-x).Floor)
  }

  function Min(a: real, b: real): real
  {
    if a <= b then a else b
  }

  /** The cache key of a request at elapsed time `t`: the whole seconds of `min(t, duration)`. */
  function Key(t: real, duration: real): (k: int)
    ensures 0.0 <= duration ==> k as real <= duration
    ensures 0.0 <= t && 0.0 <= duration ==> 0 <= k
    ensures 0.0 <= t <= duration ==> k as real <= t < k as real + 1.0
    ensures 0.0 <= duration <= t ==> k as real <= duration < k as real + 1.0
  {
    Trunc(Min(t, duration))
  }

  /** What one request leaves behind: the new cache and the text handed to the speech engine, if any. */
  datatype SpeakOutcome = SpeakOutcome(cache: set<int>, utterance: Option<string>)

  /** One `speak(at: t)` request against the cache `cache`. */
  function SpeakStep(cache: set<int>, instructions: map<int, string>, duration: real, t: real): (r: SpeakOutcome)
    ensures var k := Key(t, duration);
      && (r.utterance.Some? <==> k !in cache && k in instructions)
      && (r.utterance.Some? ==> r.utterance.value == instructions[k] && r.cache == cache + {k})
      && (r.utterance.None? ==> r.cache == cache)
  {
    var k := Key(t, duration);
    if k !in cache && k in instructions then
      SpeakOutcome(cache + {k}, Some(instructions[k]))
    else
      SpeakOutcome(cache, None)
  }

  /** The speech log entries of one request. */
  function UtteranceLog(u: Option<string>): seq<string>
  {
    if u.Some? then [u.value] else []
  }

  /** A request can only add a key that has an instruction, so the cache stays within the registered keys. */
  lemma SpeakKeepsCacheRegistered(cache: set<int>, instructions: map<int, string>, duration: real, t: real)
    requires cache <= instructions.Keys
    ensures var r := SpeakStep(cache, instructions, duration, t);
      cache <= r.cache <= instructions.Keys
  {
  }

  /** Two requests whose times truncate to the same key speak at most once: the second is silent. */
  lemma SameKeySpeaksOnce(cache: set<int>, instructions: map<int, string>, duration: real, t1: real, t2: real)
    requires Key(t1, duration) == Key(t2, duration)
    ensures var r := SpeakStep(SpeakStep(cache, instructions, duration, t1).cache, instructions, duration, t2);
      r.utterance == None && r.cache == SpeakStep(cache, instructions, duration, t1).cache
  {
  }

  /**
   * A key spoken from any cache `cache` stays silent until a reset; once the
   * reset has emptied the cache, a request with the same key speaks the same
   * text again.
   */
  lemma SpokenAgainAfterReset(cache: set<int>, instructions: map<int, string>, duration: real, t: real, t': real)
    requires Key(t, duration) == Key(t', duration)
    requires SpeakStep(cache, instructions, duration, t).utterance.Some?
    ensures var first := SpeakStep(cache, instructions, duration, t);
      && SpeakStep(first.cache, instructions, duration, t').utterance == None
      && SpeakStep({}, instructions, duration, t').utterance == first.utterance
  {
  }

  /** The state after a series of requests: the final cache and the keys spoken, in order. */
  datatype SpeakTrace = SpeakTrace(cache: set<int>, fired: seq<int>)

  /** Requests at the times `ts`, one after the other, with no reset in between. */
  function SpeakRun(cache: set<int>, instructions: map<int, string>, duration: real, ts: seq<real>): SpeakTrace
    decreases |ts|
  {
    if ts == [] then SpeakTrace(cache, [])
    else
      var s := SpeakStep(cache, instructions, duration, ts[0]);
      var rest := SpeakRun(s.cache, instructions, duration, ts[1..]);
      SpeakTrace(rest.cache, (if s.utterance.Some? then [Key(ts[0], duration)] else []) + rest.fired)
  }

  /**
   * Between two resets every registered prompt fires at most once, however
   * often and in whatever order the times are requested, and every registered
   * key that some request reaches is in the cache afterwards. The cache only
   * grows, by exactly the keys spoken.
   */
  lemma {:induction false} EachPromptFiresOnce(cache: set<int>, instructions: map<int, string>, duration: real, ts: seq<real>)
    ensures var r := SpeakRun(cache, instructions, duration, ts);
      && r.cache == cache + (set k | k in r.fired)
      && (forall i, j :: 0 <= i < j < |r.fired| ==> r.fired[i] != r.fired[j])
      && (forall i :: 0 <= i < |r.fired| ==> r.fired[i] !in cache && r.fired[i] in instructions)
      && (forall i :: 0 <= i < |ts| && Key(ts[i], duration) in instructions ==> Key(ts[i], duration) in r.cache)
    decreases |ts|
  {
    if ts != [] {
      var s := SpeakStep(cache, instructions, duration, ts[0]);
      var rest := SpeakRun(s.cache, instructions, duration, ts[1..]);
      EachPromptFiresOnce(s.cache, instructions, duration, ts[1..]);
      var r := SpeakRun(cache, instructions, duration, ts);
      var head := if s.utterance.Some? then [Key(ts[0], duration)] else [];
      assert r.fired == head + rest.fired;
      assert rest.cache <= r.cache;
      forall i | 0 <= i < |ts| && Key(ts[i], duration) in instructions
        ensures Key(ts[i], duration) in r.cache
      {
        if i > 0 {
          assert ts[i] == ts[1..][i - 1];
        }
      }
      assert (set k | k in r.fired) == (set k | k in head) + (set k | k in rest.fired);
    }
  }
}
