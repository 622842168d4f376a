/**
 * The readings kept in the dashboard's session state between interactions:
 * the last base elevation and the last weather reading that a fetch
 * actually returned.
 */
module Session {
  import opened Wrappers
  import opened Estimation

  /** What the store holds after a fetch whose outcome is `fetched`. */
  function Latest<T>(stored: Option<T>, fetched: Option<T>): (r: Option<T>)
    ensures fetched.Some? ==> r == fetched
    ensures fetched.None? ==> r == stored
    ensures r.None? ==> stored.None?
  {
    if fetched.Some? then fetched else stored
  }

  /** The store's value after the fetches `fetches`, applied first to last. */
  function Replay<T>(init: Option<T>, fetches: seq<Option<T>>): (r: Option<T>)
    ensures (forall i :: 0 <= i < |fetches| ==> fetches[i].None?) ==> r == init
    ensures init.Some? || (exists i :: 0 <= i < |fetches| && fetches[i].Some?) ==> r.Some?
    decreases |fetches|
  {
    if fetches == [] then init else Replay(Latest(init, fetches[0]), fetches[1..])
  }

  /**
   * The outcome of the last successful fetch, or `init` when none succeeded:
   * once any fetch has succeeded, the value is never absent again.
   */
  function LastSuccess<T>(init: Option<T>, fetches: seq<Option<T>>): (r: Option<T>)
    ensures (forall i :: 0 <= i < |fetches| ==> fetches[i].None?) ==> r == init
    ensures (exists i :: 0 <= i < |fetches| && fetches[i].Some?) ==> r.Some? && r in fetches
    decreases |fetches|
  {
    if fetches == [] then init
    else if fetches[|fetches| - 1].Some? then fetches[|fetches| - 1]
    else
      var earlier := fetches[..|fetches| - 1];
      assert forall i :: 0 <= i < |earlier| ==> earlier[i] == fetches[i];
      LastSuccess(init, earlier)
  }

  lemma {:induction false} LastSuccessCons<T>(init: Option<T>, x: Option<T>, rest: seq<Option<T>>)
    ensures LastSuccess(Latest(init, x), rest) == LastSuccess(init, [x] + rest)
    decreases |rest|
  {
    if rest != [] {
      var n := |rest|;
      assert ([x] + rest)[n] == rest[n - 1];
      if rest[n - 1].None? {
        LastSuccessCons(init, x, rest[..n - 1]);
        assert ([x] + rest)[..n] == [x] + rest[..n - 1];
      }
    }
  }

  /** Replaying a history of fetches leaves exactly the last successful outcome. */
  lemma {:induction false} ReplayIsLastSuccess<T>(init: Option<T>, fetches: seq<Option<T>>)
    ensures Replay(init, fetches) == LastSuccess(init, fetches)
    decreases |fetches|
  {
    if fetches != [] {
      ReplayIsLastSuccess(Latest(init, fetches[0]), fetches[1..]);
      LastSuccessCons(init, fetches[0], fetches[1..]);
      assert [fetches[0]] + fetches[1..] == fetches;
    }
  }

  /** The session-state store of fetched readings. */
  class ReadingStore {
    var baseElev: Option<real>
    var weatherData: Option<Weather>

    /** A new session starts with nothing stored. */
    constructor ()
      ensures baseElev == None && weatherData == None
    {
      baseElev := None;
      weatherData := None;
    }

    /**
     * Records the outcome of one press of the fetch button: a reading that
     * came back replaces the stored one; a failed fetch keeps it.
     */
    method Fetch(elev: Option<real>, weather: Option<Weather>)
      modifies this
      ensures elev.Some? ==> baseElev == elev
      ensures elev.None? ==> baseElev == old(baseElev)
      ensures weather.Some? ==> weatherData == weather
      ensures weather.None? ==> weatherData == old(weatherData)
      ensures baseElev == Latest(old(baseElev), elev) && weatherData == Latest(old(weatherData), weather)
    {
      if elev.Some? {
        baseElev := elev;
      }
      if weather.Some? {
        weatherData := weather;
      }
    }
  }
}
