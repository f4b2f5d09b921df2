/**
 * The TV state-change callback: it makes a copy of the reported state with
 * the app list and the input list emptied and every other field kept.
 * The record below stands for aiowebostv's state dataclass, which is not part
 * of this model; its fields other than `apps` and `inputs` are representative.
 */
module TvState {
  import opened Wrappers

  /** An entry of the app or input list, keyed by its id. */
  datatype Entry = Entry(id: string, title: string)

  datatype State = State(
    isOn: bool,
    isScreenOn: bool,
    currentAppId: Option<string>,
    muted: Option<bool>,
    volume: Option<int>,
    soundOutput: Option<string>,
    apps: map<string, Entry>,
    inputs: map<string, Entry>)

  /** `on_state_change`: the state with `apps` and `inputs` replaced by empty dictionaries. */
  function OnStateChange(s: State): (r: State)
    ensures r.apps == map[] && r.inputs == map[]
    ensures r.isOn == s.isOn && r.isScreenOn == s.isScreenOn
    ensures r.currentAppId == s.currentAppId && r.muted == s.muted
    ensures r.volume == s.volume && r.soundOutput == s.soundOutput
  {
    s.(apps := map[], inputs := map[])
  }

  /** Two states agree on every field except the two lists. */
  predicate SameExceptLists(s: State, t: State) {
    && s.isOn == t.isOn && s.isScreenOn == t.isScreenOn
    && s.currentAppId == t.currentAppId && s.muted == t.muted
    && s.volume == t.volume && s.soundOutput == t.soundOutput
  }

  /** Filtering forgets exactly the two lists: two states filter alike iff they agree elsewhere. */
  lemma FilterForgetsOnlyLists(s: State, t: State)
    ensures OnStateChange(s) == OnStateChange(t) <==> SameExceptLists(s, t)
  {
  }

  /** Filtering a filtered state changes nothing. */
  lemma FilterIdempotent(s: State)
    ensures OnStateChange(OnStateChange(s)) == OnStateChange(s)
  {
  }
}
