/**
 * The experience list's expand toggles: per entry index, whether the architecture and the
 * metrics panels are open. An entry that was never toggled is absent, and a flag that was never
 * set is absent from its entry; both read as closed.
 */
module Experience {
  import opened Wrappers

  /** `{ architecture, metrics }` as stored; a flag the spread did not carry over is `None`. */
  datatype Expanded = Expanded(architecture: Option<bool>, metrics: Option<bool>)

  /** `flag || false` for a flag that may be undefined. */
  function IsOn(flag: Option<bool>): bool {
    flag == Some(true)
  }

  /** `expandedStates[index]?.architecture || false` */
  function ShowsArchitecture(states: map<nat, Expanded>, index: nat): bool {
    index in states && IsOn(states[index].architecture)
  }

  /** `expandedStates[index]?.metrics || false` */
  function ShowsMetrics(states: map<nat, Expanded>, index: nat): bool {
    index in states && IsOn(states[index].metrics)
  }

  /**
   * The update of `handleToggleArchitecture`: entry `index` gets the negated architecture flag
   * and keeps whatever metrics flag it had (none for a new entry); no other entry changes.
   */
  function ToggleArchitecture(states: map<nat, Expanded>, index: nat): (r: map<nat, Expanded>)
    ensures r.Keys == states.Keys + {index}
    ensures forall j :: j in states && j != index ==> r[j] == states[j]
    ensures ShowsArchitecture(r, index) == !ShowsArchitecture(states, index)
    ensures r[index].metrics == if index in states then states[index].metrics else None
  {
    var entry := if index in states then states[index] else Expanded(None, None);
    states[index := entry.(architecture := Some(!IsOn(entry.architecture)))]
  }

  /** The update of `handleToggleMetrics`, the same with the two flags exchanged. */
  function ToggleMetrics(states: map<nat, Expanded>, index: nat): (r: map<nat, Expanded>)
    ensures r.Keys == states.Keys + {index}
    ensures forall j :: j in states && j != index ==> r[j] == states[j]
    ensures ShowsMetrics(r, index) == !ShowsMetrics(states, index)
    ensures r[index].architecture == if index in states then states[index].architecture else None
  {
    var entry := if index in states then states[index] else Expanded(None, None);
    states[index := entry.(metrics := Some(!IsOn(entry.metrics)))]
  }

  /** A toggle changes what one panel of one entry shows and nothing else that is shown. */
  lemma ToggleChangesOnePanel(states: map<nat, Expanded>, index: nat, j: nat)
    ensures ShowsMetrics(ToggleArchitecture(states, index), j) == ShowsMetrics(states, j)
    ensures j != index ==> ShowsArchitecture(ToggleArchitecture(states, index), j) == ShowsArchitecture(states, j)
    ensures ShowsArchitecture(ToggleMetrics(states, index), j) == ShowsArchitecture(states, j)
    ensures j != index ==> ShowsMetrics(ToggleMetrics(states, index), j) == ShowsMetrics(states, j)
  {
  }

  /** Nothing is shown before any toggle, and the first toggle of a panel opens it. */
  lemma FirstToggleOpens(index: nat)
    ensures !ShowsArchitecture(map[], index) && !ShowsMetrics(map[], index)
    ensures ShowsArchitecture(ToggleArchitecture(map[], index), index)
    ensures ShowsMetrics(ToggleMetrics(map[], index), index)
  {
  }

  /**
   * Toggling the same panel twice shows what was shown before, although the stored entry may
   * differ (an absent flag comes back as `false`).
   */
  lemma ToggleTwiceRestores(states: map<nat, Expanded>, index: nat, j: nat)
    ensures ShowsArchitecture(ToggleArchitecture(ToggleArchitecture(states, index), index), j)
         == ShowsArchitecture(states, j)
    ensures ShowsMetrics(ToggleMetrics(ToggleMetrics(states, index), index), j) == ShowsMetrics(states, j)
  {
    if j != index {
      ToggleChangesOnePanel(states, index, j);
      ToggleChangesOnePanel(ToggleArchitecture(states, index), index, j);
      ToggleChangesOnePanel(ToggleMetrics(states, index), index, j);
    }
  }

  /** The component's state: `expandedStates`, replaced by each toggle. */
  class ExperienceState {
    var expandedStates: map<nat, Expanded>

    constructor()
      ensures expandedStates == map[]
    {
      expandedStates := map[];
    }

    /** `handleToggleArchitecture(index)` */
    method HandleToggleArchitecture(index: nat)
      modifies this
      ensures expandedStates == ToggleArchitecture(old(expandedStates), index)
      ensures ShowsArchitecture(expandedStates, index) == !ShowsArchitecture(old(expandedStates), index)
    {
      var entry := if index in expandedStates then expandedStates[index] else Expanded(None, None);
      expandedStates := expandedStates[index := entry.(architecture := Some(!IsOn(entry.architecture)))];
    }

    /** `handleToggleMetrics(index)` */
    method HandleToggleMetrics(index: nat)
      modifies this
      ensures expandedStates == ToggleMetrics(old(expandedStates), index)
      ensures ShowsMetrics(expandedStates, index) == !ShowsMetrics(old(expandedStates), index)
    {
      var entry := if index in expandedStates then expandedStates[index] else Expanded(None, None);
      expandedStates := expandedStates[index := entry.(metrics := Some(!IsOn(entry.metrics)))];
    }
  }
}
