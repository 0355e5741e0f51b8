/** The status-tracking abstraction that the transformer reads: groups of
    status items, each item carrying a traffic-light status.  The lookups the
    transformer calls on a group but that are defined elsewhere (item
    resolution, the group summary and its green percentage, the text of an
    indicator value) are gathered in `Env` as total functions, so every
    result of the model is stated in terms of them. */
module StatusTracking {

  /** The three-valued traffic-light indicator of a status value. */
  datatype TrafficLight = Red | Yellow | Green

  /** The measured value of a status; its type and its `ToString` are not
      part of this model, so it is kept abstract. */
  type IndicatorValue

  datatype StatusValue = StatusValue(trafficLightIndicator: TrafficLight, indicatorValue: IndicatorValue)

  datatype StatusItem = StatusItem(displayName: string, description: string, statusValue: StatusValue)

  datatype GroupRole = Root | Other

  /** A group refers to its items by identifier; resolving them is the job
      of `Env.statusItems`. */
  datatype Group = Group(name: string, role: GroupRole, statusItemRefs: seq<string>)

  datatype Abstraction = Abstraction(groups: seq<Group>, statusItems: seq<StatusItem>)

  /** What the transformer reads of a group summary: its green percentage,
      kept as the already formatted string it is concatenated as. */
  datatype GroupSummary = GroupSummary(greenPercentage: string)

  /** The collaborators the transformer calls but does not define:
      - statusItems(grp, abs): the group's items (GetStatusItems);
      - groupSummary(grp, recursive, abs): the summary of the group, over its
        descendant groups too when `recursive` holds (GetGroupSummary);
      - indicatorText(v): the text of an indicator value (its ToString). */
  datatype Env = Env(
    statusItems: (Group, Abstraction) -> seq<StatusItem>,
    groupSummary: (Group, bool, Abstraction) -> GroupSummary,
    indicatorText: IndicatorValue -> string)

  /** The names of a sequence of groups, in order. */
  function Names(groups: seq<Group>): (names: seq<string>)
    ensures |names| == |groups|
    ensures forall i :: 0 <= i < |groups| ==> names[i] == groups[i].name
  {
    if groups == [] then [] else [groups[0].name] + Names(groups[1..])
  }
}
