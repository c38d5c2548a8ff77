/** How long the parts of a resolved segment are drawn, and from where: the display-duration pools and
    the running start of `getResolvedSegment`. These pools are not those of the timing engine. */
module SegmentDurations {
  import opened JsValues
  import opened TimingModel

  /** Does part `i` belong to its group, given the groups opened before it? */
  predicate Pools(parts: seq<PartInstance>, i: nat, groups: map<string, int>)
    requires i < |parts|
  {
    var group := parts[i].part.displayDurationGroup;
    group != "" && (group in groups || (i + 1 < |parts| && parts[i+1].part.displayDurationGroup == group))
  }

  /** What a member is drawn for when its group has `pool` in all, its own expected duration included. */
  function DrawnFrom(p: PartInstance, pool: int): int {
    Or(p.timings.duration, OrNum(Min(Or(p.part.displayDuration, 0), Expected(p)), pool))
  }

  function LeftIn(p: PartInstance, pool: int): int {
    Max(0, pool - Or(p.timings.duration, DrawnFrom(p, pool)))
  }

  function GroupsAfter(parts: seq<PartInstance>, i: nat, groups: map<string, int>): map<string, int>
    requires i < |parts|
  {
    var p, group := parts[i], parts[i].part.displayDurationGroup;
    if Pools(parts, i, groups) then groups[group := LeftIn(p, Lookup(groups, group) + Expected(p))] else groups
  }

  /** How long part `i` is drawn, but for the fallback to the default duration. */
  function Drawn(parts: seq<PartInstance>, i: nat, groups: map<string, int>): int
    requires i < |parts|
  {
    var p := parts[i];
    if Pools(parts, i, groups) then DrawnFrom(p, Lookup(groups, p.part.displayDurationGroup) + Expected(p)) else Expected(p)
  }

  /** The pools after the first `i` parts. */
  function GroupsAt(parts: seq<PartInstance>, i: nat): map<string, int>
    requires i <= |parts|
  {
    if i == 0 then map[] else GroupsAfter(parts, i - 1, GroupsAt(parts, i - 1))
  }

  predicate IsMember(parts: seq<PartInstance>, i: nat)
    requires i < |parts|
  {
    Pools(parts, i, GroupsAt(parts, i))
  }

  function DrawnAt(parts: seq<PartInstance>, i: nat): int
    requires i < |parts|
  {
    Drawn(parts, i, GroupsAt(parts, i))
  }

  function RenderedAt(parts: seq<PartInstance>, default: int, i: nat): int
    requires i < |parts|
  {
    OrNum(DrawnAt(parts, i), default)
  }

  function StartAt(parts: seq<PartInstance>, default: int, i: nat): int
    requires i <= |parts|
  {
    if i == 0 then 0 else StartAt(parts, default, i - 1) + RenderedAt(parts, default, i - 1)
  }

  /** A resolved part: its `renderedDuration` and `startsAt`. */
  datatype Resolved = Resolved(rendered: int, startsAt: int)

  method ResolvePart(parts: seq<PartInstance>, i: nat, before: map<string, int>)
    returns (rendered: int, groups: map<string, int>)
    requires i < |parts|
    ensures rendered == Drawn(parts, i, before) && groups == GroupsAfter(parts, i, before)
  {
    var p := parts[i];
    var group := p.part.displayDurationGroup;
    rendered, groups := Expected(p), before;
    if && group != ""
       && (group in groups || (i + 1 < |parts| && parts[i+1].part.displayDurationGroup == group))
    {
      groups := groups[group := Lookup(groups, group) + Expected(p)];
      rendered := Or(p.timings.duration, OrNum(Min(Or(p.part.displayDuration, 0), Expected(p)), groups[group]));
      groups := groups[group := Max(0, groups[group] - Or(p.timings.duration, rendered))];
    }
  }

  method ResolveParts(parts: seq<PartInstance>, default: int) returns (resolved: seq<Resolved>, groups: map<string, int>)
    ensures |resolved| == |parts|
    ensures forall i :: 0 <= i < |parts| ==>
              resolved[i] == Resolved(RenderedAt(parts, default, i), StartAt(parts, default, i))
    ensures groups == GroupsAt(parts, |parts|)
  {
    resolved, groups := [], map[];
    var startsAt := 0;
    for i := 0 to |parts|
      invariant groups == GroupsAt(parts, i) && startsAt == StartAt(parts, default, i)
      invariant |resolved| == i
      invariant forall j :: 0 <= j < i ==>
          resolved[j] == Resolved(RenderedAt(parts, default, j), StartAt(parts, default, j))
    {
      var rendered;
      rendered, groups := ResolvePart(parts, i, groups);
      rendered := OrNum(rendered, default);
      resolved := resolved + [Resolved(rendered, startsAt)];
      startsAt := startsAt + rendered;
    }
  }

  // -------------------------------------------------------------------- pools by themselves

  predicate MemberOf(parts: seq<PartInstance>, group: string, i: nat)
    requires i < |parts|
  {
    parts[i].part.displayDurationGroup == group && IsMember(parts, i)
  }

  /** The members of one group among the first `i` parts, in order. */
  function MembersOf(parts: seq<PartInstance>, group: string, i: nat): seq<PartInstance>
    requires i <= |parts|
  {
    if i == 0 then []
    else MembersOf(parts, group, i - 1) + if MemberOf(parts, group, i - 1) then [parts[i-1]] else []
  }

  /** The pool of a group that has had just these members. */
  function PoolOf(members: seq<PartInstance>): int {
    if members == [] then 0
    else
      var last := members[|members|-1];
      LeftIn(last, PoolOf(members[..|members|-1]) + Expected(last))
  }

  function DrawnOf(members: seq<PartInstance>): int {
    if members == [] then 0
    else
      var front, last := members[..|members|-1], members[|members|-1];
      DrawnOf(front) + DrawnFrom(last, PoolOf(front) + Expected(last))
  }

  function ExpectedOf(members: seq<PartInstance>): int {
    if members == [] then 0 else ExpectedOf(members[..|members|-1]) + Expected(members[|members|-1])
  }

  lemma MembersGrow(parts: seq<PartInstance>, group: string, i: nat)
    requires i < |parts| && MemberOf(parts, group, i)
    ensures var members := MembersOf(parts, group, i + 1);
            members != [] && members[|members|-1] == parts[i] && members[..|members|-1] == MembersOf(parts, group, i)
  {
  }

  lemma GroupsAfterOther(parts: seq<PartInstance>, group: string, i: nat, groups: map<string, int>)
    requires i < |parts| && !(parts[i].part.displayDurationGroup == group && Pools(parts, i, groups))
    ensures group in GroupsAfter(parts, i, groups) <==> group in groups
    ensures Lookup(GroupsAfter(parts, i, groups), group) == Lookup(groups, group)
  {
  }

  lemma GroupsAfterMember(parts: seq<PartInstance>, group: string, i: nat, groups: map<string, int>)
    requires i < |parts| && parts[i].part.displayDurationGroup == group && Pools(parts, i, groups)
    ensures group in GroupsAfter(parts, i, groups)
    ensures Lookup(GroupsAfter(parts, i, groups), group) == LeftIn(parts[i], Lookup(groups, group) + Expected(parts[i]))
  {
  }

  lemma PoolGrows(members: seq<PartInstance>)
    requires members != []
    ensures PoolOf(members) ==
              LeftIn(members[|members|-1], PoolOf(members[..|members|-1]) + Expected(members[|members|-1]))
  {
  }

  /** However the groups are interleaved, the pool of each is that of its own members alone. */
  lemma {:induction false} GroupsDoNotMix(parts: seq<PartInstance>, group: string, i: nat)
    requires i <= |parts|
    ensures group in GroupsAt(parts, i) <==> MembersOf(parts, group, i) != []
    ensures Lookup(GroupsAt(parts, i), group) == PoolOf(MembersOf(parts, group, i))
  {
    if i > 0 {
      GroupsDoNotMix(parts, group, i - 1);
      if MemberOf(parts, group, i - 1) {
        MembersGrow(parts, group, i - 1);
        GroupsAfterMember(parts, group, i - 1, GroupsAt(parts, i - 1));
        PoolGrows(MembersOf(parts, group, i));
      } else {
        GroupsAfterOther(parts, group, i - 1, GroupsAt(parts, i - 1));
        assert MembersOf(parts, group, i) == MembersOf(parts, group, i - 1);
      }
    }
  }

  /** The times the members of a group are drawn for, where the walk comes to them. */
  function DrawnInGroup(parts: seq<PartInstance>, group: string, i: nat): int
    requires i <= |parts|
  {
    if i == 0 then 0
    else DrawnInGroup(parts, group, i - 1) + if MemberOf(parts, group, i - 1) then DrawnAt(parts, i - 1) else 0
  }

  lemma MemberIsDrawnFromPool(parts: seq<PartInstance>, group: string, i: nat)
    requires i < |parts| && MemberOf(parts, group, i)
    ensures DrawnAt(parts, i) == DrawnFrom(parts[i], PoolOf(MembersOf(parts, group, i)) + Expected(parts[i]))
  {
    GroupsDoNotMix(parts, group, i);
  }

  lemma DrawnGrows(members: seq<PartInstance>)
    requires members != []
    ensures var front, last := members[..|members|-1], members[|members|-1];
            DrawnOf(members) == DrawnOf(front) + DrawnFrom(last, PoolOf(front) + Expected(last))
  {
  }

  lemma NextDrawn(parts: seq<PartInstance>, group: string, i: nat)
    requires i < |parts|
    ensures DrawnInGroup(parts, group, i + 1) - DrawnInGroup(parts, group, i)
            == DrawnOf(MembersOf(parts, group, i + 1)) - DrawnOf(MembersOf(parts, group, i))
  {
    if MemberOf(parts, group, i) {
      MemberIsDrawnFromPool(parts, group, i);
      MembersGrow(parts, group, i);
      DrawnGrows(MembersOf(parts, group, i + 1));
    } else {
      assert MembersOf(parts, group, i + 1) == MembersOf(parts, group, i);
    }
  }

  lemma {:induction false} DrawnInGroupIsOfMembers(parts: seq<PartInstance>, group: string, i: nat)
    requires i <= |parts|
    ensures DrawnInGroup(parts, group, i) == DrawnOf(MembersOf(parts, group, i))
  {
    if i > 0 {
      DrawnInGroupIsOfMembers(parts, group, i - 1);
      NextDrawn(parts, group, i - 1);
    }
  }

  ghost predicate NonePlayed(members: seq<PartInstance>) {
    forall k :: 0 <= k < |members| ==> !Recorded(members[k])
  }

  lemma {:induction false} PoolKeepsTheRest(members: seq<PartInstance>)
    ensures PoolOf(members) >= 0
    ensures NonePlayed(members) ==> DrawnOf(members) + PoolOf(members) == ExpectedOf(members)
    ensures DrawnOf(members) + PoolOf(members) >= ExpectedOf(members)
  {
    if members != [] {
      PoolKeepsTheRest(members[..|members|-1]);
    }
  }

  /** A pool never goes negative. What a group with no played member draws and what it leaves is together
      what its members are expected to take; a played member can only draw more than that. */
  lemma PoolConservation(parts: seq<PartInstance>, group: string, i: nat)
    requires i <= |parts|
    ensures var drawn, left := DrawnInGroup(parts, group, i), Lookup(GroupsAt(parts, i), group);
            var members := MembersOf(parts, group, i);
            && left >= 0 && drawn + left >= ExpectedOf(members)
            && (NonePlayed(members) ==> drawn + left == ExpectedOf(members))
  {
    GroupsDoNotMix(parts, group, i);
    DrawnInGroupIsOfMembers(parts, group, i);
    PoolKeepsTheRest(MembersOf(parts, group, i));
  }

  // ------------------------------------------------------------ what a part is drawn for

  predicate NeighboursOf(parts: seq<PartInstance>, group: string, j: nat) {
    j + 1 < |parts| && parts[j].part.displayDurationGroup == group == parts[j+1].part.displayDurationGroup
  }

  /** A part belongs to its group exactly if, there or earlier, two parts of the group are next to each
      other: these open the pool, and it stays open. */
  lemma {:induction false} OpenedByNeighbours(parts: seq<PartInstance>, i: nat)
    requires i < |parts|
    ensures IsMember(parts, i) <==>
              var group := parts[i].part.displayDurationGroup;
              group != "" && exists j :: 0 <= j <= i && NeighboursOf(parts, group, j)
  {
    var group := parts[i].part.displayDurationGroup;
    if group != "" {
      GroupIsOpen(parts, group, i);
      assert NeighboursOf(parts, group, i) <==> i + 1 < |parts| && parts[i+1].part.displayDurationGroup == group;
    }
  }

  lemma {:induction false} GroupIsOpen(parts: seq<PartInstance>, group: string, i: nat)
    requires i <= |parts| && group != ""
    ensures group in GroupsAt(parts, i) <==> exists j :: 0 <= j < i && NeighboursOf(parts, group, j)
  {
    if i > 0 {
      GroupIsOpen(parts, group, i - 1);
      var groups := GroupsAt(parts, i - 1);
      if parts[i-1].part.displayDurationGroup == group && Pools(parts, i - 1, groups) {
        GroupsAfterMember(parts, group, i - 1, groups);
        assert NeighboursOf(parts, group, i - 1) || group in groups;
      } else {
        GroupsAfterOther(parts, group, i - 1, groups);
        assert !NeighboursOf(parts, group, i - 1);
      }
    }
  }

  /** A part outside all groups is drawn for what it is expected to take, or for the default. */
  lemma {:induction false} LonePartIsDrawnAsExpected(parts: seq<PartInstance>, default: int, i: nat)
    requires i < |parts| && !IsMember(parts, i)
    ensures RenderedAt(parts, default, i) == if Expected(parts[i]) != 0 then Expected(parts[i]) else default
    ensures GroupsAt(parts, i + 1) == GroupsAt(parts, i)
  {
  }

  /** A played member is drawn for exactly as long as it took. */
  lemma {:induction false} PlayedMemberIsDrawnAsPlayed(parts: seq<PartInstance>, default: int, i: nat)
    requires i < |parts| && IsMember(parts, i) && Recorded(parts[i])
    ensures Some(RenderedAt(parts, default, i)) == parts[i].timings.duration
  {
  }

  /** A lead-in, which has a display duration of its own, is drawn for that, as long as it is expected to take
      no less; what it does not need stays in the pool. */
  lemma {:induction false} LeadInIsDrawnAsPlanned(parts: seq<PartInstance>, default: int, i: nat, d: int)
    requires i < |parts| && IsMember(parts, i) && !Recorded(parts[i])
    requires parts[i].part.displayDuration == Some(d) && d > 0 && Expected(parts[i]) > 0
    ensures RenderedAt(parts, default, i) == (if d <= Expected(parts[i]) then d else Expected(parts[i]))
    ensures var group := parts[i].part.displayDurationGroup;
            Lookup(GroupsAt(parts, i + 1), group)
            == Lookup(GroupsAt(parts, i), group) + Expected(parts[i]) - RenderedAt(parts, default, i)
  {
    var group := parts[i].part.displayDurationGroup;
    GroupsDoNotMix(parts, group, i);
    PoolKeepsTheRest(MembersOf(parts, group, i));
    GroupsAfterMember(parts, group, i, GroupsAt(parts, i));
  }

  /** Any other member takes all that the members before it have left, and leaves nothing: so up to there, a
      group without played members is drawn for exactly what it is expected to take. */
  lemma {:induction false} MemberTakesTheRest(parts: seq<PartInstance>, i: nat)
    requires i < |parts| && IsMember(parts, i) && !Recorded(parts[i]) && !Truthy(parts[i].part.displayDuration)
    ensures var group := parts[i].part.displayDurationGroup;
            && DrawnAt(parts, i) == Lookup(GroupsAt(parts, i), group) + Expected(parts[i])
            && Lookup(GroupsAt(parts, i + 1), group) == 0
            && (NonePlayed(MembersOf(parts, group, i + 1)) ==>
                  DrawnInGroup(parts, group, i + 1) == ExpectedOf(MembersOf(parts, group, i + 1)))
  {
    var group := parts[i].part.displayDurationGroup;
    GroupsAfterMember(parts, group, i, GroupsAt(parts, i));
    PoolConservation(parts, group, i + 1);
  }

  // ------------------------------------------------------------------------------- starts

  /** No part has a negative recorded or display duration. */
  ghost predicate NonNegativeParts(parts: seq<PartInstance>) {
    forall i :: 0 <= i < |parts| ==>
      parts[i].timings.duration.GetOr(0) >= 0 && parts[i].part.displayDuration.GetOr(0) >= 0
  }

  lemma RenderedIsPositive(parts: seq<PartInstance>, default: int, i: nat)
    requires i < |parts| && default > 0 && NonNegativeParts(parts)
    ensures RenderedAt(parts, default, i) > 0
  {
    var p := parts[i];
    assert p.timings.duration.GetOr(0) >= 0 && p.part.displayDuration.GetOr(0) >= 0;
    var group := p.part.displayDurationGroup;
    GroupsDoNotMix(parts, group, i);
    PoolKeepsTheRest(MembersOf(parts, group, i));
  }

  /** With a positive default, every part starts after the one before it, and at its end. */
  lemma {:induction false} StartsIncrease(parts: seq<PartInstance>, default: int, i: nat, j: nat)
    requires i < j <= |parts| && default > 0 && NonNegativeParts(parts)
    ensures StartAt(parts, default, i) + RenderedAt(parts, default, i) <= StartAt(parts, default, j)
    ensures StartAt(parts, default, i) < StartAt(parts, default, j)
  {
    RenderedIsPositive(parts, default, i);
    if i < j - 1 {
      StartsIncrease(parts, default, i, j - 1);
      RenderedIsPositive(parts, default, j - 1);
    }
  }
}
