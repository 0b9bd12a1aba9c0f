/**
 * The group panel of the event block: the heading with its capacity badge,
 * the rule that a panel keeps the first group it is built for, and the member
 * delete that only touches members of the panel's own group. The database is
 * a small store of groups and members.
 */
module GroupPanel {
  import opened Wrappers
  import opened Text
  import opened DataTables

  datatype MemberStatus = Inactive | Active | Pending

  datatype GroupMember = GroupMember(id: int, groupId: int, status: MemberStatus)

  /** A group; a null Name formats as the empty string, a null Description is None. */
  datatype Group = Group(id: int, name: string, description: Option<string>, capacity: Option<int>)

  /** Members counted against the capacity: the active and the pending ones. */
  predicate Counts(m: GroupMember) {
    m.status == Active || m.status == Pending
  }

  /** The number of counted members. */
  function MemberCount(members: seq<GroupMember>): (r: nat)
    ensures r <= |members|
  {
    if |members| == 0 then 0
    else MemberCount(members[..|members| - 1]) + (if Counts(members[|members| - 1]) then 1 else 0)
  }

  /** The count is the whole membership exactly when every member is active or
      pending, and zero exactly when none is. */
  lemma {:induction false} MemberCountBounds(members: seq<GroupMember>)
    ensures MemberCount(members) == |members| <==> forall i :: 0 <= i < |members| ==> Counts(members[i])
    ensures MemberCount(members) == 0 <==> forall i :: 0 <= i < |members| ==> !Counts(members[i])
  {
    if |members| > 0 {
      var prefix := members[..|members| - 1];
      MemberCountBounds(prefix);
      assert forall i :: 0 <= i < |prefix| ==> prefix[i] == members[i];
    }
  }

  /** One more member raises the count by one if it is active or pending and
      leaves it alone if it is inactive. */
  lemma MemberCountStep(members: seq<GroupMember>, m: GroupMember)
    ensures MemberCount(members + [m]) == MemberCount(members) + (if Counts(m) then 1 else 0)
  {
    assert (members + [m])[..|members + [m]| - 1] == members;
  }

  /** The count of two member lists taken one after the other is the sum of their counts. */
  lemma {:induction false} MemberCountOfConcat(a: seq<GroupMember>, b: seq<GroupMember>)
    ensures MemberCount(a + b) == MemberCount(a) + MemberCount(b)
    decreases |b|
  {
    if |b| > 0 {
      var b' := b[..|b| - 1];
      assert a + b == (a + b') + [b[|b| - 1]];
      assert b == b' + [b[|b| - 1]];
      MemberCountOfConcat(a, b');
      MemberCountStep(a + b', b[|b| - 1]);
      MemberCountStep(b', b[|b| - 1]);
    } else {
      assert a + b == a;
    }
  }

  /** Against a positive capacity a count is at, over or under capacity. */
  datatype Fill = AtCapacity | OverCapacity | UnderCapacity

  function Classify(count: int, capacity: int): (r: Fill)
    ensures r == AtCapacity <==> capacity == count
    ensures r == OverCapacity <==> capacity < count
    ensures r == UnderCapacity <==> capacity > count
  {
    if capacity == count then AtCapacity
    else if capacity < count then OverCapacity
    else UnderCapacity
  }

  /** The Bootstrap label class of each fill. */
  function LabelClass(fill: Fill): string {
    match fill
    case AtCapacity => "label-warning"
    case OverCapacity => "label-danger"
    case UnderCapacity => "label-success"
  }

  function NameSpan(name: string): string {
    "<span class='span-panel-heading'>" + name + "</span>"
  }

  /** The badge "count/capacity" in its label. */
  function Badge(count: int, capacity: int): string {
    "&nbsp&nbsp<span class='label " + LabelClass(Classify(count, capacity)) + "'>"
      + IntToString(count) + "/" + IntToString(capacity) + "</span>"
  }

  /** Whether the group shows a badge: it has a capacity above zero. */
  predicate HasBadge(group: Group) {
    group.capacity.Some? && group.capacity.value > 0
  }

  /** The title BuildSubgroupHeading sets. */
  function Heading(g: Group, members: seq<GroupMember>): string {
    NameSpan(g.name) + (if HasBadge(g) then Badge(MemberCount(members), g.capacity.value) else "")
  }

  /** The members of a group are those the store files under its id. */
  function MembersOf(members: seq<GroupMember>, groupId: int): (r: seq<GroupMember>)
    ensures forall m :: m in r <==> m in members && m.groupId == groupId
  {
    if |members| == 0 then []
    else (if members[0].groupId == groupId then [members[0]] else []) + MembersOf(members[1..], groupId)
  }

  /** The badge classes: warning exactly at capacity, danger over it, success under it. */
  lemma BadgeClasses(count: int, capacity: int)
    ensures LabelClass(Classify(count, capacity)) == "label-warning" <==> capacity == count
    ensures LabelClass(Classify(count, capacity)) == "label-danger" <==> capacity < count
    ensures LabelClass(Classify(count, capacity)) == "label-success" <==> capacity > count
  {
  }

  /** The member the store holds under `id`, first match. */
  function FindMember(members: seq<GroupMember>, id: int): (r: Option<nat>)
    ensures r.Some? ==> r.value < |members| && members[r.value].id == id
    ensures r.Some? ==> forall i :: 0 <= i < r.value ==> members[i].id != id
    ensures r.None? ==> forall i :: 0 <= i < |members| ==> members[i].id != id
  {
    if |members| == 0 then None
    else if members[0].id == id then Some(0)
    else match FindMember(members[1..], id)
      case None => None
      case Some(i) => Some(i + 1)
  }

  function FindGroup(groups: seq<Group>, id: int): (r: Option<Group>)
    ensures r.Some? ==> r.value in groups && r.value.id == id
    ensures r.None? ==> forall i :: 0 <= i < |groups| ==> groups[i].id != id
  {
    if |groups| == 0 then None
    else if groups[0].id == id then Some(groups[0])
    else FindGroup(groups[1..], id)
  }

  /** The database: groups and their members. */
  class Store {
    var groups: seq<Group>
    var members: seq<GroupMember>

    constructor (groups: seq<Group>, members: seq<GroupMember>)
      ensures this.groups == groups && this.members == members
    {
      this.groups := groups;
      this.members := members;
    }
  }

  class Panel {
    const store: Store
    /** The `_group` field. */
    var group: Option<Group>
    /** pnlSubGroup.Title. */
    var title: string
    /** pnlGroupDescription's visibility and lblGroupDescription's text. */
    var descriptionShown: bool
    var descriptionText: Option<string>
    /** gGroupMembers.DataSource. */
    var gridSource: seq<GroupMember>

    constructor (store: Store)
      ensures this.store == store && group.None? && title == ""
      ensures !descriptionShown && descriptionText.None? && gridSource == []
    {
      this.store := store;
      group := None;
      title := "";
      descriptionShown := false;
      descriptionText := None;
      gridSource := [];
    }

    /** BuildSubgroupHeading: the name span, then the badge when the group has
        a positive capacity. */
    method BuildSubgroupHeading(g: Group, members: seq<GroupMember>)
      modifies this
      ensures title == Heading(g, members)
      ensures group == old(group) && gridSource == old(gridSource)
      ensures descriptionShown == old(descriptionShown) && descriptionText == old(descriptionText)
    {
      title := NameSpan(g.name);
      var count := MemberCount(members);
      if g.capacity.Some? && g.capacity.value > 0 {
        var capacityRatio := "";
        if g.capacity.value == count {
          capacityRatio := "&nbsp&nbsp<span class='label " + "label-warning" + "'>" + IntToString(count) + "/" + IntToString(g.capacity.value) + "</span>";
        } else if g.capacity.value < count {
          capacityRatio := "&nbsp&nbsp<span class='label " + "label-danger" + "'>" + IntToString(count) + "/" + IntToString(g.capacity.value) + "</span>";
        } else {
          capacityRatio := "&nbsp&nbsp<span class='label " + "label-success" + "'>" + IntToString(count) + "/" + IntToString(g.capacity.value) + "</span>";
        }
        title := title + capacityRatio;
      }
    }

    /** BuildControl(group): the panel adopts the group only when it has none
        yet, then shows that group's description, heading and members. */
    method BuildControl(g: Group)
      modifies this
      ensures group == if old(group).None? then Some(g) else old(group)
      ensures descriptionShown == !IsNullOrWhiteSpace(g.description) && descriptionText == g.description
      ensures title == Heading(g, MembersOf(store.members, g.id))
      ensures gridSource == MembersOf(store.members, g.id)
    {
      if group.None? {
        group := Some(g);
      }
      descriptionShown := !IsNullOrWhiteSpace(g.description);
      descriptionText := g.description;
      var members := MembersOf(store.members, g.id);
      BuildSubgroupHeading(g, members);
      gridSource := members;
    }

    /** BuildControl(): rebuilds for the panel's group, if it has one. */
    method Rebuild()
      modifies this
      ensures group == old(group)
      ensures group.None? ==> && title == old(title) && gridSource == old(gridSource)
                              && descriptionShown == old(descriptionShown) && descriptionText == old(descriptionText)
      ensures group.Some? ==>
                var g := group.value;
                && gridSource == MembersOf(store.members, g.id)
                && title == Heading(g, MembersOf(store.members, g.id))
                && descriptionShown == !IsNullOrWhiteSpace(g.description) && descriptionText == g.description
    {
      if group.Some? {
        BuildControl(group.value);
      }
    }

    /** DeleteGroupMember_Click for the row key `id`: deletes the member only
        when it exists and belongs to the panel's group, then reloads that group
        and rebuilds the grid and the heading. Reading the panel's group when it
        has none throws, and so does a group that is no longer stored. */
    method DeleteGroupMember(id: int) returns (o: Outcome)
      modifies this, store
      ensures store.groups == old(store.groups) && group == old(group)
      ensures var found := FindMember(old(store.members), id);
              if found.Some? && old(group).Some? && old(store.members)[found.value].groupId == old(group).value.id then
                && store.members == old(store.members)[..found.value] + old(store.members)[found.value + 1..]
                && (o.Pass? <==> FindGroup(store.groups, group.value.id).Some?)
                && (o.Pass? ==> gridSource == MembersOf(store.members, group.value.id)
                                && title == Heading(FindGroup(store.groups, group.value.id).value, gridSource))
                && (o.Fail? ==> gridSource == old(gridSource) && title == old(title))
              else
                && store.members == old(store.members)
                && gridSource == old(gridSource) && title == old(title)
                && (o.Fail? <==> found.Some? && old(group).None?)
      ensures o.Fail? ==> o.message == NullReferenceMessage
      ensures descriptionShown == old(descriptionShown) && descriptionText == old(descriptionText)
    {
      var found := FindMember(store.members, id);
      if found.None? {
        return Pass;
      }
      var member := store.members[found.value];
      if group.None? {
        return Fail(NullReferenceMessage);
      }
      if member.groupId != group.value.id {
        return Pass;
      }
      store.members := store.members[..found.value] + store.members[found.value + 1..];
      var reloaded := FindGroup(store.groups, member.groupId);
      if reloaded.None? {
        return Fail(NullReferenceMessage);
      }
      var members := MembersOf(store.members, reloaded.value.id);
      gridSource := members;
      BuildSubgroupHeading(reloaded.value, members);
      o := Pass;
    }
  }

  /** A delete takes exactly the one member out of the store. */
  lemma DeleteRemovesOne(members: seq<GroupMember>, i: nat)
    requires i < |members|
    ensures multiset(members[..i] + members[i + 1..]) + multiset{members[i]} == multiset(members)
    ensures MemberCount(members[..i] + members[i + 1..]) + (if Counts(members[i]) then 1 else 0) == MemberCount(members)
  {
    SplitAt(members, i);
    MultisetWithout(members[..i], members[i], members[i + 1..]);
    CountWithout(members[..i], members[i], members[i + 1..]);
  }

  lemma SplitAt(members: seq<GroupMember>, i: nat)
    requires i < |members|
    ensures members == members[..i] + [members[i]] + members[i + 1..]
  {
  }

  lemma MultisetWithout(pre: seq<GroupMember>, x: GroupMember, post: seq<GroupMember>)
    ensures multiset(pre + post) + multiset{x} == multiset(pre + [x] + post)
  {
    calc {
      multiset(pre + [x] + post);
      multiset(pre + [x]) + multiset(post);
      multiset(pre) + multiset([x]) + multiset(post);
    }
  }

  lemma CountWithout(pre: seq<GroupMember>, x: GroupMember, post: seq<GroupMember>)
    ensures MemberCount(pre + post) + (if Counts(x) then 1 else 0) == MemberCount(pre + [x] + post)
  {
    MemberCountOfConcat(pre + [x], post);
    MemberCountOfConcat(pre, post);
    MemberCountStep(pre, x);
  }

  /** The heading always opens with the name span, and is longer than it
      exactly when a badge follows. */
  lemma HeadingShape(g: Group, members: seq<GroupMember>)
    ensures |Heading(g, members)| >= |NameSpan(g.name)|
    ensures Heading(g, members)[..|NameSpan(g.name)|] == NameSpan(g.name)
    ensures |Heading(g, members)| > |NameSpan(g.name)| <==> HasBadge(g)
  {
  }
}
