/** The per-request response object the shop screen populates. */
module Viewpoints {
  import opened ShopTypes

  /** The actions registered under a group; a group never used has none. */
  function GroupActions(groups: map<GroupId, seq<Action>>, id: GroupId): seq<Action> {
    if id in groups then groups[id] else []
  }

  /** The action groups after `a` is appended to group `id`: that group gains `a` at its end,
      every other group keeps its actions. */
  function WithAction(groups: map<GroupId, seq<Action>>, id: GroupId, a: Action): (r: map<GroupId, seq<Action>>)
    ensures r.Keys == groups.Keys + {id}
    ensures GroupActions(r, id) == GroupActions(groups, id) + [a]
    ensures forall other :: other != id ==> GroupActions(r, other) == GroupActions(groups, other)
  {
    groups[id := GroupActions(groups, id) + [a]]
  }

  class Viewpoint {
    var description: string
    var attachments: seq<Form>
    var groups: map<GroupId, seq<Action>>
    /** Whether the viewpoint has been handed to the entity manager for persistence. */
    ghost var saved: bool

    constructor (description: string, attachments: seq<Form>, groups: map<GroupId, seq<Action>>)
      ensures this.description == description
      ensures this.attachments == attachments
      ensures this.groups == groups
      ensures !saved
    {
      this.description := description;
      this.attachments := attachments;
      this.groups := groups;
      saved := false;
    }

    method SetDescription(d: string)
      modifies this`description
      ensures description == d
    {
      description := d;
    }

    method SetAttachments(a: seq<Form>)
      modifies this`attachments
      ensures attachments == a
    {
      attachments := a;
    }

    method AddActionToGroupId(a: Action, id: GroupId)
      modifies this`groups
      ensures groups == WithAction(old(groups), id, a)
    {
      groups := WithAction(groups, id, a);
    }

    method Save()
      modifies this`saved
      ensures saved
    {
      saved := true;
    }
  }
}
