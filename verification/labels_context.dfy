/**
 * The labels provider: in-memory caches of the server's labels and
 * categories and a shared loading flag. Unlike notes, a created item is
 * appended at the end of its list, and a failed fetch empties the list.
 */
module LabelsContext {
  import opened Wrappers
  import opened Seqs

  /**
   * A label or a category as the server sends it. The two share every field
   * except the category's parent, which labels never carry.
   */
  datatype Item = Item(
    id: int,
    name: string,
    color: string,
    icon: string,
    description: Option<string>,
    parentCategoryId: Option<int>,
    createdAt: string,
    updatedAt: string)

  function ItemId(it: Item): int { it.id }

  /**
   * The list a fetch leaves behind: the response's list, or the empty list
   * when the response has no such field or the request failed.
   */
  function FetchedList(reply: Reply<Option<seq<Item>>>): (items: seq<Item>)
    ensures reply.Fail? ==> items == []
    ensures reply.Ok? && reply.value.None? ==> items == []
    ensures reply.Ok? && reply.value.Some? ==> items == reply.value.value
  {
    match reply
    case Ok(field) => field.GetOr([])
    case Fail(_) => []
  }

  /** A label created and then deleted leaves the list as it was, when its id was new. */
  lemma CreateThenDeleteRestores(items: seq<Item>, x: Item)
    requires forall i :: 0 <= i < |items| ==> items[i].id != x.id
    ensures RemoveWhere(items + [x], ItemId, x.id) == items
  {
    RemoveWhereAppendOne(items, x, ItemId, x.id);
    RemoveWhereAbsent(items, ItemId, x.id);
  }

  class LabelsStore {
    var labels: seq<Item>
    var categories: seq<Item>
    var loading: bool

    constructor ()
      ensures labels == [] && categories == [] && !loading
    {
      labels := [];
      categories := [];
      loading := false;
    }

    /** Loads the labels; never raises. `loading` ends false. */
    method FetchLabels(reply: Reply<Option<seq<Item>>>)
      modifies this`labels, this`loading
      ensures labels == FetchedList(reply) && !loading
    {
      loading := true;
      labels := FetchedList(reply);
      loading := false;
    }

    /** Loads the categories; never raises. `loading` ends false. */
    method FetchCategories(reply: Reply<Option<seq<Item>>>)
      modifies this`categories, this`loading
      ensures categories == FetchedList(reply) && !loading
    {
      loading := true;
      categories := FetchedList(reply);
      loading := false;
    }

    method CreateLabel(reply: Reply<Item>) returns (r: Reply<Item>)
      modifies this`labels
      ensures r == reply
      ensures labels == if reply.Ok? then old(labels) + [reply.value] else old(labels)
    {
      if reply.Ok? {
        labels := labels + [reply.value];
      }
      r := reply;
    }

    method UpdateLabel(id: int, reply: Reply<Item>) returns (r: Reply<Item>)
      modifies this`labels
      ensures r == reply
      ensures labels == if reply.Ok? then ReplaceWhere(old(labels), ItemId, id, reply.value) else old(labels)
    {
      if reply.Ok? {
        labels := ReplaceWhere(labels, ItemId, id, reply.value);
      }
      r := reply;
    }

    method DeleteLabel(id: int, reply: Reply<()>) returns (r: Reply<()>)
      modifies this`labels
      ensures r == reply
      ensures labels == if reply.Ok? then RemoveWhere(old(labels), ItemId, id) else old(labels)
    {
      if reply.Ok? {
        labels := RemoveWhere(labels, ItemId, id);
      }
      r := reply;
    }

    method CreateCategory(reply: Reply<Item>) returns (r: Reply<Item>)
      modifies this`categories
      ensures r == reply
      ensures categories == if reply.Ok? then old(categories) + [reply.value] else old(categories)
    {
      if reply.Ok? {
        categories := categories + [reply.value];
      }
      r := reply;
    }

    method UpdateCategory(id: int, reply: Reply<Item>) returns (r: Reply<Item>)
      modifies this`categories
      ensures r == reply
      ensures categories == if reply.Ok? then ReplaceWhere(old(categories), ItemId, id, reply.value) else old(categories)
    {
      if reply.Ok? {
        categories := ReplaceWhere(categories, ItemId, id, reply.value);
      }
      r := reply;
    }

    method DeleteCategory(id: int, reply: Reply<()>) returns (r: Reply<()>)
      modifies this`categories
      ensures r == reply
      ensures categories == if reply.Ok? then RemoveWhere(old(categories), ItemId, id) else old(categories)
    {
      if reply.Ok? {
        categories := RemoveWhere(categories, ItemId, id);
      }
      r := reply;
    }
  }
}
