/**
 * The notification store: the message list with read flags, the unread
 * counters and the tab filter computed from it, and the paging counters.
 */
module Notifications {
  import opened Wrappers
  import opened Seqs

  /** `NotificationMessage`; `kind` is the message's `type`. */
  datatype Message = Message(id: string, title: string, content: string, kind: string, isRead: bool, createdAt: string)

  predicate IsUnread(m: Message) {
    !m.isRead
  }

  function UnreadOfKind(t: string): Message -> bool {
    (m: Message) => !m.isRead && m.kind == t
  }

  function HasId(id: string): Message -> bool {
    (m: Message) => m.id == id
  }

  /** `unreadCount` */
  function UnreadCount(ms: seq<Message>): nat {
    Count(ms, IsUnread)
  }

  /** `unreadCountByType`: one counter per type with unread messages. */
  function UnreadCountByType(ms: seq<Message>): map<string, nat> {
    if ms == [] then map[]
    else
      var counts := UnreadCountByType(ms[..|ms| - 1]);
      var m := ms[|ms| - 1];
      if m.isRead then counts
      else counts[m.kind := (if m.kind in counts then counts[m.kind] else 0) + 1]
  }

  /**
   * The keys of `unreadCountByType` in the order they were created. For type
   * names that are not integer-like this is the order `Object.values` lists
   * them in; JavaScript would list integer-like names first, ascending.
   */
  function UnreadTypes(ms: seq<Message>): seq<string> {
    if ms == [] then []
    else
      var keys := UnreadTypes(ms[..|ms| - 1]);
      var m := ms[|ms| - 1];
      if !m.isRead && m.kind !in keys then keys + [m.kind] else keys
  }

  /** The sum of the counters listed in `keys`. */
  function SumAt(counts: map<string, nat>, keys: seq<string>): nat {
    if keys == [] then 0
    else SumAt(counts, keys[..|keys| - 1]) + (if keys[|keys| - 1] in counts then counts[keys[|keys| - 1]] else 0)
  }

  /** The counter of type `t` exists exactly when some message of that type is unread, and holds how many are. */
  lemma {:induction false} UnreadCountByTypeSpec(ms: seq<Message>, t: string)
    ensures t in UnreadCountByType(ms) <==> Count(ms, UnreadOfKind(t)) > 0
    ensures t in UnreadCountByType(ms) ==> UnreadCountByType(ms)[t] == Count(ms, UnreadOfKind(t))
  {
    if ms != [] {
      UnreadCountByTypeSpec(ms[..|ms| - 1], t);
    }
  }

  /** The listed keys are the counters' keys, each once. */
  lemma {:induction false} UnreadTypesSpec(ms: seq<Message>)
    ensures Distinct(UnreadTypes(ms))
    ensures forall t :: t in UnreadTypes(ms) <==> t in UnreadCountByType(ms)
  {
    if ms != [] {
      UnreadTypesSpec(ms[..|ms| - 1]);
    }
  }

  lemma {:induction false} SumAtOther(counts: map<string, nat>, keys: seq<string>, t: string, v: nat)
    requires t !in keys
    ensures SumAt(counts[t := v], keys) == SumAt(counts, keys)
  {
    if keys != [] {
      SumAtOther(counts, keys[..|keys| - 1], t, v);
    }
  }

  lemma {:induction false} SumAtIncrement(counts: map<string, nat>, keys: seq<string>, t: string)
    requires Distinct(keys) && t in keys && t in counts
    ensures SumAt(counts[t := counts[t] + 1], keys) == SumAt(counts, keys) + 1
  {
    var init, last := keys[..|keys| - 1], keys[|keys| - 1];
    assert Distinct(init);
    if last == t {
      assert t !in init;
      SumAtOther(counts, init, t, counts[t] + 1);
    } else {
      assert t in init by {
        var k :| 0 <= k < |keys| && keys[k] == t;
        assert init[k] == t;
      }
      SumAtIncrement(counts, init, t);
    }
  }

  /** The per-type counters add up to `unreadCount`. */
  lemma {:induction false} CountsSumToUnread(ms: seq<Message>)
    ensures SumAt(UnreadCountByType(ms), UnreadTypes(ms)) == UnreadCount(ms)
  {
    if ms != [] {
      var init, m := ms[..|ms| - 1], ms[|ms| - 1];
      CountsSumToUnread(init);
      UnreadCountSnoc(init, m);
      assert ms == init + [m];
      UnreadTypesSpec(init);
      var counts, keys := UnreadCountByType(init), UnreadTypes(init);
      if m.isRead {
        assert UnreadCountByType(ms) == counts && UnreadTypes(ms) == keys;
      } else if m.kind in keys {
        assert UnreadCountByType(ms) == counts[m.kind := counts[m.kind] + 1] && UnreadTypes(ms) == keys;
        SumAtIncrement(counts, keys, m.kind);
      } else {
        var kinds := keys + [m.kind];
        assert UnreadCountByType(ms) == counts[m.kind := 1] && UnreadTypes(ms) == kinds;
        assert kinds[..|kinds| - 1] == keys;
        SumAtOther(counts, keys, m.kind, 1);
      }
    }
  }

  lemma UnreadCountSnoc(ms: seq<Message>, m: Message)
    ensures UnreadCount(ms + [m]) == UnreadCount(ms) + (if m.isRead then 0 else 1)
  {
    FilterConcat(ms, [m], IsUnread);
    FilterSingle(m, IsUnread);
  }

  /** The types a tab shows: its configured list when that is non-empty, `None` when the tab key itself is the type. */
  function TabTypes(tab: string, tabTypesMap: map<string, Option<seq<string>>>): Option<seq<string>> {
    if tab in tabTypesMap && tabTypesMap[tab].Some? && |tabTypesMap[tab].value| > 0 then tabTypesMap[tab] else None
  }

  function ShownOn(tab: string, tabTypesMap: map<string, Option<seq<string>>>): Message -> bool {
    (m: Message) =>
      match TabTypes(tab, tabTypesMap)
      case Some(types) => m.kind in types
      case None => m.kind == tab
  }

  /** `filteredMessages` */
  function FilteredMessages(ms: seq<Message>, tab: string, tabTypesMap: map<string, Option<seq<string>>>): seq<Message> {
    if tab == "all" then ms else Filter(ms, ShownOn(tab, tabTypesMap))
  }

  /**
   * The `'all'` tab shows the whole list; any other tab shows, in list
   * order, the messages whose type is in its configured list, or, when it
   * has none or an empty one, whose type is the tab key.
   */
  lemma FilteredMessagesSpec(ms: seq<Message>, tab: string, tabTypesMap: map<string, Option<seq<string>>>, m: Message)
    ensures tab == "all" ==> FilteredMessages(ms, tab, tabTypesMap) == ms
    ensures tab != "all" ==>
      (m in FilteredMessages(ms, tab, tabTypesMap) <==>
        m in ms &&
        if tab in tabTypesMap && tabTypesMap[tab].Some? && |tabTypesMap[tab].value| > 0
        then m.kind in tabTypesMap[tab].value
        else m.kind == tab)
  {
    FilterMembers(ms, ShownOn(tab, tabTypesMap), m);
  }

  /** `markAsRead` on the list: the first message with the id is marked, nothing else changes. */
  function MarkedRead(ms: seq<Message>, id: string): seq<Message> {
    var i := FindIndex(ms, HasId(id));
    if i == -1 then ms else ms[i := ms[i].(isRead := true)]
  }

  /** `!types || types.length === 0 || types.includes(m.type)` */
  predicate MarksKind(types: Option<seq<string>>, kind: string) {
    types.None? || |types.value| == 0 || kind in types.value
  }

  /** `markAllAsRead` on the list. */
  function MarkedAll(ms: seq<Message>, types: Option<seq<string>>): (r: seq<Message>)
    ensures |r| == |ms|
  {
    seq(|ms|, i requires 0 <= i < |ms| => if MarksKind(types, ms[i].kind) then ms[i].(isRead := true) else ms[i])
  }

  /**
   * Marking one message: an unknown id changes nothing; otherwise only the
   * first message with that id changes, only in its read flag, and the
   * unread count drops by one exactly when that message was unread.
   */
  lemma MarkedReadSpec(ms: seq<Message>, id: string)
    ensures |MarkedRead(ms, id)| == |ms|
    ensures (forall j :: 0 <= j < |ms| ==> ms[j].id != id) ==> MarkedRead(ms, id) == ms
    ensures forall j :: 0 <= j < |ms| && ms[j].id == id && (forall k :: 0 <= k < j ==> ms[k].id != id) ==>
      && MarkedRead(ms, id)[j] == ms[j].(isRead := true)
      && (forall k :: 0 <= k < |ms| && k != j ==> MarkedRead(ms, id)[k] == ms[k])
      && UnreadCount(MarkedRead(ms, id)) == UnreadCount(ms) - (if ms[j].isRead then 0 else 1)
  {
    forall j | 0 <= j < |ms| && ms[j].id == id && (forall k :: 0 <= k < j ==> ms[k].id != id)
      ensures UnreadCount(MarkedRead(ms, id)) == UnreadCount(ms) - (if ms[j].isRead then 0 else 1)
    {
      FindIndexAt(ms, HasId(id), j);
      CountUpdate(ms, j, ms[j].(isRead := true), IsUnread);
    }
  }

  /** With no type list every message ends up read; with one, exactly the listed types are read and the rest are untouched. */
  lemma {:induction false} MarkedAllSpec(ms: seq<Message>, types: Option<seq<string>>)
    ensures types.None? || types == Some([]) ==> UnreadCount(MarkedAll(ms, types)) == 0
    ensures forall t :: t in UnreadCountByType(MarkedAll(ms, types)) ==> !MarksKind(types, t)
  {
    var r := MarkedAll(ms, types);
    forall t | t in UnreadCountByType(r) ensures !MarksKind(types, t) {
      UnreadCountByTypeSpec(r, t);
      var f := Filter(r, UnreadOfKind(t));
      assert |f| > 0;
      FilterMembers(r, UnreadOfKind(t), f[0]);
    }
    if types.None? || types == Some([]) {
      if UnreadCount(r) > 0 {
        var f := Filter(r, IsUnread);
        FilterMembers(r, IsUnread, f[0]);
      }
    }
  }

  /** A new message at the top counts once more when it is unread. */
  lemma AddMessageCounts(m: Message, ms: seq<Message>)
    ensures UnreadCount([m] + ms) == UnreadCount(ms) + (if m.isRead then 0 else 1)
    ensures ([m] + ms)[0] == m && ([m] + ms)[1..] == ms
  {
    FilterConcat([m], ms, IsUnread);
    FilterSingle(m, IsUnread);
  }

  const AllTab := "all"

  class NotificationStore {
    var messages: seq<Message>
    var loading: bool
    var currentPage: int
    var pageSize: int
    var total: int
    var hasMore: bool
    var activeTab: string
    var tabTypesMap: map<string, Option<seq<string>>>

    constructor()
      ensures messages == [] && !loading && currentPage == 1 && pageSize == 10 && total == 0 && hasMore
      ensures activeTab == AllTab && tabTypesMap == map[]
    {
      messages := [];
      loading := false;
      currentPage := 1;
      pageSize := 10;
      total := 0;
      hasMore := true;
      activeTab := AllTab;
      tabTypesMap := map[];
    }

    /** `unreadCountByType`, accumulated over the list as the store does. */
    method ComputeUnreadCountByType() returns (counts: map<string, nat>)
      ensures counts == UnreadCountByType(messages)
    {
      counts := map[];
      for i := 0 to |messages|
        invariant counts == UnreadCountByType(messages[..i])
      {
        assert messages[..i + 1][..i] == messages[..i];
        var m := messages[i];
        if !m.isRead {
          counts := counts[m.kind := (if m.kind in counts then counts[m.kind] else 0) + 1];
        }
      }
      assert messages[..|messages|] == messages;
    }

    /** `addMessage`: the message goes on top and the total grows by one. */
    method AddMessage(m: Message)
      modifies this
      ensures messages == [m] + old(messages) && total == old(total) + 1
      ensures loading == old(loading) && currentPage == old(currentPage) && pageSize == old(pageSize)
      ensures hasMore == old(hasMore) && activeTab == old(activeTab) && tabTypesMap == old(tabTypesMap)
    {
      messages := [m] + messages;
      total := total + 1;
    }

    /** `setMessages(newMessages, append)` */
    method SetMessages(newMessages: seq<Message>, append: bool)
      modifies this
      ensures messages == if append then old(messages) + newMessages else newMessages
      ensures loading == old(loading) && currentPage == old(currentPage) && pageSize == old(pageSize)
      ensures total == old(total) && hasMore == old(hasMore) && activeTab == old(activeTab) && tabTypesMap == old(tabTypesMap)
    {
      if append {
        messages := messages + newMessages;
      } else {
        messages := newMessages;
      }
    }

    /** `markAsRead(id)`: `find` the first message with the id and set its flag. */
    method MarkAsRead(id: string)
      modifies this
      ensures messages == MarkedRead(old(messages), id)
      ensures loading == old(loading) && currentPage == old(currentPage) && pageSize == old(pageSize)
      ensures total == old(total) && hasMore == old(hasMore) && activeTab == old(activeTab) && tabTypesMap == old(tabTypesMap)
    {
      var i := 0;
      while i < |messages|
        invariant 0 <= i <= |messages|
        invariant forall k :: 0 <= k < i ==> messages[k].id != id
      {
        if messages[i].id == id {
          FindIndexAt(messages, HasId(id), i);
          messages := messages[i := messages[i].(isRead := true)];
          return;
        }
        i := i + 1;
      }
    }

    /** `markAllAsRead(types)`: the `forEach` over the list. */
    method MarkAllAsRead(types: Option<seq<string>>)
      modifies this
      ensures messages == MarkedAll(old(messages), types)
      ensures loading == old(loading) && currentPage == old(currentPage) && pageSize == old(pageSize)
      ensures total == old(total) && hasMore == old(hasMore) && activeTab == old(activeTab) && tabTypesMap == old(tabTypesMap)
    {
      ghost var before := messages;
      for i := 0 to |messages|
        invariant |messages| == |before|
        invariant forall k :: 0 <= k < i ==> messages[k] == MarkedAll(before, types)[k]
        invariant forall k :: i <= k < |messages| ==> messages[k] == before[k]
        invariant loading == old(loading) && currentPage == old(currentPage) && pageSize == old(pageSize)
        invariant total == old(total) && hasMore == old(hasMore) && activeTab == old(activeTab) && tabTypesMap == old(tabTypesMap)
      {
        if MarksKind(types, messages[i].kind) {
          messages := messages[i := messages[i].(isRead := true)];
        }
      }
    }

    method SetLoading(value: bool)
      modifies this
      ensures loading == value
      ensures messages == old(messages) && currentPage == old(currentPage) && pageSize == old(pageSize)
      ensures total == old(total) && hasMore == old(hasMore) && activeTab == old(activeTab) && tabTypesMap == old(tabTypesMap)
    {
      loading := value;
    }

    /** `setPagination`: there is more to load exactly when the pages so far do not cover the total. */
    method SetPagination(page: int, size: int, totalCount: int)
      modifies this
      ensures currentPage == page && pageSize == size && total == totalCount
      ensures hasMore <==> page * size < totalCount
      ensures messages == old(messages) && loading == old(loading) && activeTab == old(activeTab) && tabTypesMap == old(tabTypesMap)
    {
      currentPage := page;
      pageSize := size;
      total := totalCount;
      hasMore := page * size < totalCount;
    }

    method SetActiveTab(tab: string)
      modifies this
      ensures activeTab == tab
      ensures messages == old(messages) && loading == old(loading) && currentPage == old(currentPage) && pageSize == old(pageSize)
      ensures total == old(total) && hasMore == old(hasMore) && tabTypesMap == old(tabTypesMap)
    {
      activeTab := tab;
    }

    method SetTabTypesMap(m: map<string, Option<seq<string>>>)
      modifies this
      ensures tabTypesMap == m
      ensures messages == old(messages) && loading == old(loading) && currentPage == old(currentPage) && pageSize == old(pageSize)
      ensures total == old(total) && hasMore == old(hasMore) && activeTab == old(activeTab)
    {
      tabTypesMap := m;
    }

    /** `resetPagination`: page 1, total 0, more to load; the list stays. */
    method ResetPagination()
      modifies this
      ensures currentPage == 1 && total == 0 && hasMore
      ensures messages == old(messages) && loading == old(loading) && pageSize == old(pageSize)
      ensures activeTab == old(activeTab) && tabTypesMap == old(tabTypesMap)
    {
      currentPage := 1;
      total := 0;
      hasMore := true;
    }

    /** `reset`: the paging reset, and the list emptied. */
    method Reset()
      modifies this
      ensures messages == [] && currentPage == 1 && total == 0 && hasMore
      ensures loading == old(loading) && pageSize == old(pageSize)
      ensures activeTab == old(activeTab) && tabTypesMap == old(tabTypesMap)
    {
      messages := [];
      currentPage := 1;
      total := 0;
      hasMore := true;
    }

    /** `resetAll`: `reset`, then back to the `'all'` tab with no tab types. */
    method ResetAll()
      modifies this
      ensures messages == [] && currentPage == 1 && total == 0 && hasMore
      ensures activeTab == AllTab && tabTypesMap == map[]
      ensures loading == old(loading) && pageSize == old(pageSize)
    {
      Reset();
      activeTab := AllTab;
      tabTypesMap := map[];
    }
  }
}
