/**
 * The navigation sidebar: which menu entries a session sees, and where a
 * click leads.
 */
module Sidebar {
  import opened Wrappers
  import opened AuthContext

  /**
   * A menu entry: an item with its key and optional children (a child may be
   * null, `getItem`'s answer for a hidden child), or a divider.
   */
  datatype MenuEntry = Item(key: string, children: Option<seq<Option<MenuEntry>>>) | Divider

  /** `permissions.some(hasPermission)`. */
  function AnyPermission(s: AuthState, required: seq<string>): (r: bool)
    ensures r <==> exists i :: 0 <= i < |required| && HasPermission(s, required[i])
  {
    if required == [] then false
    else HasPermission(s, required[0]) || AnyPermission(s, required[1..])
  }

  /** `groups.some(hasGroupAccess)`. */
  function AnyGroup(s: AuthState, required: seq<string>): (r: bool)
    ensures r <==> exists i :: 0 <= i < |required| && HasGroupAccess(s, required[i])
  {
    if required == [] then false
    else HasGroupAccess(s, required[0]) || AnyGroup(s, required[1..])
  }

  /**
   * `getItem`: null when a non-empty permission list has no held permission,
   * or a non-empty group list no accessible group; the item otherwise.
   */
  function GetItem(s: AuthState, key: string, children: Option<seq<Option<MenuEntry>>>,
                   permissions: seq<string>, groups: seq<string>): (r: Option<MenuEntry>)
    ensures r.Some? <==> (permissions == [] || AnyPermission(s, permissions)) && (groups == [] || AnyGroup(s, groups))
    ensures r.Some? ==> r.value == Item(key, children)
  {
    if |permissions| > 0 && !AnyPermission(s, permissions) then None
    else if |groups| > 0 && !AnyGroup(s, groups) then None
    else Some(Item(key, children))
  }

  /** `.filter(Boolean)`: the non-null entries, in order. */
  function Compact(entries: seq<Option<MenuEntry>>): (r: seq<MenuEntry>)
    ensures |r| <= |entries|
  {
    if entries == [] then []
    else (if entries[0].Some? then [entries[0].value] else []) + Compact(entries[1..])
  }

  function ChatChildren(s: AuthState): seq<Option<MenuEntry>> {
    [GetItem(s, "chat-new", None, ["chat:create"], []), GetItem(s, "chat-history", None, ["chat:read"], [])]
  }

  function LlmChildren(s: AuthState): seq<Option<MenuEntry>> {
    [GetItem(s, "agents", None, ["agents:read"], []), GetItem(s, "rag", None, ["rag:read"], [])]
  }

  function SystemChildren(s: AuthState): seq<Option<MenuEntry>> {
    [GetItem(s, "users", None, ["users:read"], []), GetItem(s, "groups", None, ["groups:read"], []),
     GetItem(s, "roles", None, ["roles:read"], []), GetItem(s, "monitoring", None, ["monitoring:read"], []),
     GetItem(s, "settings", None, ["settings:read"], [])]
  }

  /** The menu before filtering. */
  function RawItems(s: AuthState): seq<Option<MenuEntry>> {
    [GetItem(s, "dashboard", None, ["dashboard:read"], []),
     Some(Divider),
     GetItem(s, "chat-group", Some(ChatChildren(s)), [], []),
     GetItem(s, "llm-group", Some(LlmChildren(s)), [], []),
     Some(Divider),
     GetItem(s, "system-group", Some(SystemChildren(s)), [], []),
     Some(Divider),
     GetItem(s, "help", None, [], [])]
  }

  /** Filtering keeps exactly the entries that were not null. */
  lemma {:induction false} CompactMembers(entries: seq<Option<MenuEntry>>, e: MenuEntry)
    ensures e in Compact(entries) <==> Some(e) in entries
  {
    if entries != [] {
      CompactMembers(entries[1..], e);
      assert entries == [entries[0]] + entries[1..];
    }
  }

  lemma {:induction false} CompactAppend(a: seq<Option<MenuEntry>>, b: seq<Option<MenuEntry>>)
    ensures Compact(a + b) == Compact(a) + Compact(b)
  {
    if a == [] {
      assert a + b == b;
    } else {
      var head := if a[0].Some? then [a[0].value] else [];
      assert (a + b)[0] == a[0] && (a + b)[1..] == a[1..] + b;
      assert Compact(a + b) == head + Compact(a[1..] + b);
      CompactAppend(a[1..], b);
      assert Compact(a) == head + Compact(a[1..]);
    }
  }

  lemma {:induction false} CompactSomes(xs: seq<Option<MenuEntry>>)
    requires forall i :: 0 <= i < |xs| ==> xs[i].Some?
    ensures |Compact(xs)| == |xs|
    ensures forall i :: 0 <= i < |xs| ==> Compact(xs)[i] == xs[i].value
  {
    if xs != [] {
      CompactSomes(xs[1..]);
    }
  }

  /** `items`: the menu with its top-level nulls removed. */
  function Items(s: AuthState): seq<MenuEntry> {
    Compact(RawItems(s))
  }

  /**
   * The dashboard is the only top-level entry that can be hidden: the three
   * parents, the three dividers and `help` are always shown, in order, and the
   * dashboard leads the menu exactly when `dashboard:read` is held.
   */
  lemma MenuShape(s: AuthState)
    ensures Items(s) == (if HasPermission(s, "dashboard:read") then [Item("dashboard", None)] else [])
      + [Divider, Item("chat-group", Some(ChatChildren(s))), Item("llm-group", Some(LlmChildren(s))),
         Divider, Item("system-group", Some(SystemChildren(s))), Divider, Item("help", None)]
  {
    var raw := RawItems(s);
    var tail := raw[1..];
    assert raw == [raw[0]] + tail;
    assert raw[0].Some? <==> HasPermission(s, "dashboard:read") by {
      assert AnyPermission(s, ["dashboard:read"]) == HasPermission(s, "dashboard:read");
    }
    CompactAppend([raw[0]], tail);
    CompactSomes(tail);
  }

  /**
   * Hidden children stay in the child lists as nulls: a parent is shown, with
   * two null children, even to a session that holds no permission at all.
   */
  lemma NullChildrenKept(s: AuthState)
    requires s.permissions == []
    ensures Item("chat-group", Some([None, None])) in Items(s)
    ensures Item("llm-group", Some([None, None])) in Items(s)
    ensures Item("system-group", Some([None, None, None, None, None])) in Items(s)
  {
    MenuShape(s);
  }

  /** A child is shown exactly when its one permission is held. */
  lemma ChildGatedByItsPermission(s: AuthState)
    ensures ChatChildren(s)[0].Some? <==> HasPermission(s, "chat:create")
    ensures ChatChildren(s)[1].Some? <==> HasPermission(s, "chat:read")
    ensures LlmChildren(s)[0].Some? <==> HasPermission(s, "agents:read")
    ensures LlmChildren(s)[1].Some? <==> HasPermission(s, "rag:read")
    ensures SystemChildren(s)[0].Some? <==> HasPermission(s, "users:read")
    ensures SystemChildren(s)[1].Some? <==> HasPermission(s, "groups:read")
    ensures SystemChildren(s)[2].Some? <==> HasPermission(s, "roles:read")
    ensures SystemChildren(s)[3].Some? <==> HasPermission(s, "monitoring:read")
    ensures SystemChildren(s)[4].Some? <==> HasPermission(s, "settings:read")
  {
  }

  /** Within one list a single held permission is enough; across the two lists both must pass. */
  lemma OrWithinAndAcross(s: AuthState, key: string, p: string, ps: seq<string>, groups: seq<string>)
    requires HasPermission(s, p) && p in ps
    ensures GetItem(s, key, None, ps, groups).Some? <==> (groups == [] || AnyGroup(s, groups))
  {
    var i :| 0 <= i < |ps| && ps[i] == p;
    assert HasPermission(s, ps[i]);
  }

  /** `routeMap`: the page each leaf key opens. */
  function Route(key: string): (r: Option<string>)
    ensures r.Some? ==> |r.value| > 0 && r.value[0] == '/'
    ensures key in {"chat-group", "llm-group", "system-group"} ==> r.None?
  {
    if key == "dashboard" then Some("/dashboard")
    else if key == "chat-new" then Some("/chat")
    else if key == "chat-history" then Some("/chat/history")
    else if key == "agents" then Some("/agents")
    else if key == "rag" then Some("/rag")
    else if key == "users" then Some("/users")
    else if key == "groups" then Some("/groups")
    else if key == "roles" then Some("/roles")
    else if key == "monitoring" then Some("/monitoring")
    else if key == "settings" then Some("/settings")
    else if key == "help" then Some("/help")
    else None
  }

  class Sidebar {
    var selectedKeys: seq<string>
    /** The pages the router was asked to open, oldest first. */
    var navigations: seq<string>

    constructor ()
      ensures selectedKeys == [] && navigations == []
    {
      selectedKeys := [];
      navigations := [];
    }

    /** `handleMenuClick`: the clicked key becomes the only selected one; a mapped key navigates. */
    method HandleMenuClick(key: string)
      modifies this
      ensures selectedKeys == [key]
      ensures navigations == old(navigations) + (if Route(key).Some? then [Route(key).value] else [])
    {
      selectedKeys := [key];
      var route := Route(key);
      if route.Some? {
        navigations := navigations + [route.value];
      }
    }
  }
}
